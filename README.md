# uChip solenoid rig and project model in Dafny

uChip drives microfluidic chips through USB solenoid controllers. This project models four parts of it:

- **The rig** (`Data/Rig.py`). The rig keeps a map from solenoid number to the state the user wants. It keeps a list of controller devices. Each device owns 24 solenoids, starting at its start number. It holds a local copy of their states and sends them as three tagged frames, one per group of 8, with each group's bits inverted when that group's polarity is set. A device is connected with a reset handshake and disconnected when its port is gone. A rescan reconciles the known devices with the serial ports present, by hardware id, and appends a device for each new port.
- **The script vocabulary** (`ucscript.py`). This covers parameter declarations, wait durations and the `ProgramFunction` record. It also covers the decorators that fill in that record: `display`, `onStop`, `onPause` and `onResume`.
- **The project records** (`Data/Chip.py`). These are valves, text, images, built-in and file-backed scripts, and programs. They include the path conversions used when a project is saved or loaded.
- **The data rules of three views**:
  - the script browser (`UI/ScriptBrowser.py`): script ordering, selection, import, relocation and the remove rule;
  - the rig view (`UI/RigView.py`): toggle and set-all buttons, pushing settings to a device, blinking, the solenoid grid and the device list;
  - the chip view (`UI/ChipView.py`): adding valves, text, images and programs.

The modules are:

| module | file | role |
|---|---|---|
| `Common` | common.dfy | `Option`, script values, Python list indexing, `list.index` and `list.remove` |
| `SolenoidCodec` | codec.dfy | packing 8 pin states into a byte, and the three frames a device writes |
| `RigState` | rig_state.dfy | a device record as a value, and every rig operation as a function on values, with lemmas |
| `Rig` | rig.dfy | the classes `Device` and `Rig`, whose methods are proved to change their fields exactly as `RigState` says |
| `UcScript` | ucscript.dfy | parameters, waits, `ProgramFunction` and its decorators |
| `Chip` | chip.dfy | the classes `Chip`, `Script`, `Program` and `Image`, and the value records `Valve` and `Text` |
| `ScriptBrowser` | script_browser.dfy | the script list shown to the user and the operations on it |
| `RigView` | rig_view.dfy | the rig view's buttons, device list and grid layout |
| `ChipView` | chip_view.dfy | adding items to the chip |

Modelling choices:

- **Serial ports.** A serial port is an `Option<SerialPort>`. It records the OS device it was opened on and the list of frames written to it, so "connected" means the option is present.
- **Port enumeration.** The port enumeration `comports()` becomes the `portInfos` parameter of `RescanForDevices`.
- **The current chip and rig.** `UIMaster.Instance().currentChip` and `.rig` become explicit parameters.
- **Dialogs.** A file dialog's answer is a `chosen` string, where `""` means cancelled.
- **Widget state.** A list widget's current row is an `int` row parameter or field.
- **Paths.** Paths are strings. `os.path.relpath`, `Path.absolute()` and reading a file are function parameters.
- **Built-in scripts.** The listing of the `Builtins` directory is an input sequence of `(contents, stem)` pairs.

Where the code and the project's written description differ, the model follows the code:

- **Connect handshake.** `Device.Connect` sends `"!A"`, `"!B"` and `"!C"`, each followed by a zero byte (`Data/Rig.py:115-117`). It does not send `"A"` followed by 0. `RigState.ResetHandshake` holds these frames.
- **Rescan with an empty hardware id.** A port whose hardware id is empty gets a new device on every rescan (`Data/Rig.py:29-30`), so a rescan is not idempotent. `RigState.RescanIdempotent` proves idempotence only when every port has a non-empty id. `RigState.RescanGrowsWithEmptyHwId` proves that otherwise the device list grows on every rescan.

## Model

| member | source | states |
|---|---|---|
| Common.PyIndex | UI/RigView.py:145 | Python's `xs[i]`: defined exactly for `-len(xs) <= i < len(xs)`, and the plain element for a non-negative index; otherwise an IndexError (None) |
| Common.IndexOf | UI/ScriptBrowser.py:153 | `list.index`: the position of the first occurrence of x |
| Common.RemoveFirst | UI/ScriptBrowser.py:85 | `list.remove`: one occurrence fewer of x (multiset), the first one, and the rest in order |
| SolenoidCodec.Pack | Data/Rig.py:143-148 | the packed value of n pin states is below 2^n, so 8 states fit in one byte |
| SolenoidCodec.PackBit | Data/Rig.py:143-148 | bit i of the packed value is set exactly when pin i is on |
| SolenoidCodec.PackAllOff | Data/Rig.py:143-148 | all pins off pack to 0 |
| SolenoidCodec.PackAppend | Data/Rig.py:145-147 | one more pin adds 2^i when it is on and nothing when it is off |
| SolenoidCodec.UnpackPack | Data/Rig.py:143-148 | unpacking the byte gives back the pin states |
| SolenoidCodec.PackUnpack | Data/Rig.py:143-148 | every value below 2^n is the packing of exactly its own bits |
| SolenoidCodec.ConvertPinStatesToBytes | Data/Rig.py:143-148 | the loop returns the packing of the first 8 states: bit i set iff `state[i]`, a value in 0..255 |
| SolenoidCodec.FrameBits | Data/Rig.py:94-101 | the g-th frame is tag 'A'+g followed by a byte whose bit j is slot 8g+j XOR the group's polarity |
| SolenoidCodec.EncodeDecode | Data/Rig.py:94-101 | the three frames determine the 24 slots: decoding with the polarities gives them back |
| RigState.ConnectIdempotent | Data/Rig.py:111-118 | Connect leaves the device connected, is a no-op when already connected, sends the "!A"/"!B"/"!C" zero handshake on a fresh connection, and changes nothing else |
| RigState.DisconnectSafe | Data/Rig.py:120-123 | Disconnect always leaves no port, is safe when already closed, and changes nothing else |
| RigState.SetSolenoidsInactive | Data/Rig.py:86-88 | a disabled or unconnected device is left exactly as it was: no frames, same slots |
| RigState.SetSolenoidsActive | Data/Rig.py:89-101 | slot k takes `desired[start+k]` when present and keeps its value otherwise; exactly the three state frames are appended; nothing else changes |
| RigState.SetSolenoidsWireRoundTrip | Data/Rig.py:94-101 | the three new frames decode back to the new slots |
| RigState.SetSolenoidsSlotsIdempotent | Data/Rig.py:86-101 | sending the same map twice leaves the same slots |
| RigState.PickledIsIdle | Data/Rig.py:77-81 | a saved device has no port and is unavailable, ignores SetSolenoids, and keeps every other field |
| RigState.FlushScenario | Data/Rig.py:48-50 | a concrete flush: a device starting at 0 with solenoid 5 on writes 'A' 0x20, 'B' 0, 'C' 0; a device starting at 24 keeps its slots |
| RigState.OnlyBit5Frames | Data/Rig.py:94-101 | the frames of "only slot 5 on" with no inversion are 'A' 0x20, 'B' 0, 'C' 0 |
| RigState.SolenoidNumbers | Data/Rig.py:58 | `range(start, start+24)`: 24 numbers, exactly those in [start, start+24) |
| RigState.ConnectedSetMembers | Data/Rig.py:54-60 | n is connected iff some enabled and connected device's range contains it |
| RigState.PickledConnectedSetEmpty | Data/Rig.py:77-81 | saved devices report no connected solenoids |
| RigState.FlushKeepsConnectedSet | Data/Rig.py:48-50 | flushing changes no device's connection, enable flag or start number, so the connected set is unchanged |
| RigState.InsertAscending | Data/Rig.py:61 | inserting a new element keeps a sequence strictly ascending, with exactly one more element |
| RigState.SortDistinct | Data/Rig.py:61 | `sorted` of a duplicate-free list: strictly ascending, same length, same elements |
| RigState.FirstMatch | Data/Rig.py:17-18 | `next(p for p in ports if p.hwid == hwid)`: a listed port with that hwid, and None exactly when no port has it |
| RigState.FirstMatchAt | Data/Rig.py:17-18 | the match is the first port with that hwid |
| RigState.NewDevicePorts | Data/Rig.py:28-30 | no more ports are taken than listed, and each taken port is a listed one |
| RigState.NewDevicePortsInOrder | Data/Rig.py:28-34 | the taken ports keep the order of the port list (a subsequence of it) |
| RigState.NewDevicePortsStep | Data/Rig.py:28-34 | one more port is taken exactly when its hwid is empty or not yet listed |
| RigState.AppendDiscovered | Data/Rig.py:31-34 | appending a port appends its device and its hwid |
| RigState.NewDevicePortsCover | Data/Rig.py:28-34 | after the second loop every listed port's hwid is known |
| RigState.NoNewPortsWhenKnown | Data/Rig.py:28-34 | when every port has a known, non-empty hwid, nothing is appended |
| RigState.EmptyHwIdAlwaysAdded | Data/Rig.py:29-30 | a port with an empty hwid always gets a new device |
| RigState.AddedIsFirst | Data/Rig.py:28-34 | an appended port with a non-empty hwid was unknown and is the first listed port with that hwid |
| RigState.FirstMatchIndex | Data/Rig.py:17-18 | the first match comes no later than any port with the same hwid |
| RigState.RescanKnownDevice | Data/Rig.py:16-26 | a known device whose hwid is listed takes the first port with it and is available; an enabled closed device opens a fresh connection (reset handshake) on that port, any other keeps its connection as it was; a device whose hwid is not listed is unavailable with no connection; nothing else changes |
| RigState.RescanNewDevice | Data/Rig.py:28-34 | each appended device is bound to its port, available, disabled, at start 0 and unconnected, and its hwid was unknown unless empty |
| RigState.ReconcileIdempotent | Data/Rig.py:16-26 | reconciling keeps the hwid and a second reconciliation changes nothing |
| RigState.RescanHwIds | Data/Rig.py:13-34 | existing devices keep their order and hwids; the new hwids follow |
| RigState.RescanReconciled | Data/Rig.py:13-34 | without empty hwids, every device after a rescan is already reconciled |
| RigState.RescanIdempotent | Data/Rig.py:13-34 | without empty hwids, rescanning the same port list twice is the same as once |
| RigState.RescanGrowsWithEmptyHwId | Data/Rig.py:29-30 | with an empty hwid in the list, every rescan appends a device |
| RigState.NewDevicePortsUnique | Data/Rig.py:28-34 | appended non-empty hwids are distinct from each other and from the known ones |
| RigState.RescanKeepsHwIdsUnique | Data/Rig.py:13-34 | a rescan keeps the non-empty hwids of the device list unique |
| Rig.Device.constructor | Data/Rig.py:65-72 | a new device: start 0, no inversion, disabled, unavailable, no port, 24 slots off |
| Rig.Device.GetState | Data/Rig.py:77-81 | the saved state has no port and is unavailable, and keeps every other field |
| Rig.Device.Write | Data/Rig.py:103-104 | one frame is appended to the open port's log |
| Rig.Device.SetSolenoids | Data/Rig.py:86-101 | the slot loop and three writes change the device exactly as `RigState.SetSolenoids` |
| Rig.Device.WriteState | Data/Rig.py:96-101 | the three packed bytes go out as 'A', 'B', 'C' frames, in that order |
| Rig.Device.Connect | Data/Rig.py:111-118 | the device changes exactly as `RigState.Connect` |
| Rig.Device.ReconcileWith | Data/Rig.py:16-26 | one step of the first rescan loop, exactly as `RigState.Reconcile` |
| Rig.Device.Disconnect | Data/Rig.py:120-123 | the device changes exactly as `RigState.Disconnect` |
| Rig.Rig.constructor | Data/Rig.py:9-11 | no desired states and no devices |
| Rig.Rig.SetSolenoidState | Data/Rig.py:40-41 | only the given key changes |
| Rig.Rig.GetSolenoidState | Data/Rig.py:43-46 | an unknown number is inserted as False and read as False; a known one is returned and nothing changes |
| Rig.Rig.FlushStates | Data/Rig.py:48-50 | every device, in order, gets SetSolenoids with the whole map |
| Rig.Rig.Disconnect | Data/Rig.py:36-38 | every device is disconnected |
| Rig.Rig.GetConnectedSolenoidNumbers | Data/Rig.py:54-61 | the nested loop and `sorted` give a strictly ascending list (so no duplicates) holding exactly the union of the enabled, connected devices' ranges, overlaps allowed |
| Rig.Rig.RescanForDevices | Data/Rig.py:13-34 | the devices' new states are `RigState.Rescan` of the old ones; existing devices keep their order and identity; appended ones are new objects |
| Rig.Rig.ReconcileDevices | Data/Rig.py:16-26 | the first loop reconciles every known device with the port list |
| Rig.Rig.AppendNewDevices | Data/Rig.py:28-34 | the second loop appends exactly the devices of `NewDevicePorts`, re-reading the hwids after each append |
| Rig.Rig.AddIfNew | Data/Rig.py:29-34 | one iteration of the second loop |
| Rig.Rig.AddDevice | Data/Rig.py:31-34 | a new available device bound to the port is appended, and nothing else changes |
| UcScript.NewParameter | ucscript.py:11-27 | every argument is stored verbatim, and Python's None defaults apply |
| UcScript.OptionsParameter | ucscript.py:134-141 | carries the options; the default value is the default index; no display name, minimum or maximum unless given |
| UcScript.ListParameter | ucscript.py:144-151 | carries the element type; no default, minimum or maximum |
| UcScript.OptionsParameterDefaults | ucscript.py:139-141 | the preselected option is index 0 by default |
| UcScript.WaitForSeconds | ucscript.py:119-121 | waits the given number of seconds |
| UcScript.WaitForMinutes | ucscript.py:124-126 | waits 60 times the minutes |
| UcScript.WaitForHours | ucscript.py:129-131 | waits 3600 times the hours |
| UcScript.WaitUnitsAgree | ucscript.py:119-131 | an hour is sixty minutes, a minute is sixty seconds, and the durations are monotone |
| UcScript.Wrap | ucscript.py:85-92 | a fresh record: unnamed, may run asynchronously, hidden, every callback a no-op |
| UcScript.Displayed | ucscript.py:158-170 | shown; renamed only when a name is given; nothing else changes |
| UcScript.WithCallback | ucscript.py:174-199 | exactly the named callback is replaced; the others, the name, the hidden flag and the function are kept |
| UcScript.DecoratorsCommute | ucscript.py:158-199 | display and callback decorators may be stacked in any order, and two different callback decorators commute |
| UcScript.DisplayedIdempotent | ucscript.py:158-170 | the same display decorator twice equals once |
| UcScript.ProgramFunction.constructor | ucscript.py:85-92 | the fields start as `Wrap` says |
| UcScript.Pf | ucscript.py:154-155 | a wrapped function comes back as the same object (so `_pf` twice is `_pf` once); a plain one gets a fresh wrapper |
| UcScript.Display | ucscript.py:158-170 | the wrapper's fields change exactly as `Displayed` says |
| UcScript.DisplayBare | ucscript.py:165-167 | bare `@display` shows the function and leaves a fresh wrapper unnamed |
| UcScript.SetCallback | ucscript.py:174-199 | the wrapper's fields change exactly as `WithCallback` says |
| Chip.LastIndexOf | Data/Chip.py:76 | the last position of c in s, or -1 |
| Chip.LastIndexOfAt | Data/Chip.py:76 | the position found is the last one holding c |
| Chip.FileName | Data/Chip.py:76 | the final path component holds no separator |
| Chip.Stem | Data/Chip.py:76 | `Path.stem` holds no separator |
| Chip.StemOfFile | Data/Chip.py:76 | the stem of `dir/base.ext` is `base` |
| Chip.StemWithoutSuffix | Data/Chip.py:76 | the stem of a name without a dot is the name |
| Chip.Image.constructor | Data/Chip.py:52-55 | a zero rectangle and the given path |
| Chip.Script.constructor | Data/Chip.py:58-63 | the path, built-in flag, built-in text and built-in name are stored |
| Chip.BuiltInIgnoresFiles | Data/Chip.py:65-75 | a built-in script reads as its built-in text whatever the file system holds, and is named by its built-in name |
| Chip.FileScriptName | Data/Chip.py:65-76 | a file-backed script is named by its file's stem and reads as the file's contents |
| Chip.Program.constructor | Data/Chip.py:79-87 | the given script, position [0,0], scale 1, empty maps, empty name, messages shown |
| Chip.Program.SetState | Data/Chip.py:89-92 | every saved field is installed; `hideMessages` is False only when it was missing, and is kept otherwise |
| Chip.Chip.constructor | Data/Chip.py:8-19 | empty lists, and one new built-in script per built-in file, in order, with its contents and stem |
| Chip.Chip.AddScript | UI/ScriptBrowser.py:182 | the script is appended |
| Chip.Chip.RemoveScript | UI/ScriptBrowser.py:85 | the first occurrence is removed, and the script is no longer listed |
| Chip.Chip.Relocate | UI/ScriptBrowser.py:163 | only that script's path changes |
| Chip.Chip.ConvertPathsToRelative | Data/Chip.py:21-27 | every image path and every file-backed script path is made relative; built-ins keep their path; list order and length are unchanged; only the `path` fields may change, so image rectangles and every other field survive |
| Chip.Chip.ConvertPathsToAbsolute | Data/Chip.py:29-35 | every image path and every file-backed script path is made absolute; built-ins keep their path; list order and length are unchanged; only the `path` fields may change, so image rectangles and every other field survive |
| Chip.Chip.ConvertPaths | Data/Chip.py:21-35 | the two loops both conversions share, built-ins skipped; nothing but the `path` fields changes |
| Chip.Chip.ConvertImagePaths | Data/Chip.py:21-31 | each image path is rewritten in place, and only the `path` field of an image changes |
| Chip.Chip.ConvertScriptPaths | Data/Chip.py:24-35 | each file-backed script path is rewritten, and built-ins are skipped |
| ScriptBrowser.NameLeTotal | UI/ScriptBrowser.py:101-102 | the name order is total |
| ScriptBrowser.NameLeTrans | UI/ScriptBrowser.py:101-102 | the name order is transitive |
| ScriptBrowser.InsertByName | UI/ScriptBrowser.py:101-102 | insertion adds exactly the one entry |
| ScriptBrowser.InsertScripts | UI/ScriptBrowser.py:101-102 | insertion adds exactly the one script |
| ScriptBrowser.InsertSorted | UI/ScriptBrowser.py:101-102 | insertion keeps a list sorted by name |
| ScriptBrowser.SortByName | UI/ScriptBrowser.py:101-102 | `sorted(..., key=Name)` is a permutation of its input |
| ScriptBrowser.SortByNameSorted | UI/ScriptBrowser.py:101-102 | and is ordered by name |
| ScriptBrowser.Entries | UI/ScriptBrowser.py:101-102 | each script keyed by its own `Name()`, in order |
| ScriptBrowser.OfKind | UI/ScriptBrowser.py:101-102 | the comprehension keeps only listed scripts of the asked kind |
| ScriptBrowser.OfKindSplits | UI/ScriptBrowser.py:101-102 | built-ins and file-backed scripts together are exactly the list |
| ScriptBrowser.SortedKind | UI/ScriptBrowser.py:101-102 | one kind, sorted, is a permutation of that kind |
| ScriptBrowser.SortedKindOrdered | UI/ScriptBrowser.py:101-102 | it holds only that kind and is ordered by name |
| ScriptBrowser.Scripts | UI/ScriptBrowser.py:98-103 | the browser's list is a permutation of the chip's scripts |
| ScriptBrowser.ScriptsOrdered | UI/ScriptBrowser.py:98-103 | every built-in comes before every file-backed script, and each kind is ordered by name |
| ScriptBrowser.SelectedScript | UI/ScriptBrowser.py:109-110 | the script at the current row, with Python indexing; always one of the chip's scripts |
| ScriptBrowser.RelistSelectsFirst | UI/ScriptBrowser.py:76-82 | after a relist the selected script is the first listed one, a built-in whenever the chip has one; nothing is selected exactly when the chip has no scripts |
| ScriptBrowser.SelectScript | UI/ScriptBrowser.py:150-153 | a script not listed leaves the row alone; a listed one becomes the selected script |
| ScriptBrowser.RemoveEnabled | UI/ScriptBrowser.py:112-134 | remove is enabled exactly for a file-backed script that no program uses |
| ScriptBrowser.RemoveScript | UI/ScriptBrowser.py:84-86 | the selected script's first occurrence is removed from the chip and the list is relisted; a row the listing cannot index is an IndexError that changes nothing |
| ScriptBrowser.BrowseForScript | UI/ScriptBrowser.py:167-175 | cancelled gives None; otherwise the first file-backed script with that path, or a fresh script for it when there is none (`FirstAtPath`: no file-backed script before it has that path) |
| ScriptBrowser.ImportScript | UI/ScriptBrowser.py:177-184 | a path already imported adds nothing; a new one appends one new script; either way the first file-backed script at the path, the one BrowseForScript returns, is selected |
| ScriptBrowser.AddUnlessHeld | UI/ScriptBrowser.py:181-182 | the browsed script is appended exactly when the chip does not hold it, and it is then the first file-backed script at the path |
| ScriptBrowser.FirstAtPathAppended | UI/ScriptBrowser.py:181-182 | a script appended after scripts none of which has its path is the first at that path |
| ScriptBrowser.RelocateSelected | UI/ScriptBrowser.py:155-162 | a cancelled dialog changes nothing; a path already in use is an error; otherwise the selected script takes the chosen path, or an IndexError changes nothing when the row indexes no script |
| ScriptBrowser.RefindScript | UI/ScriptBrowser.py:155-165 | as written: a cancelled dialog changes nothing; a path already in use is an error and changes nothing; otherwise the selected script's path changes (an IndexError that changes nothing when the row indexes no script), and the selection falls back to row 0 |
| ScriptBrowser.RefindScriptReselecting | UI/ScriptBrowser.py:155-165 | corrected: the same errors, but a relocated script stays selected |
| ScriptBrowser.SelectedSet | UI/ScriptBrowser.py:109-110 | the script the row selects, as a set that is empty exactly when the row indexes nothing |
| RigView.Toggled | UI/RigView.py:253-255 | the number takes the negation of its state, where unknown counts as off; nothing else changes |
| RigView.ToggleTwice | UI/RigView.py:253-255 | toggling twice restores a known state |
| RigView.SetAllEffect | UI/RigView.py:294-297 | every listed number takes the state; every other number is untouched |
| RigView.SetAllConcat | UI/RigView.py:294-297 | setting two lists one after the other equals setting their concatenation |
| RigView.SetAllButton.constructor | UI/RigView.py:269-274 | the numbers and state to set are stored |
| RigView.SetAllButton.Perform | UI/RigView.py:294-297 | the loop sets the rig exactly as `SetAll` |
| RigView.Shown | Data/Rig.py:43-46 | reading a button's state records a never-set number as off and changes nothing else |
| RigView.ShowAllEffect | UI/RigView.py:159-162 | creating the grid's buttons adds exactly the missing numbers, as off, and never changes the state any number reads as |
| RigView.ShownSolenoidFlush | UI/RigView.py:159-162 | once a solenoid's button exists, the next flush drives its slot on an active device to the state the button shows, off when it was never set |
| RigView.SolenoidButton.constructor | UI/RigView.py:229-241 | the number is stored and the first refresh records it in the rig's map (as `Shown`) and shows its state |
| RigView.SolenoidButton.ToggleState | UI/RigView.py:253-256 | the rig's map changes exactly as `Toggled`, and the button shows the new state |
| RigView.SolenoidButton.UpdateDisplay | UI/RigView.py:258-266 | the rig's map changes exactly as `Shown`, and the button shows the state the rig holds |
| RigView.ApplySettings | UI/RigView.py:91-99 | enabled, polarities and start are copied; the device is connected iff enabled; a device whose connection already matches keeps its port and write log, and a newly enabled closed device opens a fresh connection that has sent only the reset handshake; slots, port info and availability are kept |
| RigView.ApplySettingsUnchanged | UI/RigView.py:91-99 | pushing a device's own settings back, when its connection already matches, changes nothing |
| RigView.BlinkStates | UI/RigView.py:105-108 | step i sets exactly the device's 24 numbers, all on for even i and all off for odd i |
| RigView.BlinkSteps | UI/RigView.py:104-108 | blinking changes only slots and the write log |
| RigView.BlinkResult | UI/RigView.py:103-108 | an active device ends with every slot in the last step's state (on after five steps) and three more frames per step; an inactive one is unchanged |
| RigView.BlinkStep | UI/RigView.py:104-107 | one step on an active device sets all 24 outputs to the step's state, keeps it active and writes three frames |
| RigView.RowCount | UI/RigView.py:164 | `ceil(n/8)` |
| RigView.RowNumbers | UI/RigView.py:166 | a row holds at most 8 numbers |
| RigView.SolenoidCells | UI/RigView.py:159-162 | one button per number |
| RigView.RowControls | UI/RigView.py:164-169 | three controls per row |
| RigView.SolenoidCellsDistinct | UI/RigView.py:159-164 | the i-th number sits at row i div 8 and column i mod 8; no two share a cell; all lie within columns 0..7 and the counted rows |
| RigView.RowButtonsCoverRow | UI/RigView.py:159-169 | a number's row buttons cover it, and that row is `numbers[8r:8r+8]` |
| RigView.RowsPartitionNumbers | UI/RigView.py:164-169 | the first k rows together are the first 8k numbers |
| RigView.RowsCoverAll | UI/RigView.py:164-169 | all rows together are exactly the numbers |
| RigView.PressRowsIsSetAll | UI/RigView.py:164-169 | pressing the first k rows' ON buttons is setting their numbers |
| RigView.EveryRowIsAll | UI/RigView.py:164-175 | pressing every row's button equals pressing ALL |
| RigView.AvailableDevices | UI/RigView.py:132 | never longer than the rig's list |
| RigView.AvailableMembers | UI/RigView.py:132 | a device is listed exactly when it is in the rig's list and available |
| RigView.AvailableConcat | UI/RigView.py:132 | filtering distributes over concatenation, so with `AvailableSingle` the list holds each available device once per occurrence in the rig's list, in the rig's order |
| RigView.AvailableSingle | UI/RigView.py:132 | a single device is kept exactly when it is available |
| RigView.DeviceLabels | UI/RigView.py:137-140 | one label per listed device |
| RigView.SelectedRow | UI/RigView.py:137-142 | the row of the selected device, or none when it is not listed |
| RigView.ApplyToDevice | UI/RigView.py:91-99 | the device changes exactly as `ApplySettings` |
| RigView.BlinkDevice | UI/RigView.py:103-109 | five SetSolenoids steps, exactly as `BlinkSteps` |
| RigView.PlaceButtons | UI/RigView.py:159-162 | the first loop places one button per number at row i div 8, column i mod 8, and creating the buttons changes the rig's map exactly as `ShowAll` |
| RigView.PlaceRowControls | UI/RigView.py:164-169 | the second loop places exactly `RowControls` for `ceil(n/8)` rows |
| RigView.BuildGrid | UI/RigView.py:159-175 | the loops place exactly `SolenoidGrid`, and creating the buttons changes the rig's map exactly as `ShowAll` |
| RigView.ListEntries | UI/RigView.py:136-142 | the loop lists the available devices' labels and finds the selected one's row |
| RigView.RigView.constructor | UI/RigView.py:12-85 | no device selected; the device list and solenoid numbers as `Update` leaves them; every shown number recorded in the rig's map as `ShowAll` |
| RigView.RigView.Update | UI/RigView.py:87-89 | the device list and numbers are brought up to date; the selection moves to the last available device when a changed list had a current row, and is kept otherwise; an unchanged list keeps its labels and current row, a changed one shows `DeviceLabels` with the selected device's row; an unchanged grid keeps its layout and label, a changed one is `SolenoidGrid` with the "none connected" label shown exactly when there are no numbers, and records its new numbers as `ShowAll` |
| RigView.RigView.PushUIToDevice | UI/RigView.py:91-100 | the selected device takes the settings and connects or disconnects to match; then every device is flushed |
| RigView.RigView.Blink | UI/RigView.py:103-110 | the selected device blinks five times; then every device is flushed |
| RigView.RigView.UpdateDeviceList | UI/RigView.py:131-142 | an unchanged list changes nothing; otherwise the list is replaced, clearing a list with a current row selects the last new device (row -1), and the labels and selected row are rebuilt |
| RigView.RigView.NewDeviceSelected | UI/RigView.py:144-146 | the widget's current row becomes the row; the device at that row, with Python indexing (row -1 is the last device); a row out of range is an IndexError and keeps the selection |
| RigView.RigView.UpdateSolenoids | UI/RigView.py:148-176 | unchanged numbers change nothing; otherwise the grid is rebuilt, its buttons record their numbers in the rig's map as `ShowAll`, and the "none connected" label shows iff there are no numbers |
| ChipView.DigitChar | UI/ChipView.py:106 | the character of one decimal digit |
| ChipView.NatToString | UI/ChipView.py:106 | `str(n)`: non-empty decimal digits with no leading zero |
| ChipView.ParseNatToString | UI/ChipView.py:106 | reading `str(n)` back gives n |
| ChipView.NatToStringInjective | UI/ChipView.py:106 | different numbers print differently |
| ChipView.HighestValveNumber | UI/ChipView.py:103-104 | `max(numbers + [-1])`: at least -1, no valve above it, and attained unless -1 |
| ChipView.NextValveNumber | UI/ChipView.py:103-107 | above every existing valve number; 0 with no valves; one more than an existing number otherwise |
| ChipView.NextValveNumberLeast | UI/ChipView.py:103-107 | when all numbers lie in [0, m), the next number is at most m |
| ChipView.NewValve | UI/ChipView.py:105-107 | named "Valve " + its number, with the default rectangle |
| ChipView.NewValveNamesDistinct | UI/ChipView.py:105-107 | valves with different numbers get different names |
| ChipView.AddNewValve | UI/ChipView.py:102-108 | one valve with the next number is appended; the existing valves are unchanged |
| ChipView.AddNewText | UI/ChipView.py:128-131 | one default text reading "New text" is appended |
| ChipView.AddNewImage | UI/ChipView.py:114-119 | a cancelled browse adds nothing; otherwise one new image with that path is appended |
| ChipView.AddProgram | UI/ChipView.py:137-140 | one new program bound to the script and named by it is appended, with the other defaults |

## Left out

- Serial I/O: opening a port cannot fail in the model, and `flush` and `close` have no effect beyond dropping the port. Port enumeration (`RescanPorts`/`comports`) is the `portInfos` parameter.
- `Device.Flush`, `Device.Summary` and `DummyDevice`: a flush only pushes buffered bytes to the OS, and the other two are debug formatting; neither changes modelled state.
- `Device.__setstate__`: this only installs the saved dictionary. Saving is modelled by `RigState.Pickled` and `Rig.Device.GetState`.
- Threads, `QTimer` polling and `time.sleep` in `Blink`: timing is not modelled; the five steps are applied in sequence.
- Qt widgets, styles, size hints, `PushDeviceToUI` and the port-info label: display only. `SolenoidButton.UpdateDisplay` is modelled for its rig reads; the style it picks is not, and its 100 ms timer is left out with the other timers.
- `UpdateDeviceList`: the `currentRowChanged` signal that `clear()` fires is modelled as a call of `NewDeviceSelected(-1)` when the list had a current row. The one `setCurrentItem` fires for the selected device is not, because it selects the device already selected. An IndexError from that call (no device left) leaves the selection as it was and the rebuild goes on.
- Exceptions in Qt slots: an IndexError raised in `NewDeviceSelected`, `RemoveScript` or `RefindScript` is an `indexError` result. PySide reports the exception and ends the slot, so nothing after the raising line runs; the printed traceback is not modelled.
- `SelectionChanged`: the preview text, the relocate button and `path.exists` are not modelled. Only its remove-enabled rule is, as `ScriptBrowser.RemoveEnabled`.
- The graphics items of `ChipView` (`ValveItem`, `ImageItem`, `CenterItem`, `SelectItems`) and an image's rectangle taken from the loaded pixmap: the model keeps the zero rectangle of `Image()`.
- File I/O: reading script files and listing the `Builtins` directory are inputs, and pickling (`Data/FileIO.py`) is not modelled.
- Path normalisation: `os.path.relpath` and `Path.absolute()` are uninterpreted function parameters. `Path.stem` is modelled on `/`-separated strings only. `BrowseForScript` compares paths as strings, whereas `pathlib.Path` equality treats, say, `a//b` and `a/b` as one path; the model can therefore miss a duplicate that differs only in spelling.
- An image whose path is still None (`Image()` before a path is set) cannot occur in the model: `Chip.Image.constructor` takes its path.
- The scheduler and watchdog, the script compiler, the USB worker and `UIMaster` are not part of this model. Their source is not available.
- Floating point: waits, positions and scales are `real`.
- Parameter lookup stubs (`FindValve`, `Parameter.Get`) are filled in by the runtime and not modelled.
- RigView.RigView.constructor: states only the selection, the device list and the solenoid numbers it leaves, not the widget fields it initialises.
- Rig.Device.Connect: a device whose `portInfo` is still None (which would raise) cannot occur, because every device is built with its port.
- ScriptBrowser.Scripts: does not state that scripts with equal names keep their relative order (Python's sort is stable); only the permutation and the ordering by kind and name are proved.

## Findings

| source | as written | input that shows it | evidently intended | confidence | as-written member | corrected member |
|---|---|---|---|---|---|---|
| UI/ScriptBrowser.py:155-165 | after a successful relocation, `SelectScript(s)` looks for the fresh script `s` that `BrowseForScript` returned; it was never added to the chip, so the selection stays at row 0 from `Relist` | a chip with no built-in scripts and two file-backed scripts "a" and "b", "b" selected at row 1, relocated to a new file `b.py` in another directory: the list shows "a" selected | the relocated script stays selected | not executed | ScriptBrowser.RefindScript | ScriptBrowser.RefindScriptReselecting |
