/**
 * The rig panel (UI/RigView.py) as the state it keeps and the rig calls it
 * makes: per-solenoid toggle buttons and row/all set buttons writing into
 * the rig's desired-state map, the device settings form, the blink test,
 * the 8-column solenoid grid and the list of available devices. Widget
 * appearance is not modelled; the grid is the list of placements the panel
 * adds to its layout.
 */
module RigView {
  import opened Common
  import opened RigState
  import Rig

  /** The desired-state map after a solenoid button is clicked: its number is flipped, an unknown one becomes on. */
  function Toggled(states: map<int, bool>, n: int): (r: map<int, bool>)
    ensures n in r && r[n] == !(n in states && states[n])
    ensures forall k :: k != n ==> (k in r <==> k in states) && (k in states ==> r[k] == states[k])
  {
    states[n := !(n in states && states[n])]
  }

  /** Two clicks give back the state the button showed, now recorded in the map. */
  lemma ToggleTwice(states: map<int, bool>, n: int)
    ensures Toggled(Toggled(states, n), n) == states[n := n in states && states[n]]
    ensures n in states ==> Toggled(Toggled(states, n), n) == states
  {
  }

  /** The desired-state map after a set-all button: every listed number takes `state`, nothing else changes. */
  function SetAll(states: map<int, bool>, numbers: seq<int>, state: bool): map<int, bool> {
    if numbers == [] then states
    else SetAll(states, numbers[..|numbers| - 1], state)[numbers[|numbers| - 1] := state]
  }

  /** Every listed number is set to `state`; every other entry, present or absent, is as it was. */
  lemma {:induction false} SetAllEffect(states: map<int, bool>, numbers: seq<int>, state: bool)
    ensures var r := SetAll(states, numbers, state);
      && (forall k :: k in numbers ==> k in r && r[k] == state)
      && (forall k :: k !in numbers ==> (k in r <==> k in states) && (k in states ==> r[k] == states[k]))
  {
    if numbers != [] {
      var init := numbers[..|numbers| - 1];
      SetAllEffect(states, init, state);
      assert numbers == init + [numbers[|numbers| - 1]];
    }
  }

  /** Pressing the buttons of two rows is pressing one button for both rows' numbers. */
  lemma SetAllConcat(states: map<int, bool>, a: seq<int>, b: seq<int>, state: bool)
    ensures SetAll(SetAll(states, a, state), b, state) == SetAll(states, a + b, state)
  {
    var middle := SetAll(states, a, state);
    var left, right := SetAll(middle, b, state), SetAll(states, a + b, state);
    SetAllEffect(states, a, state);
    SetAllEffect(middle, b, state);
    SetAllEffect(states, a + b, state);
    forall k
      ensures (k in left <==> k in right) && (k in left ==> left[k] == right[k])
    {
      if k in b {
        assert k in a + b;
      } else if k in a {
        assert k in a + b;
        assert k in middle;
      } else {
        assert k !in a + b;
      }
    }
    assert left.Keys == right.Keys;
  }

  /** The set-all buttons on a row or under the grid. */
  class SetAllButton {
    const numbers: seq<int>
    const stateToSet: bool

    constructor (numbers: seq<int>, stateToSet: bool)
      ensures this.numbers == numbers && this.stateToSet == stateToSet
    {
      this.numbers := numbers;
      this.stateToSet := stateToSet;
    }

    method Perform(rig: Rig.Rig)
      modifies rig`solenoidStates
      ensures rig.solenoidStates == SetAll(old(rig.solenoidStates), numbers, stateToSet)
    {
      for k := 0 to |numbers|
        invariant rig.solenoidStates == SetAll(old(rig.solenoidStates), numbers[..k], stateToSet)
      {
        assert numbers[..k + 1][..k] == numbers[..k];
        rig.SetSolenoidState(numbers[k], stateToSet);
      }
      assert numbers[..|numbers|] == numbers;
    }
  }

  /** The desired-state map after a button reads its solenoid's state: a number never set is recorded as off. */
  function Shown(states: map<int, bool>, n: int): (r: map<int, bool>)
    ensures n in r && r[n] == (n in states && states[n])
    ensures forall k :: k != n ==> (k in r <==> k in states) && (k in states ==> r[k] == states[k])
  {
    if n in states then states else states[n := false]
  }

  /** The desired-state map after a button is created for each listed number, in order. */
  function ShowAll(states: map<int, bool>, numbers: seq<int>): map<int, bool> {
    if numbers == [] then states
    else Shown(ShowAll(states, numbers[..|numbers| - 1]), numbers[|numbers| - 1])
  }

  /**
   * Showing buttons adds exactly the listed numbers that were missing, as
   * off, and never changes the state any number reads as.
   */
  lemma {:induction false} ShowAllEffect(states: map<int, bool>, numbers: seq<int>)
    ensures var r := ShowAll(states, numbers);
      && (forall k :: k in r <==> k in states || k in numbers)
      && (forall k :: k in r ==> r[k] == (k in states && states[k]))
  {
    if numbers != [] {
      var init := numbers[..|numbers| - 1];
      ShowAllEffect(states, init);
      assert numbers == init + [numbers[|numbers| - 1]];
    }
  }

  /** Once the grid shows a solenoid, the next flush drives its slot to the state its button shows: off when it was never set. */
  lemma ShownSolenoidFlush(d: DeviceState, states: map<int, bool>, numbers: seq<int>, k: nat)
    requires d.WellFormed() && d.Active() && k < 24 && d.startNumber + k in numbers
    ensures SetSolenoids(d, ShowAll(states, numbers)).slots[k] == (d.startNumber + k in states && states[d.startNumber + k])
  {
    ShowAllEffect(states, numbers);
    SetSolenoidsActive(d, ShowAll(states, numbers), k);
  }

  /** A toggle button for one solenoid, showing the state the rig holds for it. */
  class SolenoidButton {
    const number: int
    /** The state the button last showed (None before its first refresh). */
    var displayState: Option<bool>

    constructor (number: int, rig: Rig.Rig)
      modifies rig`solenoidStates
      ensures this.number == number
      ensures displayState == Some(number in old(rig.solenoidStates) && old(rig.solenoidStates)[number])
      ensures rig.solenoidStates == Shown(old(rig.solenoidStates), number)
    {
      this.number := number;
      displayState := None;
      new;
      UpdateDisplay(rig);
    }

    method ToggleState(rig: Rig.Rig)
      modifies rig`solenoidStates, this`displayState
      ensures rig.solenoidStates == Toggled(old(rig.solenoidStates), number)
      ensures displayState == Some(rig.solenoidStates[number])
    {
      var current := rig.GetSolenoidState(number);
      rig.SetSolenoidState(number, !current);
      UpdateDisplay(rig);
    }

    /** The periodic refresh: reads the rig's state for the number (recording it if new) and shows it. */
    method UpdateDisplay(rig: Rig.Rig)
      modifies rig`solenoidStates, this`displayState
      ensures rig.solenoidStates == Shown(old(rig.solenoidStates), number)
      ensures displayState == Some(rig.solenoidStates[number])
    {
      var s := rig.GetSolenoidState(number);
      if Some(s) == displayState {
        return;
      }
      displayState := Some(s);
      // The second read picks the on or off style.
      var on := rig.GetSolenoidState(number);
    }
  }

  function ApplySettings(d: DeviceState, enabled: bool, polarities: seq<bool>, startNumber: int): (r: DeviceState)
    ensures r.enabled == enabled && r.polarities == polarities && r.startNumber == startNumber
    ensures r.IsConnected() <==> enabled
    ensures (d.IsConnected() <==> enabled) ==> r.serialPort == d.serialPort
    ensures enabled && !d.IsConnected() ==> r.serialPort == Some(SerialPort(d.portInfo.device, ResetHandshake))
    ensures r.slots == d.slots && r.portInfo == d.portInfo && r.available == d.available
  {
    var e := d.(enabled := enabled, polarities := polarities, startNumber := startNumber);
    if e.enabled && !e.IsConnected() then Connect(e)
    else if !e.enabled && e.IsConnected() then Disconnect(e)
    else e
  }

  /** A device already in the state the form shows keeps its connection and its write log. */
  lemma ApplySettingsUnchanged(d: DeviceState)
    requires d.enabled <==> d.IsConnected()
    ensures ApplySettings(d, d.enabled, d.polarities, d.startNumber) == d
  {
  }

  /** The map Blink sends on step `i`: every output of the device on for even steps, off for odd ones. */
  function BlinkStates(startNumber: int, i: nat): (m: map<int, bool>)
    ensures forall n :: n in m <==> startNumber <= n < startNumber + 24
    ensures forall n :: n in m ==> m[n] == (i % 2 == 0)
  {
    map n | n in SolenoidNumbers(startNumber) :: i % 2 == 0
  }

  /** The device after the first `k` of Blink's SetSolenoids calls. */
  function BlinkSteps(d: DeviceState, k: nat): (r: DeviceState)
    requires d.WellFormed()
    ensures r.WellFormed()
    ensures r.(slots := d.slots, serialPort := d.serialPort) == d
  {
    if k == 0 then d
    else RigState.SetSolenoids(BlinkSteps(d, k - 1), BlinkStates(d.startNumber, k - 1))
  }

  /** After blinking, an active device has every output on and has written fifteen frames; an idle one is untouched. */
  lemma {:induction false} BlinkResult(d: DeviceState, k: nat)
    requires d.WellFormed() && 0 < k
    ensures d.Active() ==>
      && BlinkSteps(d, k).Active()
      && (forall j :: 0 <= j < 24 ==> BlinkSteps(d, k).slots[j] == ((k - 1) % 2 == 0))
      && |BlinkSteps(d, k).Written()| == |d.Written()| + 3 * k
    ensures !d.Active() ==> BlinkSteps(d, k) == d
  {
    var prev := BlinkSteps(d, k - 1);
    if k > 1 {
      BlinkResult(d, k - 1);
    }
    assert prev.startNumber == d.startNumber && prev.enabled == d.enabled;
    if d.Active() {
      assert prev.Active();
      BlinkStep(prev, k - 1);
    } else {
      assert prev == d;
      SetSolenoidsInactive(d, BlinkStates(d.startNumber, k - 1));
    }
  }

  /** One blink step on an active device sets every output to the step's state and writes three frames. */
  lemma BlinkStep(p: DeviceState, i: nat)
    requires p.WellFormed() && p.Active()
    ensures var e := SetSolenoids(p, BlinkStates(p.startNumber, i));
      && e.Active()
      && (forall j :: 0 <= j < 24 ==> e.slots[j] == (i % 2 == 0))
      && |e.Written()| == |p.Written()| + 3
  {
    var m := BlinkStates(p.startNumber, i);
    var merged := MergeSlots(p.slots, p.startNumber, m);
    forall j | 0 <= j < 24
      ensures merged[j] == (i % 2 == 0)
    {
      assert p.startNumber + j in m;
    }
  }

  /** What one solenoid-panel layout cell holds. */
  datatype Control =
    | SolenoidControl(number: int)
    | Spacer
    | SetAllControl(text: string, numbers: seq<int>, stateToSet: bool, scale: bool)

  datatype Placement = Placement(control: Control, row: int, column: int, rowSpan: int, columnSpan: int)

  /** `math.ceil(n / 8)` for a count. */
  function RowCount(n: nat): (rows: nat)
    ensures 8 * rows >= n && 8 * (rows - 1) < n
  {
    (n + 7) / 8
  }

  function Min(a: int, b: int): int {
    if a <= b then a else b
  }

  /** `numbers[8r : 8r + 8]`, clamped at the end as Python slices are. */
  function RowNumbers(numbers: seq<int>, r: nat): (row: seq<int>)
    ensures |row| <= 8
  {
    numbers[Min(8 * r, |numbers|)..Min(8 * r + 8, |numbers|)]
  }

  /** One button per number, eight per row. */
  function SolenoidCells(numbers: seq<int>): (cells: seq<Placement>)
    ensures |cells| == |numbers|
  {
    seq(|numbers|, i requires 0 <= i < |numbers| => Placement(SolenoidControl(numbers[i]), i / 8, i % 8, 1, 1))
  }

  /** The three controls at the end of row `r`: a divider, then ON and OFF for that row's numbers. */
  function RowControlsAt(numbers: seq<int>, r: nat): seq<Placement> {
    [Placement(Spacer, r, 8, 1, 1),
     Placement(SetAllControl("ON", RowNumbers(numbers, r), true, true), r, 9, 1, 1),
     Placement(SetAllControl("OFF", RowNumbers(numbers, r), false, true), r, 10, 1, 1)]
  }

  function RowControls(numbers: seq<int>, rows: nat): (controls: seq<Placement>)
    ensures |controls| == 3 * rows
  {
    if rows == 0 then [] else RowControls(numbers, rows - 1) + RowControlsAt(numbers, rows - 1)
  }

  /** ALL ON and ALL OFF, one row below the row after the grid, present only when there are numbers. */
  function AllControls(numbers: seq<int>): seq<Placement> {
    if |numbers| == 0 then []
    else
      var below := RowCount(|numbers|) + 1;
      [Placement(SetAllControl("ALL ON", numbers, true, false), below, 0, 1, 5),
       Placement(SetAllControl("ALL OFF", numbers, false, false), below, 5, 1, 6)]
  }

  /** Everything UpdateSolenoids places, in the order it adds it. */
  function SolenoidGrid(numbers: seq<int>): seq<Placement> {
    SolenoidCells(numbers) + RowControls(numbers, RowCount(|numbers|)) + AllControls(numbers)
  }

  /** No two solenoid buttons share a cell, and each lies in the first eight columns of a grid row. */
  lemma SolenoidCellsDistinct(numbers: seq<int>, i: nat, j: nat)
    requires i < j < |numbers|
    ensures var cells := SolenoidCells(numbers);
      (cells[i].row, cells[i].column) != (cells[j].row, cells[j].column)
    ensures 0 <= SolenoidCells(numbers)[i].column < 8 && SolenoidCells(numbers)[i].row < RowCount(|numbers|)
  {
    assert i == 8 * (i / 8) + i % 8;
    assert j == 8 * (j / 8) + j % 8;
  }

  /** The set-all buttons of row `r` cover exactly the numbers shown in that row. */
  lemma RowButtonsCoverRow(numbers: seq<int>, i: nat)
    requires i < |numbers|
    ensures numbers[i] in RowNumbers(numbers, i / 8)
    ensures var row := RowNumbers(numbers, i / 8);
      forall k :: 0 <= k < |row| ==> row[k] == numbers[8 * (i / 8) + k]
  {
    assert i == 8 * (i / 8) + i % 8;
    var row := RowNumbers(numbers, i / 8);
    assert row[i % 8] == numbers[i];
  }

  /** The numbers of rows 0 .. k-1, in order. */
  function RowsUpTo(numbers: seq<int>, k: nat): seq<int> {
    if k == 0 then [] else RowsUpTo(numbers, k - 1) + RowNumbers(numbers, k - 1)
  }

  /** Together the rows' set-all buttons cover every number once, in order. */
  lemma {:induction false} RowsPartitionNumbers(numbers: seq<int>, k: nat)
    ensures RowsUpTo(numbers, k) == numbers[..Min(8 * k, |numbers|)]
  {
    if k > 0 {
      RowsPartitionNumbers(numbers, k - 1);
      var lo, hi := Min(8 * (k - 1), |numbers|), Min(8 * k, |numbers|);
      assert numbers[..lo] + numbers[lo..hi] == numbers[..hi];
    }
  }

  lemma RowsCoverAll(numbers: seq<int>)
    ensures RowsUpTo(numbers, RowCount(|numbers|)) == numbers
  {
    RowsPartitionNumbers(numbers, RowCount(|numbers|));
    assert numbers[..|numbers|] == numbers;
  }

  /** The desired-state map after pressing the set button of rows 0 .. k-1, in order. */
  function PressRows(states: map<int, bool>, numbers: seq<int>, k: nat, state: bool): map<int, bool> {
    if k == 0 then states else SetAll(PressRows(states, numbers, k - 1, state), RowNumbers(numbers, k - 1), state)
  }

  /** Pressing ON (or OFF) on every row has the effect of ALL ON (or ALL OFF). */
  lemma {:induction false} PressRowsIsSetAll(states: map<int, bool>, numbers: seq<int>, k: nat, state: bool)
    ensures PressRows(states, numbers, k, state) == SetAll(states, RowsUpTo(numbers, k), state)
  {
    if k > 0 {
      PressRowsIsSetAll(states, numbers, k - 1, state);
      SetAllConcat(states, RowsUpTo(numbers, k - 1), RowNumbers(numbers, k - 1), state);
    }
  }

  lemma EveryRowIsAll(states: map<int, bool>, numbers: seq<int>, state: bool)
    ensures PressRows(states, numbers, RowCount(|numbers|), state) == SetAll(states, numbers, state)
  {
    PressRowsIsSetAll(states, numbers, RowCount(|numbers|), state);
    RowsCoverAll(numbers);
  }

  /** `[d for d in devices if d.available]` */
  function AvailableDevices(devices: seq<Rig.Device>): (r: seq<Rig.Device>)
    reads devices
    ensures |r| <= |devices|
  {
    if devices == [] then []
    else
      var rest := AvailableDevices(devices[..|devices| - 1]);
      var last := devices[|devices| - 1];
      assert devices == devices[..|devices| - 1] + [last];
      if last.available then rest + [last] else rest
  }

  /** A device is listed exactly when it is in the rig's list and available. */
  lemma {:induction false} AvailableMembers(devices: seq<Rig.Device>)
    ensures forall d :: d in AvailableDevices(devices) <==> d in devices && d.available
  {
    if devices != [] {
      var init := devices[..|devices| - 1];
      AvailableMembers(init);
      assert devices == init + [devices[|devices| - 1]];
    }
  }

  /**
   * Filtering distributes over concatenation; with AvailableSingle this
   * pins the list down as the available devices, once per occurrence, in
   * the rig's order.
   */
  lemma {:induction false} AvailableConcat(xs: seq<Rig.Device>, ys: seq<Rig.Device>)
    ensures AvailableDevices(xs + ys) == AvailableDevices(xs) + AvailableDevices(ys)
  {
    if ys == [] {
      assert xs + ys == xs;
    } else {
      var init, last := ys[..|ys| - 1], ys[|ys| - 1];
      AvailableConcat(xs, init);
      var all := xs + ys;
      assert all[..|all| - 1] == xs + init && all[|all| - 1] == last;
    }
  }

  /** A single device is kept exactly when it is available. */
  lemma AvailableSingle(d: Rig.Device)
    ensures AvailableDevices([d]) == if d.available then [d] else []
  {
    assert [d][..0] == [];
  }

  /** The available devices of a list depend only on the listed devices' own fields. */
  twostate lemma {:induction false} AvailableUnchanged(devices: seq<Rig.Device>)
    requires forall d :: d in devices ==> unchanged(d)
    ensures AvailableDevices(devices) == old(AvailableDevices(devices))
  {
    if devices != [] {
      var init := devices[..|devices| - 1];
      var last := devices[|devices| - 1];
      assert forall d :: d in init ==> d in devices;
      AvailableUnchanged(init);
      assert last in devices && last.available == old(last.available);
    }
  }

  /** The list entry for a device: its port name and device path. */
  function DeviceLabel(p: PortInfo): string {
    p.name + " (" + p.device + ")"
  }

  function DeviceLabels(devices: seq<Rig.Device>): (labels: seq<string>)
    reads devices
    ensures |labels| == |devices|
  {
    seq(|devices|, i requires 0 <= i < |devices| reads devices => DeviceLabel(devices[i].portInfo))
  }

  lemma AvailableStep(devices: seq<Rig.Device>, k: nat)
    requires k < |devices|
    ensures AvailableDevices(devices[..k + 1]) ==
      if devices[k].available then AvailableDevices(devices[..k]) + [devices[k]] else AvailableDevices(devices[..k])
  {
    assert devices[..k + 1][..k] == devices[..k];
  }

  lemma LabelsAppend(devices: seq<Rig.Device>, d: Rig.Device)
    ensures DeviceLabels(devices + [d]) == DeviceLabels(devices) + [DeviceLabel(d.portInfo)]
  {
  }

  lemma SelectedRowAppend(devices: seq<Rig.Device>, d: Rig.Device, selected: Option<Rig.Device>)
    ensures SelectedRow(devices + [d], selected) == if selected == Some(d) then |devices| else SelectedRow(devices, selected)
  {
    assert (devices + [d])[..|devices|] == devices;
  }

  /** The row the device list shows as current: the last entry that is the selected device, or -1. */
  function SelectedRow(devices: seq<Rig.Device>, selected: Option<Rig.Device>): (r: int)
    ensures -1 <= r < |devices|
    ensures 0 <= r ==> selected == Some(devices[r])
    ensures r == -1 <==> selected.None? || selected.value !in devices
  {
    if devices == [] then -1
    else if selected == Some(devices[|devices| - 1]) then |devices| - 1
    else SelectedRow(devices[..|devices| - 1], selected)
  }

  /** The form's settings written to one device, which is then connected exactly when it is enabled. */
  method ApplyToDevice(d: Rig.Device, enabled: bool, polarities: seq<bool>, startNumber: int)
    requires d.Valid() && |polarities| == 3
    modifies d
    ensures d.Valid()
    ensures d.View() == ApplySettings(old(d.View()), enabled, polarities, startNumber)
  {
    d.enabled := enabled;
    d.polarities := polarities;
    d.startNumber := startNumber;
    if d.enabled && !d.IsConnected() {
      d.Connect();
    } else if !d.enabled && d.IsConnected() {
      d.Disconnect();
    }
  }

  /** Five whole-device SetSolenoids calls, alternately all on and all off. */
  method BlinkDevice(d: Rig.Device)
    requires d.Valid()
    modifies d, d.solenoidStates
    ensures d.Valid()
    ensures d.View() == BlinkSteps(old(d.View()), 5)
  {
    for i := 0 to 5
      invariant d.Valid()
      invariant d.View() == BlinkSteps(old(d.View()), i)
    {
      d.SetSolenoids(BlinkStates(d.startNumber, i));
    }
  }

  /** The first loop of UpdateSolenoids: a new button per number, eight to a row. */
  method PlaceButtons(rig: Rig.Rig, numbers: seq<int>) returns (placed: seq<Placement>)
    modifies rig`solenoidStates
    ensures placed == SolenoidCells(numbers)
    ensures rig.solenoidStates == ShowAll(old(rig.solenoidStates), numbers)
  {
    placed := [];
    for i := 0 to |numbers|
      invariant placed == SolenoidCells(numbers)[..i]
      invariant rig.solenoidStates == ShowAll(old(rig.solenoidStates), numbers[..i])
    {
      assert numbers[..i + 1][..i] == numbers[..i];
      var button := new SolenoidButton(numbers[i], rig);
      placed := placed + [Placement(SolenoidControl(numbers[i]), i / 8, i % 8, 1, 1)];
    }
    assert numbers[..|numbers|] == numbers;
    assert SolenoidCells(numbers)[..|numbers|] == SolenoidCells(numbers);
  }

  /** The placements UpdateSolenoids adds, in order: the buttons, each row's controls, then the ALL row. */
  method BuildGrid(rig: Rig.Rig, numbers: seq<int>) returns (placed: seq<Placement>)
    modifies rig`solenoidStates
    ensures placed == SolenoidGrid(numbers)
    ensures rig.solenoidStates == ShowAll(old(rig.solenoidStates), numbers)
  {
    var buttons := PlaceButtons(rig, numbers);
    var rows := PlaceRowControls(numbers);
    placed := buttons + rows;
    if |numbers| > 0 {
      var nRows := (|numbers| + 7) / 8;
      assert nRows == RowCount(|numbers|);
      placed := placed + [Placement(SetAllControl("ALL ON", numbers, true, false), nRows + 1, 0, 1, 5)];
      placed := placed + [Placement(SetAllControl("ALL OFF", numbers, false, false), nRows + 1, 5, 1, 6)];
    }
  }

  /** The second loop of UpdateSolenoids: a spacer and the ON and OFF buttons for each row of eight. */
  method PlaceRowControls(numbers: seq<int>) returns (placed: seq<Placement>)
    ensures placed == RowControls(numbers, RowCount(|numbers|))
  {
    placed := [];
    var nRows := (|numbers| + 7) / 8;
    for r := 0 to nRows
      invariant placed == RowControls(numbers, r)
    {
      var numbersInRow := numbers[Min(8 * r, |numbers|)..Min(8 * r + 8, |numbers|)];
      placed := placed + [Placement(Spacer, r, 8, 1, 1)];
      placed := placed + [Placement(SetAllControl("ON", numbersInRow, true, true), r, 9, 1, 1)];
      placed := placed + [Placement(SetAllControl("OFF", numbersInRow, false, true), r, 10, 1, 1)];
      assert numbersInRow == RowNumbers(numbers, r);
      assert RowControls(numbers, r + 1) == RowControls(numbers, r) + RowControlsAt(numbers, r);
    }
    assert nRows == RowCount(|numbers|);
  }

  /** The list entries for the available devices, in rig order, and the row of the selected one (-1 if none). */
  method ListEntries(devices: seq<Rig.Device>, selected: Option<Rig.Device>) returns (items: seq<string>, row: int)
    ensures items == DeviceLabels(AvailableDevices(devices))
    ensures row == SelectedRow(AvailableDevices(devices), selected)
  {
    items := [];
    row := -1;
    for k := 0 to |devices|
      invariant items == DeviceLabels(AvailableDevices(devices[..k]))
      invariant row == SelectedRow(AvailableDevices(devices[..k]), selected)
    {
      var d := devices[k];
      AvailableStep(devices, k);
      if d.available {
        LabelsAppend(AvailableDevices(devices[..k]), d);
        SelectedRowAppend(AvailableDevices(devices[..k]), d, selected);
        items := items + [DeviceLabel(d.portInfo)];
        if selected == Some(d) {
          row := |items| - 1;
        }
      }
    }
    assert devices[..|devices|] == devices;
  }

  /** The rig panel: the device list, the selected device's settings and the solenoid grid. */
  class RigView {
    var selectedDevice: Option<Rig.Device>
    /** The available devices the list was last built from, and the text of each list entry. */
    var lastDevicesList: seq<Rig.Device>
    var deviceItems: seq<string>
    var currentDeviceRow: int
    /** The solenoid numbers the grid was last built from, and what it holds. */
    var lastNumbers: seq<int>
    var solenoidsLayout: seq<Placement>
    var noneConnectedVisible: bool

    /** A panel with nothing selected, refreshed once from the rig. */
    constructor (rig: Rig.Rig)
      modifies rig`solenoidStates
      ensures selectedDevice == None
      ensures lastDevicesList == AvailableDevices(rig.allDevices)
      ensures StrictlyIncreasing(lastNumbers) && forall n :: n in lastNumbers <==> n in ConnectedSet(rig.Views())
      ensures rig.solenoidStates == ShowAll(old(rig.solenoidStates), lastNumbers)
    {
      selectedDevice := None;
      lastDevicesList := [];
      deviceItems := [];
      currentDeviceRow := -1;
      lastNumbers := [];
      solenoidsLayout := [];
      noneConnectedVisible := true;
      new;
      Update(rig);
    }

    /**
     * The periodic refresh: device list first, then the solenoid grid. A
     * rebuilt list that had a current row moves the selection to the last
     * available device (see UpdateDeviceList); a rebuilt grid records every
     * new number as off.
     */
    method Update(rig: Rig.Rig)
      modifies this`lastDevicesList, this`deviceItems, this`currentDeviceRow, this`selectedDevice
      modifies this`lastNumbers, this`solenoidsLayout, this`noneConnectedVisible, rig`solenoidStates
      ensures lastDevicesList == AvailableDevices(rig.allDevices)
      ensures selectedDevice ==
        if lastDevicesList != old(lastDevicesList) && old(currentDeviceRow) != -1 && lastDevicesList != []
        then Some(lastDevicesList[|lastDevicesList| - 1])
        else old(selectedDevice)
      ensures lastDevicesList == old(lastDevicesList) ==>
        deviceItems == old(deviceItems) && currentDeviceRow == old(currentDeviceRow)
      ensures lastDevicesList != old(lastDevicesList) ==>
        deviceItems == DeviceLabels(lastDevicesList) && currentDeviceRow == SelectedRow(lastDevicesList, selectedDevice)
      ensures StrictlyIncreasing(lastNumbers) && forall n :: n in lastNumbers <==> n in ConnectedSet(rig.Views())
      ensures lastNumbers == old(lastNumbers) ==>
        solenoidsLayout == old(solenoidsLayout) && noneConnectedVisible == old(noneConnectedVisible)
      ensures lastNumbers != old(lastNumbers) ==>
        solenoidsLayout == SolenoidGrid(lastNumbers) && noneConnectedVisible == (|lastNumbers| == 0)
      ensures rig.solenoidStates ==
        if lastNumbers != old(lastNumbers) then ShowAll(old(rig.solenoidStates), lastNumbers) else old(rig.solenoidStates)
    {
      UpdateDeviceList(rig);
      UpdateSolenoids(rig);
    }

    method PushUIToDevice(rig: Rig.Rig, enabled: bool, invertA: bool, invertB: bool, invertC: bool, startNumber: int)
      requires rig.Valid() && selectedDevice.Some? && selectedDevice.value in rig.allDevices
      modifies rig.allDevices, rig.Buffers()
      ensures rig.Valid()
      ensures var k := IndexOf(old(rig.allDevices), selectedDevice.value);
        var settled := ApplySettings(old(rig.Views())[k], enabled, [invertA, invertB, invertC], startNumber);
        rig.Views() == Flush(old(rig.Views())[k := settled], rig.solenoidStates)
    {
      var d := selectedDevice.value;
      ghost var k := IndexOf(rig.allDevices, d);
      label before:
      ApplyToDevice(d, enabled, [invertA, invertB, invertC], startNumber);
      forall i | 0 <= i < |rig.allDevices| && i != k
        ensures rig.allDevices[i].View() == old@before(rig.allDevices[i].View())
      {
        assert rig.allDevices[i] != d;
      }
      assert rig.Views() == old@before(rig.Views())[k := d.View()];
      rig.FlushStates();
    }

    method Blink(rig: Rig.Rig)
      requires rig.Valid() && selectedDevice.Some? && selectedDevice.value in rig.allDevices
      modifies rig.allDevices, rig.Buffers()
      ensures rig.Valid()
      ensures var k := IndexOf(old(rig.allDevices), selectedDevice.value);
        rig.Views() == Flush(old(rig.Views())[k := BlinkSteps(old(rig.Views())[k], 5)], rig.solenoidStates)
    {
      var d := selectedDevice.value;
      ghost var k := IndexOf(rig.allDevices, d);
      label before:
      BlinkDevice(d);
      forall i | 0 <= i < |rig.allDevices| && i != k
        ensures rig.allDevices[i].View() == old@before(rig.allDevices[i].View())
      {
        assert rig.allDevices[i] != d && rig.allDevices[i].solenoidStates != d.solenoidStates;
      }
      assert rig.Views() == old@before(rig.Views())[k := d.View()];
      rig.FlushStates();
    }

    /**
     * Rebuilds the device list from the rig's available devices, unless they
     * are the ones already listed. The list is replaced before the widget is
     * cleared, and clearing a list with a current row reports row -1 to
     * NewDeviceSelected, which Python reads as the last of the new devices.
     */
    method UpdateDeviceList(rig: Rig.Rig)
      modifies this`lastDevicesList, this`deviceItems, this`currentDeviceRow, this`selectedDevice
      ensures lastDevicesList == AvailableDevices(rig.allDevices)
      ensures lastDevicesList == old(lastDevicesList) ==>
        && deviceItems == old(deviceItems) && currentDeviceRow == old(currentDeviceRow)
        && selectedDevice == old(selectedDevice)
      ensures lastDevicesList != old(lastDevicesList) ==>
        && selectedDevice == (if old(currentDeviceRow) != -1 && lastDevicesList != []
                              then Some(lastDevicesList[|lastDevicesList| - 1]) else old(selectedDevice))
        && deviceItems == DeviceLabels(lastDevicesList) && currentDeviceRow == SelectedRow(lastDevicesList, selectedDevice)
    {
      label listing:
      var all := rig.allDevices;
      var devices := AvailableDevices(all);
      if devices == lastDevicesList {
        return;
      }
      lastDevicesList := devices;
      if currentDeviceRow != -1 {
        var indexError := NewDeviceSelected(-1);
      }
      ghost var selected := selectedDevice;
      assert selected == if old(currentDeviceRow) != -1 && devices != [] then Some(devices[|devices| - 1]) else old(selectedDevice);
      var items, row := ListEntries(all, selectedDevice);
      AvailableUnchanged@listing(all);
      assert items == DeviceLabels(devices) && row == SelectedRow(devices, selected);
      deviceItems, currentDeviceRow := items, row;
    }

    /** Selects the device at a list row; a row Python cannot index with leaves the selection as it was. */
    method NewDeviceSelected(row: int) returns (indexError: bool)
      modifies this`selectedDevice, this`currentDeviceRow
      ensures currentDeviceRow == row
      ensures indexError <==> PyIndex(lastDevicesList, row).None?
      ensures indexError ==> selectedDevice == old(selectedDevice)
      ensures !indexError ==> selectedDevice == PyIndex(lastDevicesList, row)
      ensures row == -1 && lastDevicesList != [] ==> selectedDevice == Some(lastDevicesList[|lastDevicesList| - 1])
    {
      // The widget has already moved its current row when the signal arrives.
      currentDeviceRow := row;
      var picked := PyIndex(lastDevicesList, row);
      indexError := picked.None?;
      if !indexError {
        selectedDevice := picked;
      }
    }

    /** Rebuilds the solenoid grid from the rig's connected numbers, unless they are the ones already shown. */
    method UpdateSolenoids(rig: Rig.Rig)
      modifies this`lastNumbers, this`solenoidsLayout, this`noneConnectedVisible, rig`solenoidStates
      ensures StrictlyIncreasing(lastNumbers) && forall n :: n in lastNumbers <==> n in ConnectedSet(rig.Views())
      ensures lastNumbers == old(lastNumbers) ==>
        && solenoidsLayout == old(solenoidsLayout) && noneConnectedVisible == old(noneConnectedVisible)
        && rig.solenoidStates == old(rig.solenoidStates)
      ensures lastNumbers != old(lastNumbers) ==>
        && solenoidsLayout == SolenoidGrid(lastNumbers) && noneConnectedVisible == (|lastNumbers| == 0)
        && rig.solenoidStates == ShowAll(old(rig.solenoidStates), lastNumbers)
    {
      var numbers := rig.GetConnectedSolenoidNumbers();
      ghost var views := rig.Views();
      if numbers == lastNumbers {
        return;
      }
      lastNumbers := numbers;
      var placed := BuildGrid(rig, numbers);
      solenoidsLayout := placed;
      noneConnectedVisible := |numbers| == 0;
      assert rig.Views() == views;
    }
  }
}
