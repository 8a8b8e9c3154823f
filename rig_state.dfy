/**
 * The state of the solenoid rig of Data/Rig.py as values: what one device
 * record holds, and what each rig and device operation does to it. The
 * classes in module Rig are proved to change their fields exactly as these
 * functions say; the lemmas here state what the operations promise.
 */
module RigState {
  import opened Common
  import opened SolenoidCodec

  /** The fields of an OS serial-port listing entry the rig uses. */
  datatype PortInfo = PortInfo(hwid: string, device: string, name: string)

  /** An open serial connection: the OS device path it was opened on, and every frame written to it so far. */
  datatype SerialPort = SerialPort(device: string, written: seq<Frame>)

  /** Everything a Device record holds. `serialPort` is present exactly while the connection is open. */
  datatype DeviceState = DeviceState(
    portInfo: PortInfo,
    startNumber: int,
    polarities: seq<bool>,
    enabled: bool,
    available: bool,
    serialPort: Option<SerialPort>,
    slots: seq<bool>)
  {
    predicate WellFormed() {
      |polarities| == 3 && |slots| == 24
    }

    predicate IsConnected() {
      serialPort.Some?
    }

    /** Enabled and connected: the devices whose solenoids the rig drives and reports. */
    predicate Active() {
      enabled && IsConnected()
    }

    /** The frames sent over the current connection (none when there is none). */
    function Written(): seq<Frame> {
      if serialPort.Some? then serialPort.value.written else []
    }
  }

  predicate AllWellFormed(devices: seq<DeviceState>) {
    forall i :: 0 <= i < |devices| ==> devices[i].WellFormed()
  }

  /** The reset handshake Connect sends: "!A", "!B", "!C", each followed by a zero byte. */
  const ResetHandshake: seq<Frame> := [[33, 65, 0], [33, 66, 0], [33, 67, 0]]

  /** A device record fresh from `Device()` bound to port p: start 0, no inversion, disabled, unavailable, closed, all slots off. */
  function NewDevice(p: PortInfo): (d: DeviceState)
  {
    DeviceState(p, 0, [false, false, false], false, false, None, seq(24, _ => false))
  }

  /** Device.Connect: a no-op when connected; otherwise open the port and send the reset handshake. */
  function Connect(d: DeviceState): DeviceState {
    if d.IsConnected() then d
    else d.(serialPort := Some(SerialPort(d.portInfo.device, ResetHandshake)))
  }

  /** Device.Disconnect: close the port if open; in every case drop it. */
  function Disconnect(d: DeviceState): DeviceState {
    d.(serialPort := None)
  }

  /** Slot k takes desired[start + k] when that index is in the map, and keeps its value otherwise. */
  function MergeSlots(slots: seq<bool>, start: int, desired: map<int, bool>): seq<bool> {
    seq(|slots|, k requires 0 <= k < |slots| => if start + k in desired then desired[start + k] else slots[k])
  }

  /** Device.SetSolenoids: nothing unless enabled and connected; else merge the desired states and write three frames. */
  function SetSolenoids(d: DeviceState, desired: map<int, bool>): DeviceState
    requires d.WellFormed()
  {
    if !d.enabled || !d.IsConnected() then d
    else
      var slots := MergeSlots(d.slots, d.startNumber, desired);
      var port := d.serialPort.value;
      d.(slots := slots,
         serialPort := Some(port.(written := port.written + StateFrames(slots, d.polarities))))
  }

  /** Device.__getstate__: what is saved with a project; no connection, not available. */
  function Pickled(d: DeviceState): DeviceState {
    d.(serialPort := None, available := false)
  }

  // ---------------------------------------------------------------- device lemmas

  lemma ConnectIdempotent(d: DeviceState)
    ensures Connect(Connect(d)) == Connect(d)
    ensures Connect(d).IsConnected()
    ensures !d.IsConnected() ==> Connect(d).Written() == ResetHandshake
    ensures Connect(d).(serialPort := d.serialPort) == d
  {
  }

  lemma DisconnectSafe(d: DeviceState)
    ensures !Disconnect(d).IsConnected()
    ensures Disconnect(Disconnect(d)) == Disconnect(d)
    ensures Disconnect(d).(serialPort := d.serialPort) == d
  {
  }

  /** A disabled or closed device is left exactly as it was: no frames, no slot changes. */
  lemma SetSolenoidsInactive(d: DeviceState, desired: map<int, bool>)
    requires d.WellFormed() && !d.Active()
    ensures SetSolenoids(d, desired) == d
  {
  }

  /** An active device takes the desired value of each of its own indices, keeps the rest, and sends exactly the three state frames. */
  lemma SetSolenoidsActive(d: DeviceState, desired: map<int, bool>, k: nat)
    requires d.WellFormed() && d.Active() && k < 24
    ensures var e := SetSolenoids(d, desired);
      && e.WellFormed()
      && e.slots[k] == (if d.startNumber + k in desired then desired[d.startNumber + k] else d.slots[k])
      && e.Written() == d.Written() + StateFrames(e.slots, d.polarities)
      && e.(slots := d.slots, serialPort := d.serialPort) == d
  {
  }

  /** What an active device writes decodes, under its own polarities, to its new slots. */
  lemma SetSolenoidsWireRoundTrip(d: DeviceState, desired: map<int, bool>)
    requires d.WellFormed() && d.Active()
    ensures var e := SetSolenoids(d, desired);
      var w := e.Written();
      && |w| == |d.Written()| + 3
      && DecodeFrames(w[|d.Written()|..], d.polarities) == e.slots
  {
    var e := SetSolenoids(d, desired);
    EncodeDecode(e.slots, d.polarities);
    assert e.Written()[|d.Written()|..] == StateFrames(e.slots, d.polarities);
  }

  /** Flushing the same map twice leaves the same slots: each flush only resends them. */
  lemma SetSolenoidsSlotsIdempotent(d: DeviceState, desired: map<int, bool>)
    requires d.WellFormed()
    ensures SetSolenoids(SetSolenoids(d, desired), desired).slots == SetSolenoids(d, desired).slots
  {
  }

  /** A saved device comes back closed and unavailable, with its configuration and slots kept. */
  lemma PickledIsIdle(d: DeviceState, desired: map<int, bool>)
    requires d.WellFormed()
    ensures !Pickled(d).Active() && !Pickled(d).available
    ensures SetSolenoids(Pickled(d), desired) == Pickled(d)
    ensures Pickled(d).(serialPort := d.serialPort, available := d.available) == d
  {
  }

  // ---------------------------------------------------------------- rig-wide operations

  /** Rig.FlushStates: every device, in list order, gets SetSolenoids with the whole desired map. */
  function Flush(devices: seq<DeviceState>, desired: map<int, bool>): (r: seq<DeviceState>)
    requires AllWellFormed(devices)
  {
    seq(|devices|, i requires 0 <= i < |devices| => SetSolenoids(devices[i], desired))
  }

  /** Rig.Disconnect: every device disconnected. */
  function DisconnectAll(devices: seq<DeviceState>): seq<DeviceState> {
    seq(|devices|, i requires 0 <= i < |devices| => Disconnect(devices[i]))
  }

  /**
   * Two active devices, X starting at 0 with every slot off and no inversion,
   * and Y starting at 24. Setting solenoid 5 on and flushing makes X send 'A'
   * with bit 5 set (0x20), then 'B' 0 and 'C' 0; Y's slots stay as they were.
   */
  lemma FlushScenario(x: DeviceState, y: DeviceState)
    requires x.WellFormed() && x.Active() && x.startNumber == 0
    requires x.polarities == [false, false, false] && forall k :: 0 <= k < 24 ==> !x.slots[k]
    requires y.WellFormed() && y.Active() && y.startNumber == 24
    ensures var r := Flush([x, y], map[5 := true]);
      && |r| == 2
      && r[0].Written() == x.Written() + [[TagA, 0x20], [TagB, 0], [TagC, 0]]
      && r[1].slots == y.slots
  {
    var m := map[5 := true];
    var slots := MergeSlots(x.slots, 0, m);
    assert forall k :: 0 <= k < 24 ==> slots[k] == (k == 5);
    OnlyBit5Frames(slots, x.polarities);
    assert MergeSlots(y.slots, 24, m) == y.slots;
    var r := Flush([x, y], m);
    assert r[0] == SetSolenoids(x, m) && r[1] == SetSolenoids(y, m);
  }

  lemma PackOnlyBit5()
    ensures Pack([false, false, false, false, false, true, false, false]) == 0x20
  {
  }

  lemma OnlyBit5Frames(slots: seq<bool>, polarities: seq<bool>)
    requires |slots| == 24 && polarities == [false, false, false]
    requires forall k :: 0 <= k < 24 ==> slots[k] == (k == 5)
    ensures StateFrames(slots, polarities) == [[TagA, 0x20], [TagB, 0], [TagC, 0]]
  {
    var wire := Polarize(slots, polarities);
    assert forall k :: 0 <= k < 24 ==> wire[k] == (k == 5);
    assert wire[0..8] == [false, false, false, false, false, true, false, false];
    PackOnlyBit5();
    PackAllOff(wire[8..16]);
    PackAllOff(wire[16..24]);
  }

  // ---------------------------------------------------------------- connected solenoid numbers

  /** Python's `range(start, start + 24)`: the indices a device starting at `start` owns, ascending. */
  function SolenoidNumbers(start: int): (r: seq<int>)
    ensures |r| == 24
    ensures forall n :: n in r <==> start <= n < start + 24
  {
    var r := seq(24, k requires 0 <= k < 24 => start + k);
    assert forall n :: start <= n < start + 24 ==> n in r by {
      forall n | start <= n < start + 24
        ensures n in r
      {
        assert r[n - start] == n;
      }
    }
    r
  }

  function SolenoidRange(start: int): set<int> {
    set n | n in SolenoidNumbers(start)
  }

  /** The union of the ranges of the active devices. */
  function ConnectedSet(devices: seq<DeviceState>): set<int> {
    if devices == [] then {}
    else
      var last := devices[|devices| - 1];
      ConnectedSet(devices[..|devices| - 1]) + (if last.Active() then SolenoidRange(last.startNumber) else {})
  }

  lemma {:induction false} ConnectedSetMembers(devices: seq<DeviceState>, n: int)
    ensures n in ConnectedSet(devices) <==>
      exists i :: 0 <= i < |devices| && devices[i].Active() && devices[i].startNumber <= n < devices[i].startNumber + 24
  {
    if devices != [] {
      var prefix := devices[..|devices| - 1];
      ConnectedSetMembers(prefix, n);
      if exists i :: 0 <= i < |prefix| && prefix[i].Active() && prefix[i].startNumber <= n < prefix[i].startNumber + 24 {
        var i :| 0 <= i < |prefix| && prefix[i].Active() && prefix[i].startNumber <= n < prefix[i].startNumber + 24;
        assert devices[i] == prefix[i];
      }
    }
  }

  /** Saved devices report no solenoids until a rescan reconnects them. */
  lemma {:induction false} PickledConnectedSetEmpty(devices: seq<DeviceState>)
    ensures ConnectedSet(seq(|devices|, i requires 0 <= i < |devices| => Pickled(devices[i]))) == {}
  {
    if devices != [] {
      var prefix := devices[..|devices| - 1];
      PickledConnectedSetEmpty(prefix);
      var p := seq(|devices|, i requires 0 <= i < |devices| => Pickled(devices[i]));
      assert p[..|p| - 1] == seq(|prefix|, i requires 0 <= i < |prefix| => Pickled(prefix[i]));
    }
  }

  /** Flushing changes no device's connection, enable flag or start number, so the connected set stays put. */
  lemma {:induction false} FlushKeepsConnectedSet(devices: seq<DeviceState>, desired: map<int, bool>)
    requires AllWellFormed(devices)
    ensures ConnectedSet(Flush(devices, desired)) == ConnectedSet(devices)
  {
    if devices != [] {
      var prefix := devices[..|devices| - 1];
      FlushKeepsConnectedSet(prefix, desired);
      assert Flush(devices, desired)[..|devices| - 1] == Flush(prefix, desired);
    }
  }

  predicate StrictlyIncreasing(s: seq<int>) {
    forall i, j :: 0 <= i < j < |s| ==> s[i] < s[j]
  }

  predicate NoDuplicates<T(==)>(s: seq<T>) {
    forall i, j :: 0 <= i < j < |s| ==> s[i] != s[j]
  }

  /** Inserting a new element into an ascending sequence keeps it ascending. */
  function InsertAscending(x: int, s: seq<int>): (r: seq<int>)
    requires StrictlyIncreasing(s) && x !in s
    ensures StrictlyIncreasing(r) && |r| == |s| + 1
    ensures forall y :: y in r <==> y == x || y in s
  {
    if s == [] || x < s[0] then [x] + s
    else
      var rest := InsertAscending(x, s[1..]);
      assert forall j :: 0 <= j < |rest| ==> rest[j] == x || rest[j] in s[1..];
      [s[0]] + rest
  }

  /** Python's `sorted` on a list without duplicates: the same elements in ascending order. */
  function SortDistinct(xs: seq<int>): (r: seq<int>)
    requires NoDuplicates(xs)
    ensures StrictlyIncreasing(r) && |r| == |xs|
    ensures forall y :: y in r <==> y in xs
  {
    if xs == [] then []
    else
      var prefix := xs[..|xs| - 1];
      assert forall y :: y in prefix ==> y in xs;
      InsertAscending(xs[|xs| - 1], SortDistinct(prefix))
  }

  // ---------------------------------------------------------------- rescan

  /** Python's `next(p for p in ports if p.hwid == hwid)`, or None. */
  function FirstMatch(ports: seq<PortInfo>, hwid: string): (r: Option<PortInfo>)
    ensures r.Some? ==> r.value in ports && r.value.hwid == hwid
    ensures r.None? <==> forall p :: p in ports ==> p.hwid != hwid
  {
    if ports == [] then None
    else if ports[0].hwid == hwid then Some(ports[0])
    else FirstMatch(ports[1..], hwid)
  }

  lemma {:induction false} FirstMatchAt(ports: seq<PortInfo>, hwid: string, j: nat)
    requires j < |ports| && ports[j].hwid == hwid
    requires forall i :: 0 <= i < j ==> ports[i].hwid != hwid
    ensures FirstMatch(ports, hwid) == Some(ports[j])
  {
    if j > 0 {
      FirstMatchAt(ports[1..], hwid, j - 1);
    }
  }

  /** The first loop of RescanForDevices, for one known device. */
  function Reconcile(d: DeviceState, ports: seq<PortInfo>): DeviceState {
    match FirstMatch(ports, d.portInfo.hwid)
    case Some(p) =>
      var e := d.(portInfo := p, available := true);
      if e.enabled then Connect(e) else e
    case None => Disconnect(d.(available := false))
  }

  function HwIds(devices: seq<DeviceState>): (ids: seq<string>)
    ensures |ids| == |devices|
  {
    seq(|devices|, i requires 0 <= i < |devices| => devices[i].portInfo.hwid)
  }

  function PortHwIds(ports: seq<PortInfo>): (ids: seq<string>)
    ensures |ids| == |ports|
  {
    seq(|ports|, i requires 0 <= i < |ports| => ports[i].hwid)
  }

  /**
   * The second loop of RescanForDevices: the ports, in order, that get a new
   * device. A port is taken when its hwid is empty or not among the hwids of
   * the devices listed so far, including those this loop has just appended.
   */
  function NewDevicePorts(known: seq<string>, ports: seq<PortInfo>): (added: seq<PortInfo>)
    ensures |added| <= |ports|
    ensures forall p :: p in added ==> p in ports
  {
    if ports == [] then []
    else
      var prefix := ports[..|ports| - 1];
      var added := NewDevicePorts(known, prefix);
      var p := ports[|ports| - 1];
      if p.hwid !in known + PortHwIds(added) || p.hwid == "" then added + [p] else added
  }

  /** The taken ports keep the order of the port list: each one is appended after those taken before it. */
  lemma {:induction false} NewDevicePortsInOrder(known: seq<string>, ports: seq<PortInfo>)
    ensures Subsequence(NewDevicePorts(known, ports), ports)
  {
    if ports != [] {
      var prefix := ports[..|ports| - 1];
      var added := NewDevicePorts(known, prefix);
      var p := ports[|ports| - 1];
      NewDevicePortsInOrder(known, prefix);
      if p.hwid !in known + PortHwIds(added) || p.hwid == "" {
        assert (added + [p])[..|added + [p]| - 1] == added;
      }
    }
  }

  /** A device appended by a rescan: `Device()` bound to its port and marked available. */
  function DiscoveredDevice(p: PortInfo): DeviceState {
    NewDevice(p).(available := true)
  }

  /** The first loop of RescanForDevices: every listed device reconciled with the port list. */
  function ReconcileAll(devices: seq<DeviceState>, ports: seq<PortInfo>): (r: seq<DeviceState>)
    ensures |r| == |devices|
  {
    seq(|devices|, i requires 0 <= i < |devices| => Reconcile(devices[i], ports))
  }

  /** The devices the second loop appends, one per taken port. */
  function DiscoveredDevices(added: seq<PortInfo>): (r: seq<DeviceState>)
    ensures |r| == |added|
  {
    seq(|added|, k requires 0 <= k < |added| => DiscoveredDevice(added[k]))
  }

  /** One more port through the second loop: it is taken, or not, on the hwids listed so far. */
  lemma NewDevicePortsStep(known: seq<string>, ports: seq<PortInfo>, k: nat)
    requires k < |ports|
    ensures var added, p := NewDevicePorts(known, ports[..k]), ports[k];
      NewDevicePorts(known, ports[..k + 1])
        == if p.hwid !in known + PortHwIds(added) || p.hwid == "" then added + [p] else added
  {
    assert ports[..k + 1][..k] == ports[..k];
  }

  lemma AppendDiscovered(added: seq<PortInfo>, p: PortInfo)
    ensures DiscoveredDevices(added + [p]) == DiscoveredDevices(added) + [DiscoveredDevice(p)]
    ensures PortHwIds(added + [p]) == PortHwIds(added) + [p.hwid]
  {
  }

  /** Rig.RescanForDevices against the port list `ports`. */
  function Rescan(devices: seq<DeviceState>, ports: seq<PortInfo>): seq<DeviceState> {
    ReconcileAll(devices, ports) + DiscoveredDevices(NewDevicePorts(HwIds(devices), ports))
  }

  /** After the second loop every listed port's hwid is known. */
  lemma {:induction false} NewDevicePortsCover(known: seq<string>, ports: seq<PortInfo>)
    ensures forall p :: p in ports ==> p.hwid in known + PortHwIds(NewDevicePorts(known, ports))
  {
    if ports != [] {
      var prefix := ports[..|ports| - 1];
      var added := NewDevicePorts(known, prefix);
      NewDevicePortsCover(known, prefix);
      var all := NewDevicePorts(known, ports);
      assert forall q :: q in added ==> q in all;
      assert PortHwIds(all) == PortHwIds(added) || PortHwIds(all) == PortHwIds(added) + [ports[|ports| - 1].hwid];
      forall p | p in ports
        ensures p.hwid in known + PortHwIds(all)
      {
        if p in prefix {
          assert p.hwid in known + PortHwIds(added);
        } else {
          assert p == ports[|ports| - 1];
          if p in all {
            var k :| 0 <= k < |all| && all[k] == p;
            assert PortHwIds(all)[k] == p.hwid;
          }
        }
      }
    }
  }

  /** When every port's hwid is known and non-empty, no device is added. */
  lemma {:induction false} NoNewPortsWhenKnown(known: seq<string>, ports: seq<PortInfo>)
    requires forall p :: p in ports ==> p.hwid in known && p.hwid != ""
    ensures NewDevicePorts(known, ports) == []
  {
    if ports != [] {
      var prefix := ports[..|ports| - 1];
      assert forall p :: p in prefix ==> p in ports;
      NoNewPortsWhenKnown(known, prefix);
    }
  }

  /** A port with an empty hwid always gets a new device. */
  lemma {:induction false} EmptyHwIdAlwaysAdded(known: seq<string>, ports: seq<PortInfo>, p: PortInfo)
    requires p in ports && p.hwid == ""
    ensures p in NewDevicePorts(known, ports)
  {
    var prefix := ports[..|ports| - 1];
    if p != ports[|ports| - 1] {
      assert p in prefix;
      EmptyHwIdAlwaysAdded(known, prefix, p);
    }
  }

  /** A port that gets a new device with a non-empty hwid is the first port listed with that hwid. */
  lemma {:induction false} AddedIsFirst(known: seq<string>, ports: seq<PortInfo>, p: PortInfo)
    requires p in NewDevicePorts(known, ports) && p.hwid != ""
    ensures FirstMatch(ports, p.hwid) == Some(p)
    ensures p.hwid !in known
  {
    var prefix := ports[..|ports| - 1];
    var added := NewDevicePorts(known, prefix);
    if p in added {
      AddedIsFirst(known, prefix, p);
      var j :| 0 <= j < |prefix| && prefix[j] == p;
      assert forall i :: 0 <= i < |prefix| ==> ports[i] == prefix[i];
      FirstMatchIndex(prefix, p.hwid, j);
      var j0 :| 0 <= j0 <= j && prefix[j0] == p && forall i :: 0 <= i < j0 ==> prefix[i].hwid != p.hwid;
      FirstMatchAt(ports, p.hwid, j0);
    } else {
      var n := |ports| - 1;
      assert p == ports[n] && p.hwid !in known + PortHwIds(added);
      NewDevicePortsCover(known, prefix);
      forall i | 0 <= i < n
        ensures ports[i].hwid != p.hwid
      {
        assert ports[i] in prefix;
      }
      FirstMatchAt(ports, p.hwid, n);
    }
  }

  /** If FirstMatch finds p, p sits at an index with no earlier port of that hwid. */
  lemma {:induction false} FirstMatchIndex(ports: seq<PortInfo>, hwid: string, j: nat)
    requires j < |ports| && ports[j].hwid == hwid
    ensures exists j0 ::
      && 0 <= j0 <= j
      && ports[j0] == FirstMatch(ports, hwid).value
      && forall i :: 0 <= i < j0 ==> ports[i].hwid != hwid
  {
    if ports[0].hwid != hwid {
      FirstMatchIndex(ports[1..], hwid, j - 1);
      var j1 :| 0 <= j1 <= j - 1 && ports[1..][j1] == FirstMatch(ports[1..], hwid).value
        && forall i :: 0 <= i < j1 ==> ports[1..][i].hwid != hwid;
      assert ports[j1 + 1] == FirstMatch(ports, hwid).value;
    } else {
      assert ports[0] == FirstMatch(ports, hwid).value;
    }
  }

  /** What a rescan does to the device at index i of the list it starts from. */
  lemma RescanKnownDevice(devices: seq<DeviceState>, ports: seq<PortInfo>, i: nat)
    requires i < |devices|
    ensures |Rescan(devices, ports)| >= |devices|
    ensures var d, e := devices[i], Rescan(devices, ports)[i];
      match FirstMatch(ports, d.portInfo.hwid)
      case Some(p) =>
        && p in ports && p.hwid == d.portInfo.hwid
        && e.portInfo == p && e.available
        && (e.enabled ==> e.IsConnected())
        && (!d.enabled || d.IsConnected() ==> e.serialPort == d.serialPort)
        && (d.enabled && !d.IsConnected() ==> e.serialPort == Some(SerialPort(p.device, ResetHandshake)))
        && e.(serialPort := d.serialPort, portInfo := d.portInfo, available := d.available) == d
      case None =>
        && (forall q :: q in ports ==> q.hwid != d.portInfo.hwid)
        && !e.available && e.serialPort == None
        && e.(serialPort := d.serialPort, available := d.available) == d
  {
  }

  /** The devices a rescan appends: one per port NewDevicePorts picks, available, disabled, start 0, closed, after all known devices. */
  lemma RescanNewDevice(devices: seq<DeviceState>, ports: seq<PortInfo>, k: nat)
    requires k < |NewDevicePorts(HwIds(devices), ports)|
    ensures var p, e := NewDevicePorts(HwIds(devices), ports)[k], Rescan(devices, ports)[|devices| + k];
      && p in ports
      && e.portInfo == p && e.available && !e.enabled && e.startNumber == 0 && !e.IsConnected()
      && (p.hwid != "" ==> p.hwid !in HwIds(devices))
  {
    var p := NewDevicePorts(HwIds(devices), ports)[k];
    if p.hwid != "" {
      AddedIsFirst(HwIds(devices), ports, p);
    }
  }

  lemma ReconcileIdempotent(d: DeviceState, ports: seq<PortInfo>)
    ensures Reconcile(d, ports).portInfo.hwid == d.portInfo.hwid
    ensures Reconcile(Reconcile(d, ports), ports) == Reconcile(d, ports)
  {
  }

  /** The hwid list after a rescan: the old one, in the same order, then the hwids of the added ports. */
  lemma RescanHwIds(devices: seq<DeviceState>, ports: seq<PortInfo>)
    ensures HwIds(Rescan(devices, ports)) == HwIds(devices) + PortHwIds(NewDevicePorts(HwIds(devices), ports))
  {
    var r := Rescan(devices, ports);
    forall i | 0 <= i < |devices|
      ensures r[i].portInfo.hwid == devices[i].portInfo.hwid
    {
      ReconcileIdempotent(devices[i], ports);
    }
  }

  /** After a rescan over ports with non-empty hwids, reconciling again leaves every device as it is. */
  lemma RescanReconciled(devices: seq<DeviceState>, ports: seq<PortInfo>)
    requires forall p :: p in ports ==> p.hwid != ""
    ensures ReconcileAll(Rescan(devices, ports), ports) == Rescan(devices, ports)
  {
    var known := HwIds(devices);
    var added := NewDevicePorts(known, ports);
    var r := Rescan(devices, ports);
    forall i | 0 <= i < |r|
      ensures Reconcile(r[i], ports) == r[i]
    {
      if i < |devices| {
        ReconcileIdempotent(devices[i], ports);
      } else {
        var p := added[i - |devices|];
        assert r[i] == DiscoveredDevice(p);
        AddedIsFirst(known, ports, p);
      }
    }
  }

  /** Rescanning an unchanged port list in which every hwid is non-empty changes nothing the second time. */
  lemma RescanIdempotent(devices: seq<DeviceState>, ports: seq<PortInfo>)
    requires forall p :: p in ports ==> p.hwid != ""
    ensures Rescan(Rescan(devices, ports), ports) == Rescan(devices, ports)
  {
    var known := HwIds(devices);
    var r := Rescan(devices, ports);
    RescanHwIds(devices, ports);
    NewDevicePortsCover(known, ports);
    NoNewPortsWhenKnown(HwIds(r), ports);
    RescanReconciled(devices, ports);
    assert DiscoveredDevices(NewDevicePorts(HwIds(r), ports)) == [];
  }

  /** A port with an empty hwid makes every rescan append a device, so rescanning is not idempotent for it. */
  lemma RescanGrowsWithEmptyHwId(devices: seq<DeviceState>, ports: seq<PortInfo>, p: PortInfo)
    requires p in ports && p.hwid == ""
    ensures |Rescan(devices, ports)| > |devices|
    ensures |Rescan(Rescan(devices, ports), ports)| > |Rescan(devices, ports)|
  {
    EmptyHwIdAlwaysAdded(HwIds(devices), ports, p);
    EmptyHwIdAlwaysAdded(HwIds(Rescan(devices, ports)), ports, p);
  }

  /** No non-empty hwid occurs twice. */
  predicate UniqueHwIds(ids: seq<string>) {
    forall i, j :: 0 <= i < j < |ids| && ids[i] != "" ==> ids[i] != ids[j]
  }

  lemma {:induction false} NewDevicePortsUnique(known: seq<string>, ports: seq<PortInfo>)
    requires UniqueHwIds(known)
    ensures UniqueHwIds(known + PortHwIds(NewDevicePorts(known, ports)))
  {
    if ports != [] {
      var prefix := ports[..|ports| - 1];
      var added := NewDevicePorts(known, prefix);
      NewDevicePortsCover(known, prefix);
      NewDevicePortsUnique(known, prefix);
      var p := ports[|ports| - 1];
      if p.hwid !in known + PortHwIds(added) || p.hwid == "" {
        assert PortHwIds(added + [p]) == PortHwIds(added) + [p.hwid];
        assert known + PortHwIds(added + [p]) == (known + PortHwIds(added)) + [p.hwid];
      }
    }
  }

  /** A rescan never gives two devices the same non-empty hwid. */
  lemma RescanKeepsHwIdsUnique(devices: seq<DeviceState>, ports: seq<PortInfo>)
    requires UniqueHwIds(HwIds(devices))
    ensures UniqueHwIds(HwIds(Rescan(devices, ports)))
  {
    RescanHwIds(devices, ports);
    NewDevicePortsUnique(HwIds(devices), ports);
  }
}
