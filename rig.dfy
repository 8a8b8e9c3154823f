/**
 * The solenoid rig of Data/Rig.py as objects: a Device owns one serial
 * connection and a 24-slot state buffer; the Rig owns the process-wide
 * desired-state map and the list of every device it has discovered. Each
 * state-changing method is proved to change the fields exactly as the
 * corresponding function of module RigState says.
 */
module Rig {
  import opened Common
  import opened SolenoidCodec
  import opened RigState

  class Device {
    var portInfo: PortInfo
    var startNumber: int
    var polarities: seq<bool>
    var enabled: bool
    var available: bool
    /** The open connection, with what has been written to it; None while closed. */
    var serialPort: Option<SerialPort>
    /** The local state of the 24 outputs; the list object itself is never replaced. */
    const solenoidStates: array<bool>

    ghost predicate Valid()
      reads this
    {
      |polarities| == 3 && solenoidStates.Length == 24
    }

    /** The device's fields as a value. */
    ghost function View(): (v: DeviceState)
      reads this, solenoidStates
      ensures Valid() ==> v.WellFormed()
    {
      DeviceState(portInfo, startNumber, polarities, enabled, available, serialPort, solenoidStates[..])
    }

    /** `Device()` followed by the assignment of its port entry, as RescanForDevices does. */
    constructor (info: PortInfo)
      ensures Valid() && fresh(solenoidStates)
      ensures View() == NewDevice(info)
    {
      portInfo := info;
      startNumber := 0;
      polarities := [false, false, false];
      enabled := false;
      available := false;
      serialPort := None;
      solenoidStates := new bool[24](_ => false);
    }

    predicate IsConnected()
      reads this
    {
      serialPort.Some?
    }

    /** Device.__getstate__: the record saved with a project, which drops the connection and the availability flag. */
    function GetState(): (s: DeviceState)
      reads this, solenoidStates
      ensures !s.available && !s.IsConnected()
      ensures s.(available := available, serialPort := serialPort) == View()
    {
      DeviceState(portInfo, startNumber, polarities, enabled, false, None, solenoidStates[..])
    }

    /** Device.Write: hand one frame to the open port. */
    method Write(data: Frame)
      requires IsConnected()
      modifies this
      ensures View() == old(View()).(serialPort := Some(old(serialPort.value).(written := old(serialPort.value.written) + [data])))
    {
      serialPort := Some(serialPort.value.(written := serialPort.value.written + [data]));
    }

    method SetSolenoids(desired: map<int, bool>)
      requires Valid()
      modifies this, solenoidStates
      ensures Valid()
      ensures View() == RigState.SetSolenoids(old(View()), desired)
    {
      if !enabled || !IsConnected() {
        return;
      }
      for i := startNumber to startNumber + 24
        invariant unchanged(this)
        invariant forall k :: 0 <= k < 24 ==>
          solenoidStates[k] == if k < i - startNumber && startNumber + k in desired then desired[startNumber + k] else old(solenoidStates[k])
      {
        if i in desired {
          solenoidStates[i - startNumber] := desired[i];
        }
      }
      var slots := solenoidStates[..];
      assert slots == MergeSlots(old(solenoidStates[..]), startNumber, desired);
      var polarized := Polarize(slots, polarities);
      var aState := ConvertPinStatesToBytes(polarized[0..8]);
      var bState := ConvertPinStatesToBytes(polarized[8..16]);
      var cState := ConvertPinStatesToBytes(polarized[16..24]);
      assert polarized[0..8][..8] == polarized[0..8];
      assert polarized[8..16][..8] == polarized[8..16];
      assert polarized[16..24][..8] == polarized[16..24];
      WriteState(aState, bState, cState);
    }

    /** The three frames SetSolenoids writes, one per output bank. */
    method WriteState(aState: byte, bState: byte, cState: byte)
      requires Valid() && IsConnected()
      requires aState == Pack(Polarize(solenoidStates[..], polarities)[0..8])
      requires bState == Pack(Polarize(solenoidStates[..], polarities)[8..16])
      requires cState == Pack(Polarize(solenoidStates[..], polarities)[16..24])
      modifies this
      ensures Valid()
      ensures View() == old(View()).(serialPort := Some(old(serialPort.value).(written :=
        old(serialPort.value.written) + StateFrames(solenoidStates[..], polarities))))
    {
      Write([TagA, aState]);
      Write([TagB, bState]);
      Write([TagC, cState]);
      assert serialPort.value.written == old(serialPort.value.written) + [[TagA, aState], [TagB, bState], [TagC, cState]];
    }

    method Connect()
      requires Valid()
      modifies this
      ensures Valid()
      ensures View() == RigState.Connect(old(View()))
    {
      if IsConnected() {
        return;
      }
      serialPort := Some(SerialPort(portInfo.device, []));
      Write([33, 65, 0]);
      Write([33, 66, 0]);
      Write([33, 67, 0]);
      assert serialPort.value.written == ResetHandshake;
    }

    /** One pass of the first loop of Rig.RescanForDevices, applied to this device. */
    method ReconcileWith(portInfos: seq<PortInfo>)
      requires Valid()
      modifies this
      ensures Valid()
      ensures View() == Reconcile(old(View()), portInfos)
    {
      var hit := FirstMatch(portInfos, portInfo.hwid);
      if hit.Some? {
        portInfo := hit.value;
        available := true;
        if enabled {
          Connect();
        }
      } else {
        available := false;
        Disconnect();
      }
    }

    method Disconnect()
      modifies this
      ensures View() == RigState.Disconnect(old(View()))
    {
      serialPort := None;
    }
  }

  class Rig {
    /** Desired state per solenoid index, created lazily. */
    var solenoidStates: map<int, bool>
    var allDevices: seq<Device>

    ghost function Buffers(): set<array<bool>>
      reads this`allDevices
    {
      set d | d in allDevices :: d.solenoidStates
    }

    /** Devices are distinct objects with distinct slot buffers, each well formed. */
    ghost predicate Valid()
      reads this`allDevices, allDevices
    {
      && (forall i, j :: 0 <= i < |allDevices| && 0 <= j < |allDevices| && i != j ==>
            allDevices[i] != allDevices[j] && allDevices[i].solenoidStates != allDevices[j].solenoidStates)
      && (forall i :: 0 <= i < |allDevices| ==> allDevices[i].Valid())
    }

    /** The device records, in list order, as values. */
    ghost function Views(): (vs: seq<DeviceState>)
      reads this`allDevices, allDevices, Buffers()
      ensures |vs| == |allDevices|
      ensures Valid() ==> AllWellFormed(vs)
    {
      var ds := allDevices;
      seq(|ds|, i requires 0 <= i < |ds| reads ds, set d | d in ds :: d.solenoidStates => ds[i].View())
    }

    /** `[d.portInfo.hwid for d in self.allDevices]` */
    function DeviceHwIds(): (ids: seq<string>)
      reads this, allDevices
      ensures |ids| == |allDevices|
    {
      seq(|allDevices|, i requires 0 <= i < |allDevices| reads this, allDevices => allDevices[i].portInfo.hwid)
    }

    constructor ()
      ensures Valid() && solenoidStates == map[] && allDevices == []
    {
      solenoidStates := map[];
      allDevices := [];
    }

    method SetSolenoidState(number: int, state: bool)
      modifies this`solenoidStates
      ensures solenoidStates == old(solenoidStates)[number := state]
    {
      solenoidStates := solenoidStates[number := state];
    }

    /** Reads the desired state of `number`, first recording False for an index never set. */
    method GetSolenoidState(number: int) returns (state: bool)
      modifies this`solenoidStates
      ensures state == (number in old(solenoidStates) && old(solenoidStates)[number])
      ensures number in solenoidStates && solenoidStates[number] == state
      ensures solenoidStates == if number in old(solenoidStates) then old(solenoidStates) else old(solenoidStates)[number := false]
    {
      if number !in solenoidStates {
        solenoidStates := solenoidStates[number := false];
      }
      state := solenoidStates[number];
    }

    method FlushStates()
      requires Valid()
      modifies allDevices, Buffers()
      ensures Valid()
      ensures Views() == Flush(old(Views()), solenoidStates)
    {
      ghost var views0 := Views();
      for k := 0 to |allDevices|
        invariant Valid()
        invariant forall i :: 0 <= i < |allDevices| ==>
          allDevices[i].View() == if i < k then RigState.SetSolenoids(views0[i], solenoidStates) else views0[i]
      {
        var device := allDevices[k];
        label before:
        device.SetSolenoids(solenoidStates);
        forall i | 0 <= i < |allDevices| && i != k
          ensures allDevices[i].View() == old@before(allDevices[i].View())
        {
          assert allDevices[i] != device && allDevices[i].solenoidStates != device.solenoidStates;
        }
      }
    }

    method Disconnect()
      requires Valid()
      modifies allDevices
      ensures Valid()
      ensures Views() == DisconnectAll(old(Views()))
    {
      ghost var views0 := Views();
      for k := 0 to |allDevices|
        invariant Valid()
        invariant forall i :: 0 <= i < |allDevices| ==>
          allDevices[i].View() == if i < k then RigState.Disconnect(views0[i]) else views0[i]
      {
        var device := allDevices[k];
        label before:
        device.Disconnect();
        forall i | 0 <= i < |allDevices| && i != k
          ensures allDevices[i].View() == old@before(allDevices[i].View())
        {
          assert allDevices[i] != device;
        }
      }
    }

    /** The indices of every enabled, connected device, ascending and without repeats. */
    method GetConnectedSolenoidNumbers() returns (numbers: seq<int>)
      ensures StrictlyIncreasing(numbers)
      ensures forall n :: n in numbers <==> n in ConnectedSet(Views())
    {
      var found: seq<int> := [];
      for k := 0 to |allDevices|
        invariant NoDuplicates(found)
        invariant forall n :: n in found <==> n in ConnectedSet(Views()[..k])
      {
        var d := allDevices[k];
        assert Views()[..k + 1][..k] == Views()[..k];
        if d.enabled && d.IsConnected() {
          for n := d.startNumber to d.startNumber + 24
            invariant NoDuplicates(found)
            invariant forall x :: x in found <==> x in ConnectedSet(Views()[..k]) || d.startNumber <= x < n
          {
            if n !in found {
              found := found + [n];
            }
          }
        }
      }
      assert Views()[..|allDevices|] == Views();
      numbers := SortDistinct(found);
    }

    /** Rig.RescanForDevices against the port list `portInfos` (what RescanPorts returned). */
    method RescanForDevices(portInfos: seq<PortInfo>)
      requires Valid()
      modifies this, allDevices, Buffers()
      ensures Valid()
      ensures |allDevices| >= |old(allDevices)| && allDevices[..|old(allDevices)|] == old(allDevices)
      ensures forall i :: |old(allDevices)| <= i < |allDevices| ==> fresh(allDevices[i])
      ensures Views() == Rescan(old(Views()), portInfos)
      ensures solenoidStates == old(solenoidStates)
    {
      ghost var views0 := Views();
      ReconcileDevices(portInfos);
      assert DeviceHwIds() == HwIds(views0) by {
        forall i | 0 <= i < |allDevices|
          ensures DeviceHwIds()[i] == HwIds(views0)[i]
        {
          assert allDevices[i].View() == Views()[i] == Reconcile(views0[i], portInfos);
          ReconcileIdempotent(views0[i], portInfos);
        }
      }
      AppendNewDevices(portInfos);
    }

    /** The first loop of RescanForDevices: match each device to its port by hwid, then connect or disconnect it. */
    method ReconcileDevices(portInfos: seq<PortInfo>)
      requires Valid()
      modifies allDevices
      ensures Valid()
      ensures Views() == ReconcileAll(old(Views()), portInfos)
    {
      ghost var views0 := Views();
      for k := 0 to |allDevices|
        invariant Valid()
        invariant forall i :: 0 <= i < |allDevices| ==>
          allDevices[i].View() == if i < k then Reconcile(views0[i], portInfos) else views0[i]
      {
        var device := allDevices[k];
        label before:
        device.ReconcileWith(portInfos);
        forall i | 0 <= i < |allDevices| && i != k
          ensures allDevices[i].View() == old@before(allDevices[i].View())
        {
          assert allDevices[i] != device;
        }
      }
    }

    /** The second loop of RescanForDevices: a new available device for each port NewDevicePorts takes. */
    method AppendNewDevices(portInfos: seq<PortInfo>)
      requires Valid()
      modifies this
      ensures Valid()
      ensures |allDevices| >= |old(allDevices)| && allDevices[..|old(allDevices)|] == old(allDevices)
      ensures forall i :: |old(allDevices)| <= i < |allDevices| ==> fresh(allDevices[i])
      ensures Views() == old(Views()) + DiscoveredDevices(NewDevicePorts(old(DeviceHwIds()), portInfos))
      ensures solenoidStates == old(solenoidStates)
    {
      ghost var known := DeviceHwIds();
      ghost var views0 := Views();
      ghost var devices0 := allDevices;
      ghost var n0 := |allDevices|;
      ghost var added: seq<PortInfo> := [];
      for k := 0 to |portInfos|
        invariant Valid() && solenoidStates == old(solenoidStates)
        invariant n0 <= |allDevices| && allDevices[..n0] == devices0
        invariant forall i :: n0 <= i < |allDevices| ==> fresh(allDevices[i])
        invariant added == NewDevicePorts(known, portInfos[..k])
        invariant Views() == views0 + DiscoveredDevices(added)
        invariant DeviceHwIds() == known + PortHwIds(added)
      {
        NewDevicePortsStep(known, portInfos, k);
        var portInfo := portInfos[k];
        ghost var devices1 := allDevices;
        added := AddIfNew(portInfo, known, views0, added);
        forall i | n0 <= i < |allDevices|
          ensures fresh(allDevices[i])
        {
          if i < |devices1| {
            assert allDevices[i] == devices1[i];
          }
        }
      }
      assert portInfos[..|portInfos|] == portInfos;
    }

    /**
     * Appends a device for `portInfo` when its hwid is not yet listed or is
     * empty; `added` (the ports appended so far) grows by the port exactly then.
     */
    method AddIfNew(portInfo: PortInfo, ghost known: seq<string>, ghost views0: seq<DeviceState>, ghost added: seq<PortInfo>)
      returns (ghost added': seq<PortInfo>)
      requires Valid()
      requires Views() == views0 + DiscoveredDevices(added) && DeviceHwIds() == known + PortHwIds(added)
      modifies this
      ensures Valid() && solenoidStates == old(solenoidStates)
      ensures |allDevices| >= |old(allDevices)| && allDevices[..|old(allDevices)|] == old(allDevices)
      ensures forall i :: |old(allDevices)| <= i < |allDevices| ==> fresh(allDevices[i])
      ensures added' == if portInfo.hwid !in known + PortHwIds(added) || portInfo.hwid == "" then added + [portInfo] else added
      ensures Views() == views0 + DiscoveredDevices(added') && DeviceHwIds() == known + PortHwIds(added')
    {
      added' := added;
      if portInfo.hwid !in DeviceHwIds() || portInfo.hwid == "" {
        AddDevice(portInfo);
        AppendDiscovered(added, portInfo);
        added' := added + [portInfo];
        assert views0 + DiscoveredDevices(added) + [DiscoveredDevice(portInfo)] == views0 + DiscoveredDevices(added');
        assert known + PortHwIds(added) + [portInfo.hwid] == known + PortHwIds(added');
      }
    }

    /** A new device for `portInfo`, marked available and appended to the list. */
    method AddDevice(portInfo: PortInfo)
      requires Valid()
      modifies this
      ensures Valid() && solenoidStates == old(solenoidStates)
      ensures |allDevices| == |old(allDevices)| + 1 && allDevices[..|old(allDevices)|] == old(allDevices)
      ensures fresh(allDevices[|old(allDevices)|])
      ensures Views() == old(Views()) + [DiscoveredDevice(portInfo)]
      ensures DeviceHwIds() == old(DeviceHwIds()) + [portInfo.hwid]
    {
      ghost var views0 := Views();
      var newDevice := new Device(portInfo);
      newDevice.available := true;
      allDevices := allDevices + [newDevice];
      assert Views() == views0 + [newDevice.View()] by {
        forall i | 0 <= i < |views0|
          ensures Views()[i] == views0[i]
        {
          assert allDevices[i] == old(allDevices)[i];
        }
      }
    }
  }
}
