/**
 * The device list manager (src/comm/CommManager.cpp): the ordered list of
 * connected devices, the broadcast of simulator values to all of them and
 * the forwarding of every received line to the event router.
 *
 * The list holds device records; the behaviour of the serial and network
 * device objects themselves is in the SerialDevice and NetworkDevice
 * modules, and every call the manager makes on them is a `Call` in the trace.
 */
module CommManager {
  import opened Wrappers

  /** COMM_DEVICE_TYPE. The enum is passed as a plain integer, so other codes can reach new_device. */
  const DEVICE_SERIAL: int := 0
  const DEVICE_NETWORK: int := 1

  /** The baud rate new_device gives every serial device. */
  const SERIAL_BAUD_RATE: int := 115200

  /** A listed device: its kind code, address, descriptive name and (serial only) baud rate. */
  datatype Device = Device(deviceType: int, address: string, name: string, baudRate: int)

  /** Device::get_device_type: the kind's configuration name, or "" for an unknown code. */
  function DeviceTypeName(deviceType: int): (name: string)
    ensures name == "serial" <==> deviceType == DEVICE_SERIAL
    ensures name == "network" <==> deviceType == DEVICE_NETWORK
    ensures name == "" <==> deviceType != DEVICE_SERIAL && deviceType != DEVICE_NETWORK
  {
    if deviceType == DEVICE_SERIAL then "serial"
    else if deviceType == DEVICE_NETWORK then "network"
    else ""
  }

  /** The record new_device creates for a kind code, or None when the code is unknown. */
  function NewDeviceRecord(deviceType: int, address: string, name: string): (d: Option<Device>)
    ensures d.Some? <==> deviceType == DEVICE_SERIAL || deviceType == DEVICE_NETWORK
    ensures d.Some? ==> d.value.deviceType == deviceType && d.value.address == address && d.value.name == name
    ensures d.Some? && deviceType == DEVICE_SERIAL ==> d.value.baudRate == SERIAL_BAUD_RATE
  {
    if deviceType == DEVICE_SERIAL then Some(Device(DEVICE_SERIAL, address, name, SERIAL_BAUD_RATE))
    else if deviceType == DEVICE_NETWORK then Some(Device(DEVICE_NETWORK, address, name, 0))
    else None
  }

  /** The calls the manager makes on its devices and on the event router. */
  datatype Call =
    | RegisterCallback(device: Device)
    | WriteEvent(eventName: string, eventValue: string)
    | Connect(device: Device)
    | RunIo
    | WriteData(device: Device, data: string)
    | Close(device: Device)

  /** One call per device, in list order. */
  function ConnectAll(devices: seq<Device>): (calls: seq<Call>)
    ensures |calls| == |devices| && forall i :: 0 <= i < |devices| ==> calls[i] == Connect(devices[i])
  {
    seq(|devices|, i requires 0 <= i < |devices| => Connect(devices[i]))
  }

  function WriteDataAll(devices: seq<Device>, data: string): (calls: seq<Call>)
    ensures |calls| == |devices| && forall i :: 0 <= i < |devices| ==> calls[i] == WriteData(devices[i], data)
  {
    seq(|devices|, i requires 0 <= i < |devices| => WriteData(devices[i], data))
  }

  function CloseAll(devices: seq<Device>): (calls: seq<Call>)
    ensures |calls| == |devices| && forall i :: 0 <= i < |devices| ==> calls[i] == Close(devices[i])
  {
    seq(|devices|, i requires 0 <= i < |devices| => Close(devices[i]))
  }

  /** The devices whose address is not `address`, in their original order. */
  function Without(devices: seq<Device>, address: string): seq<Device>
    decreases |devices|
  {
    if devices == [] then []
    else
      var last := devices[|devices| - 1];
      Without(devices[..|devices| - 1], address) + (if last.address == address then [] else [last])
  }

  /** The devices whose address is `address`, in their original order. */
  function Matching(devices: seq<Device>, address: string): seq<Device>
    decreases |devices|
  {
    if devices == [] then []
    else
      var last := devices[|devices| - 1];
      Matching(devices[..|devices| - 1], address) + (if last.address == address then [last] else [])
  }

  /** Removal keeps every other device and drops every matching one, and drops nothing else. */
  lemma {:induction false} WithoutSpec(devices: seq<Device>, address: string)
    ensures forall d :: d in Without(devices, address) <==> d in devices && d.address != address
    ensures forall d :: d in Matching(devices, address) <==> d in devices && d.address == address
    ensures |Without(devices, address)| + |Matching(devices, address)| == |devices|
    decreases |devices|
  {
    if devices != [] {
      var init := devices[..|devices| - 1];
      var last := devices[|devices| - 1];
      WithoutSpec(init, address);
      assert devices == init + [last];
      assert forall d :: d in devices <==> d in init || d == last;
      var kept := if last.address == address then [] else [last];
      assert Without(devices, address) == Without(init, address) + kept;
      assert forall d :: d in Without(devices, address) <==> d in Without(init, address) || d in kept;
    }
  }

  /** With no device at the address, removal changes nothing and closes nothing. */
  lemma {:induction false} WithoutNoMatch(devices: seq<Device>, address: string)
    requires forall i :: 0 <= i < |devices| ==> devices[i].address != address
    ensures Without(devices, address) == devices
    ensures Matching(devices, address) == []
    decreases |devices|
  {
    if devices != [] {
      var init := devices[..|devices| - 1];
      WithoutNoMatch(init, address);
      assert devices == init + [devices[|devices| - 1]];
    }
  }

  /** With exactly one device at the address, removal drops that one and keeps the rest in order. */
  lemma {:induction false} WithoutOneMatch(devices: seq<Device>, address: string, q: nat)
    requires q < |devices| && devices[q].address == address
    requires forall i :: 0 <= i < |devices| && i != q ==> devices[i].address != address
    ensures Without(devices, address) == devices[..q] + devices[q + 1..]
    ensures Matching(devices, address) == [devices[q]]
    decreases |devices|
  {
    var init := devices[..|devices| - 1];
    if q == |devices| - 1 {
      WithoutNoMatch(init, address);
      assert devices[..q] == init && devices[q + 1..] == [];
    } else {
      WithoutOneMatch(init, address, q);
      assert init[..q] == devices[..q];
      assert init[q + 1..] + [devices[|devices| - 1]] == devices[q + 1..];
    }
  }

  /** Removing a second time changes nothing. */
  lemma WithoutIdempotent(devices: seq<Device>, address: string)
    ensures Without(Without(devices, address), address) == Without(devices, address)
  {
    var r := Without(devices, address);
    WithoutSpec(devices, address);
    assert forall i :: 0 <= i < |r| ==> r[i] in r;
    WithoutNoMatch(r, address);
  }

  /**
   * remove_device as written: it erases from the vector while a range-for
   * walks it, and the walk still ends at the end position taken before the
   * first erase. Position p is visited for every p below the original
   * length; None stands for the read of a position past the shrunken
   * vector's end. (The iterator advances past the element shifted into the
   * erased slot, which is never compared.)
   */
  function RemoveWalk(current: seq<Device>, address: string, p: nat, end: nat): (r: Option<seq<Device>>)
    ensures r.Some? ==> |r.value| <= |current| && multiset(r.value) <= multiset(current)
    ensures r.Some? ==> forall d :: d in multiset(current) - multiset(r.value) ==> d.address == address
    decreases end - p
  {
    if p >= end then Some(current)
    else if p >= |current| then None
    else if current[p].address == address then
      var next := current[..p] + current[p + 1..];
      assert current == current[..p] + [current[p]] + current[p + 1..];
      RemoveWalk(next, address, p + 1, end)
    else RemoveWalk(current, address, p + 1, end)
  }

  /** The walk over the whole list; None when it reads past the end of the shrunken vector. */
  function RemoveAsWritten(devices: seq<Device>, address: string): (r: Option<seq<Device>>)
    ensures r.Some? ==> |r.value| <= |devices| && multiset(r.value) <= multiset(devices)
    ensures r.Some? ==> forall d :: d in multiset(devices) - multiset(r.value) ==> d.address == address
  {
    RemoveWalk(devices, address, 0, |devices|)
  }

  /** Two listed devices, the first at the address: the walk reads past the end of the one-element vector. */
  lemma RemoveAsWrittenReadsPastEnd()
    ensures RemoveAsWritten([Device(DEVICE_NETWORK, "10.0.0.2", "panel", 0), Device(DEVICE_SERIAL, "COM3", "stick", SERIAL_BAUD_RATE)], "10.0.0.2") == None
  {
    var a := Device(DEVICE_NETWORK, "10.0.0.2", "panel", 0);
    var b := Device(DEVICE_SERIAL, "COM3", "stick", SERIAL_BAUD_RATE);
    assert [a, b][..0] + [a, b][1..] == [b];
    assert RemoveWalk([b], "10.0.0.2", 1, 2) == None;
    assert RemoveWalk([a, b], "10.0.0.2", 0, 2) == RemoveWalk([b], "10.0.0.2", 1, 2);
  }

  /** When no device matches, the walk as written is harmless and changes nothing. */
  lemma {:induction false} RemoveWalkNoMatch(current: seq<Device>, address: string, p: nat)
    requires p <= |current|
    requires forall i :: 0 <= i < |current| ==> current[i].address != address
    ensures RemoveWalk(current, address, p, |current|) == Some(current)
    decreases |current| - p
  {
    if p < |current| {
      RemoveWalkNoMatch(current, address, p + 1);
    }
  }

  class Manager {
    var deviceListing: seq<Device>
    ghost var trace: seq<Call>

    constructor ()
      ensures deviceListing == [] && trace == []
    {
      deviceListing := [];
      trace := [];
    }

    /** Create a device of a known kind, register the router callback on it and append it to the list. */
    method NewDevice(deviceType: int, address: string, name: string)
      modifies this
      ensures NewDeviceRecord(deviceType, address, name).None? ==>
        deviceListing == old(deviceListing) && trace == old(trace)
      ensures NewDeviceRecord(deviceType, address, name).Some? ==>
        var d := NewDeviceRecord(deviceType, address, name).value;
        deviceListing == old(deviceListing) + [d] && trace == old(trace) + [RegisterCallback(d)]
    {
      var device: Device;
      if deviceType == DEVICE_SERIAL {
        device := Device(DEVICE_SERIAL, address, name, SERIAL_BAUD_RATE);
      } else if deviceType == DEVICE_NETWORK {
        device := Device(DEVICE_NETWORK, address, name, 0);
      } else {
        return;
      }
      trace := trace + [RegisterCallback(device)];
      deviceListing := deviceListing + [device];
    }

    /** Every line a device receives goes to the router as a write trigger with no explicit value. */
    method CommCallback(cmd: string)
      modifies this`trace
      ensures trace == old(trace) + [WriteEvent(cmd, "")]
    {
      trace := trace + [WriteEvent(cmd, "")];
    }

    /** Connect every device in list order, then run the I/O loop. */
    method ReadLoop()
      modifies this`trace
      ensures trace == old(trace) + ConnectAll(deviceListing) + [RunIo]
    {
      var i := 0;
      while i < |deviceListing|
        invariant 0 <= i <= |deviceListing|
        invariant trace == old(trace) + ConnectAll(deviceListing[..i])
      {
        trace := trace + [Connect(deviceListing[i])];
        i := i + 1;
      }
      assert deviceListing[..i] == deviceListing;
      trace := trace + [RunIo];
    }

    /** A copy of the list, built element by element. */
    method GetAllDevices() returns (outval: seq<Device>)
      ensures outval == deviceListing
    {
      outval := [];
      var i := 0;
      while i < |deviceListing|
        invariant 0 <= i <= |deviceListing|
        invariant outval == deviceListing[..i]
      {
        outval := outval + [deviceListing[i]];
        i := i + 1;
      }
    }

    /**
     * Close and drop every device at `address`, keeping the others in order;
     * the loop the source intends, which closes the matches in list order.
     */
    method RemoveDevice(address: string)
      modifies this
      ensures deviceListing == Without(old(deviceListing), address)
      ensures trace == old(trace) + CloseAll(Matching(old(deviceListing), address))
    {
      var devices := deviceListing;
      var kept: seq<Device> := [];
      ghost var closed: seq<Device> := [];
      var i := 0;
      while i < |devices|
        invariant 0 <= i <= |devices|
        invariant kept == Without(devices[..i], address)
        invariant closed == Matching(devices[..i], address)
        invariant trace == old(trace) + CloseAll(closed)
      {
        assert devices[..i + 1][..i] == devices[..i];
        var elem := devices[i];
        if elem.address == address {
          trace := trace + [Close(elem)];
          closed := closed + [elem];
        } else {
          kept := kept + [elem];
        }
        i := i + 1;
      }
      assert devices[..i] == devices;
      deviceListing := kept;
    }

    /** Broadcast one message: write_data on each listed device, in list order. */
    method SendAll(message: string)
      modifies this`trace
      ensures trace == old(trace) + WriteDataAll(deviceListing, message)
    {
      var i := 0;
      while i < |deviceListing|
        invariant 0 <= i <= |deviceListing|
        invariant trace == old(trace) + WriteDataAll(deviceListing[..i], message)
      {
        trace := trace + [WriteData(deviceListing[i], message)];
        i := i + 1;
      }
      assert deviceListing[..i] == deviceListing;
    }
  }
}
