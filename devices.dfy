/**
 * The persisted device table (src/conf/Devices.cpp): turning each entry's
 * type string into a device kind for the device manager, and appending
 * new entries.
 */
module Devices {
  import opened Wrappers
  import opened ConfigurationTypedef
  import opened ConfigurationStore
  import CommManager
  import opened SeqLemmas

  /** The device kind a configured type string names, if any. */
  function DeviceTypeCode(kind: string): (code: Option<int>)
    ensures code == Some(CommManager.DEVICE_SERIAL) <==> kind == "serial"
    ensures code == Some(CommManager.DEVICE_NETWORK) <==> kind == "network"
    ensures code.None? <==> kind != "serial" && kind != "network"
  {
    if kind == "serial" then Some(CommManager.DEVICE_SERIAL)
    else if kind == "network" then Some(CommManager.DEVICE_NETWORK)
    else None
  }

  function LoadDeviceCalls(d: ConfigurationDevice): seq<Call>
  {
    match DeviceTypeCode(d.kind)
    case None => []
    case Some(code) => [NewDevice(code, d.address, d.name)]
  }

  function LoadAllDevices(ds: seq<ConfigurationDevice>): seq<Call>
    decreases |ds|
  {
    if ds == [] then [] else LoadAllDevices(ds[..|ds| - 1]) + LoadDeviceCalls(ds[|ds| - 1])
  }

  /** The type names the device manager reports are exactly the ones loading accepts, each for its own kind. */
  lemma DeviceTypeNameRoundTrip(code: int, kind: string)
    ensures code == CommManager.DEVICE_SERIAL || code == CommManager.DEVICE_NETWORK ==>
      DeviceTypeCode(CommManager.DeviceTypeName(code)) == Some(code)
    ensures DeviceTypeCode(kind) == Some(code) ==> CommManager.DeviceTypeName(code) == kind
  {
  }

  /** A table of known kinds creates one device per entry, in table order. */
  lemma {:induction false} LoadAllDevicesKnown(ds: seq<ConfigurationDevice>)
    requires forall i :: 0 <= i < |ds| ==> DeviceTypeCode(ds[i].kind).Some?
    ensures LoadAllDevices(ds) ==
      seq(|ds|, i requires 0 <= i < |ds| => NewDevice(DeviceTypeCode(ds[i].kind).value, ds[i].address, ds[i].name))
    decreases |ds|
  {
    if ds != [] {
      LoadAllDevicesKnown(ds[..|ds| - 1]);
    }
  }

  /** Entries of unknown type create nothing. */
  lemma {:induction false} LoadAllDevicesSkipsUnknown(ds: seq<ConfigurationDevice>)
    requires forall i :: 0 <= i < |ds| ==> DeviceTypeCode(ds[i].kind).None?
    ensures LoadAllDevices(ds) == []
    decreases |ds|
  {
    if ds != [] {
      LoadAllDevicesSkipsUnknown(ds[..|ds| - 1]);
    }
  }

  method LoadSingleDevice(store: Store, d: ConfigurationDevice)
    modifies store`trace
    ensures store.trace == old(store.trace) + LoadDeviceCalls(d)
  {
    var deviceType: int;
    if d.kind == "serial" {
      deviceType := CommManager.DEVICE_SERIAL;
    } else if d.kind == "network" {
      deviceType := CommManager.DEVICE_NETWORK;
    } else {
      return;
    }
    store.trace := store.trace + [NewDevice(deviceType, d.address, d.name)];
  }

  /** Load every persisted device in table order. */
  method LoadDevices(store: Store)
    modifies store`trace
    ensures store.trace == old(store.trace) + LoadAllDevices(store.current.devices)
  {
    var devices := store.current.devices;
    if devices == [] {
      return;
    }
    ghost var start := store.trace;
    var i := 0;
    while i < |devices|
      invariant 0 <= i <= |devices|
      invariant store.trace == start + LoadAllDevices(devices[..i])
    {
      assert devices[..i + 1][..i] == devices[..i];
      AppendAssoc(start, LoadAllDevices(devices[..i]), LoadDeviceCalls(devices[i]));
      LoadSingleDevice(store, devices[i]);
      i := i + 1;
    }
    assert devices[..i] == devices;
  }

  /** Append an entry as given, without validation or de-duplication, and save. */
  method AddDevice(store: Store, kind: string, address: string, name: string)
    modifies store
    ensures store.current == old(store.current).(devices := old(store.current).devices + [ConfigurationDevice(name, address, kind)])
    ensures store.trace == old(store.trace) + [SaveFile(ConfigurationToJson(store.current))]
  {
    var device := ConfigurationDevice(name, address, kind);
    store.current := store.current.(devices := store.current.devices + [device]);
    store.SaveConfiguration();
  }
}
