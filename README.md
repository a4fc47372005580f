# SimLink core in Dafny

SimLink connects hardware control panels to a flight simulator. Devices are
serial ports or TCP peers that send newline-terminated lines. Simulators are
Prepar3D through SimConnect, or X-Plane through a plugin socket. This project
models the part of SimLink that routes events between the two sides:

- the event registry and router, with its write and read tables, the active
  simulator, and the save-on-change and resources-connected flags
  (`EventMapper`);
- the device list manager (`CommManager`);
- the serial and TCP device transports with their newline framing
  (`SerialDevice`, `NetworkDevice`, `LineFraming`);
- the persisted configuration record and its JSON conversions
  (`ConfigurationTypedef`, `ConfigurationStore`);
- the tables kept in that record: mappings, devices and the simulator choice
  (`Mappings`, `Devices`, `Simulator`);
- the X-Plane command queue and text protocol (`XPlane`, `XPlaneConnection`);
- the SimConnect name-to-id registries (`SimConnectHandler`,
  `SimConnectDataReceiver`).

Each stateful C++ namespace or object is a Dafny `class`. Its globals or
members are real fields, and a ghost `trace` records every call it makes
outside its own state. Those calls go to another component, the simulator SDK,
a socket or port, or the configuration file. Components are not wired to each
other. A call into another component is a trace entry, and the callee's module
models what that call does. Pure code, such as the JSON conversions, string
splitting and decimal formatting, is datatypes, functions and lemmas.

Other modelling choices:

- A retry loop that waits for a socket, port or SDK connection to open runs
  over a given finite sequence of attempt outcomes. It requires that some
  attempt succeeds, which is the only case in which the C++ loop returns.
- Iteration over an `unordered_map` follows a given order that lists every
  key once.
- The Windows build guard is the constant `windows` of the registry.
- `std::stoi` is modelled as the C library reads a base-10 number: leading
  white space is skipped, an optional sign and the longest run of digits are
  read, and whatever follows is ignored, so " 1", "1.0" and "7abc" convert.
  `std::to_string` of integers is modelled exactly.

These quirks of the code are kept as written:

- `register_read` checks one key and stores under another.
- Selecting SimConnect only takes effect on Windows.
- The simulator type is zero-initialised, so it starts as SimConnect.
- `trigger_simconnect_event` inserts an unknown name with id 0.
- Every data request is declared as FLOAT64.
- The mapping datatype is never written to JSON.

Where `write_event` and `remove_device` misbehave, both the code as written and
the evidently intended behaviour are modelled. See "## Findings".

## Model

| member | source | states |
|---|---|---|
| EventMapper.Registry.constructor | src/EventMapper.cpp:28-35 | both tables start empty; the zero-initialised simulator type is SimConnect; both flags start false; the one-target invariant holds |
| EventMapper.Registry.RegisterWrite | src/EventMapper.cpp:40-69 | a name that is already mapped changes nothing and calls nothing; a fresh name stores exactly one target under itself and leaves other keys alone; it registers with the backend only when resources are connected and saves only when save-on-change is set; every list keeps length 1 |
| EventMapper.Registry.RegisterRead | src/EventMapper.cpp:75-104 | it rejects only a device-side name already used as a key, yet stores the entry under the simulator-side name, overwriting any entry there; the save carries the two names without the datatype |
| EventMapper.Registry.WriteEvent | src/EventMapper.cpp:110-139 | as written: an unmapped name makes no backend call; a mapped name makes one sim_write per target, in order, with the pairs `Dispatches` gives |
| EventMapper.Dispatches | src/EventMapper.cpp:124-137 | as written: exactly one pair per target (`DispatchesShape` states each pair's contents) |
| EventMapper.SimWriteCalls | src/EventMapper.cpp:144-167 | one backend call, except none under SimConnect outside Windows; under X-Plane the name and the raw parameter; under active SimConnect a trigger of that name with an int-range value, 0 for an empty parameter |
| EventMapper.DispatchCalls | src/EventMapper.cpp:124-137 | one backend call per dispatched pair, except none under SimConnect outside Windows |
| EventMapper.DispatchCallsContents | src/EventMapper.cpp:136-167 | under X-Plane the i-th call forwards the i-th pair's name and value unchanged; under active SimConnect the i-th call triggers the i-th pair's name |
| EventMapper.DispatchesShape | src/EventMapper.cpp:124-137 | one dispatch per target; each carries the target's device-side name; an explicit value goes to every target; an empty value takes the first target's default, and each later target inherits the previous value unless that value is empty |
| EventMapper.SingleTargetDispatch | src/EventMapper.cpp:124-137 | a one-target list, the only shape the public API builds, makes exactly one dispatch with the explicit value or else the default |
| EventMapper.WriteEventSendsDeviceName | src/EventMapper.cpp:136 | counterexample: button "BTN" mapped to "AP_MASTER" dispatches "BTN" where "AP_MASTER" was meant |
| EventMapper.WriteEventStickyDefault | src/EventMapper.cpp:130-134 | counterexample: with two targets whose defaults are "1" and "2", both get "1" |
| EventMapper.IntendedDispatches | src/EventMapper.cpp:124-137 | as intended: exactly one pair per target (`IntendedDispatchesSpec` states each pair's contents) |
| EventMapper.IntendedDispatchesSpec | src/EventMapper.cpp:124-137 | the intended dispatch sends target i's simulator-side name with the explicit value, or else that target's own default |
| EventMapper.Registry.WriteEventCorrected | src/EventMapper.cpp:110-139 | write_event as intended: one backend call per target, in order, following `IntendedDispatches` |
| EventMapper.Registry.SimWrite | src/EventMapper.cpp:144-167 | under an active SimConnect backend it triggers the event with the `std::stoi` value of the parameter, or 0 when the parameter is empty; under X-Plane it forwards name and parameter unchanged |
| EventMapper.Registry.HandleReadEvent | src/EventMapper.cpp:173-188 | an unmapped key broadcasts nothing; a mapped key broadcasts exactly "<device name>:<value>" once |
| EventMapper.Registry.DeregisterWrite | src/EventMapper.cpp:193-213 | a missing key is a no-op with no save; otherwise exactly that key is erased, the rest is unchanged, and the removal is saved when save-on-change is set |
| EventMapper.Registry.DeregisterRead | src/EventMapper.cpp:218-238 | the same for the read table |
| EventMapper.Registry.InternalRegisterWrite | src/EventMapper.cpp:243-255 | only a Windows build with SimConnect active registers a write target, under its simulator-side name |
| EventMapper.Registry.InternalRegisterRead | src/EventMapper.cpp:260-275 | subscribes the simulator-side name with the selected backend. With SimConnect selected: a SimConnect data request on Windows, nothing elsewhere. With X-Plane selected: an X-Plane read |
| EventMapper.Registry.RegisterAllEvents | src/EventMapper.cpp:280-300 | every target of every write list, lists in iteration order, then every read entry in iteration order |
| EventMapper.Registry.RegisterAllWrites | src/EventMapper.cpp:284-291 | the first loop: each write list in the given order |
| EventMapper.Registry.RegisterTargets | src/EventMapper.cpp:287-290 | the inner loop: each target of one list, in list order |
| EventMapper.Registry.RegisterAllReads | src/EventMapper.cpp:294-298 | the second loop: each read entry in the given order |
| EventMapper.TargetCalls | src/EventMapper.cpp:287-290 | one registration per target exactly when SimConnect is active on Windows, none otherwise; every call is a SimConnect event registration |
| EventMapper.AllWriteCalls | src/EventMapper.cpp:284-291 | no write registration unless SimConnect is active on Windows; every call is a SimConnect event registration |
| EventMapper.AllReadCalls | src/EventMapper.cpp:294-298 | one subscription per read key, except none under SimConnect outside Windows; under active SimConnect the i-th is the data request for the i-th key's simulator-side name and datatype |
| EventMapper.ConnectCalls | src/EventMapper.cpp:426-437 | one start-up call, except none under SimConnect outside Windows; X-Plane is always reached at 127.0.0.1 |
| EventMapper.TickCalls | src/EventMapper.cpp:396-406 | one poll, except none under SimConnect outside Windows; the X-Plane poll under X-Plane, the SimConnect poll otherwise |
| EventMapper.TargetCallsContents | src/EventMapper.cpp:284-291 | under X-Plane no write target is registered; under an active SimConnect backend each target is registered once, in order |
| EventMapper.AllReadCallsXPlane | src/EventMapper.cpp:294-298 | under X-Plane the read subscriptions are exactly the read keys, in iteration order |
| EventMapper.AllWriteCallsSingleTargets | src/EventMapper.cpp:284-291 | for one-target lists, one registration per key in iteration order under active SimConnect, none otherwise |
| EventMapper.Registry.GetAllWriteMappings | src/EventMapper.cpp:305-318 | the copy equals the write table |
| EventMapper.Registry.GetAllReadMappings | src/EventMapper.cpp:323-335 | the copy equals the read table |
| EventMapper.Registry.GetSimulator | src/EventMapper.cpp:340-353 | a non-empty name: "simconnect" exactly for SimConnect and "xplane" exactly for X-Plane |
| EventMapper.Registry.SetSimulator | src/EventMapper.cpp:358-389 | X-Plane always takes effect and SimConnect only in a Windows build; only a switch that took effect is saved, and only when save-on-change is set; the tables are unchanged |
| EventMapper.Registry.Tick | src/EventMapper.cpp:394-407 | with SimConnect selected: polls SimConnect on Windows and does nothing elsewhere; with X-Plane selected: polls X-Plane |
| EventMapper.Registry.SetSaveOnChange | src/EventMapper.cpp:412-417 | the flag becomes the given value |
| EventMapper.Registry.ConnectResources | src/EventMapper.cpp:422-443 | starts the selected backend (SimConnect only on Windows, nothing elsewhere; X-Plane at 127.0.0.1), sets resources-connected before registering, then registers every stored mapping |
| EventMapper.Registry.CloseResources | src/EventMapper.cpp:448-462 | closes the selected backend: with SimConnect selected, SimConnect on Windows and nothing elsewhere; with X-Plane selected, X-Plane |
| CommManager.DeviceTypeName | inc/comm/CommManager.h:30-42 | "serial" exactly for the serial code, "network" exactly for the network code, "" for any other code |
| CommManager.NewDeviceRecord | src/comm/CommManager.cpp:26-50 | a record exists exactly for the two known kinds and carries the given address and name; a serial record has baud 115200 |
| CommManager.Manager.constructor | src/comm/CommManager.cpp:20 | the device list starts empty |
| CommManager.Manager.NewDevice | src/comm/CommManager.cpp:26-50 | a known kind appends exactly one device at the end and registers the router callback on it; an unknown kind changes nothing |
| CommManager.Manager.CommCallback | src/comm/CommManager.cpp:56-76 | exactly one call, write_event(cmd, ""), with cmd unmodified |
| CommManager.Manager.ReadLoop | src/comm/CommManager.cpp:106-116 | connects each device in list order, then runs the I/O loop |
| CommManager.Manager.GetAllDevices | src/comm/CommManager.cpp:121-134 | returns the device list, in order |
| CommManager.Manager.RemoveDevice | src/comm/CommManager.cpp:139-154 | corrected removal: the list becomes `Without(old, address)` and the matches are closed in list order |
| CommManager.WithoutSpec | src/comm/CommManager.cpp:145-153 | removal keeps exactly the devices at other addresses and drops exactly the matching ones |
| CommManager.WithoutNoMatch | src/comm/CommManager.cpp:145-153 | with no match the list is unchanged and nothing is closed |
| CommManager.WithoutOneMatch | src/comm/CommManager.cpp:147-151 | with exactly one match, that device alone is closed and dropped, and the rest keep their order |
| CommManager.WithoutIdempotent | src/comm/CommManager.cpp:139-154 | a second removal of the same address changes nothing |
| CommManager.RemoveWalk | src/comm/CommManager.cpp:145-153 | as written: when the walk ends inside the vector, the list is no longer and holds a sub-multiset of the devices, every dropped device being at the address |
| CommManager.RemoveAsWritten | src/comm/CommManager.cpp:145-153 | the same for the walk over the whole list, from position 0 to the original length |
| CommManager.RemoveAsWrittenReadsPastEnd | src/comm/CommManager.cpp:145-153 | counterexample: with two devices, the first matching, the loop as written reads past the end of the shrunken vector |
| CommManager.RemoveWalkNoMatch | src/comm/CommManager.cpp:145-153 | as written, the loop is harmless when nothing matches |
| CommManager.Manager.SendAll | src/comm/CommManager.cpp:156-162 | write_data(message) once on each device, in list order |
| SerialDevice.SerialDevice.constructor | src/comm/SerialDevice.cpp:25-38 | records the address, descriptive name, serial kind and baud rate; the port starts closed |
| SerialDevice.SerialDevice.Connect | src/comm/SerialDevice.cpp:43-70 | retries opening until the port is open; only then sets the baud rate and starts reading |
| SerialDevice.SerialDevice.RegisterCallback | src/comm/SerialDevice.cpp:75-78 | a callback is installed |
| SerialDevice.SerialDevice.WriteData | src/comm/SerialDevice.cpp:83-101 | writes data + "\n" and returns the length of data plus one; a failed write reaches the caller as an error |
| SerialDevice.SerialDevice.ReadHandler | src/comm/SerialDevice.cpp:103-126 | the callback gets the first bytes_transferred - 1 characters; bytes_transferred characters are consumed; it reads again exactly when the port is still open |
| SerialDevice.SerialDevice.RunAsyncReadUntil | src/comm/SerialDevice.cpp:128-139 | starts one read |
| SerialDevice.SerialDevice.Close | src/comm/SerialDevice.cpp:141-144 | the port is closed |
| NetworkDevice.NetworkDevice.constructor | src/comm/NetworkDevice.cpp:25-36 | records the address, descriptive name and network kind; the socket starts closed |
| NetworkDevice.NetworkDevice.Connect | src/comm/NetworkDevice.cpp:41-68 | retries connecting to port 5465 until the socket is open, then starts reading |
| NetworkDevice.NetworkDevice.RegisterCallback | src/comm/NetworkDevice.cpp:73-76 | a callback is installed |
| NetworkDevice.NetworkDevice.WriteData | src/comm/NetworkDevice.cpp:81-106 | attempts data + "\n", swallows a write error, and returns the length of data plus one in both cases |
| NetworkDevice.NetworkDevice.ReadHandler | src/comm/NetworkDevice.cpp:108-131 | delivers the line without its delimiter, consumes bytes_transferred characters, and reads again exactly when the socket is open |
| NetworkDevice.NetworkDevice.RunAsyncReadUntil | src/comm/NetworkDevice.cpp:133-144 | starts one read |
| NetworkDevice.NetworkDevice.Close | src/comm/NetworkDevice.cpp:146-149 | the socket is closed |
| LineFraming.Framed | src/comm/SerialDevice.cpp:87 | the wire form is the data followed by exactly one '\n' |
| LineFraming.LineOf | src/comm/SerialDevice.cpp:111-113 | the delivered line has bytes_transferred - 1 characters and no delimiter |
| LineFraming.LineLengthReady | src/comm/SerialDevice.cpp:128-139 | async_read_until reports exactly the counts that put the first '\n' at index count - 1 |
| LineFraming.LineLengthBounds | src/comm/NetworkDevice.cpp:133-144 | a reported count lies between 1 and the buffer length |
| LineFraming.FramedRoundTrip | src/comm/NetworkDevice.cpp:85-124 | a framed message without '\n' is read back whole, and whatever follows it stays in the buffer |
| LineFraming.LinesOfFramedAll | src/comm/NetworkDevice.cpp:85-124 | messages framed back to back are delivered one per line, unchanged and in order |
| Retry.FirstSuccess | src/comm/SerialDevice.cpp:46-69 | the retry loop stops at the first successful attempt |
| ConfigurationTypedef.StringField | src/conf/ConfigurationTypedef.cpp:21-27 | an absent key leaves the field as it was; a present key needs a string and replaces the field with it |
| ConfigurationTypedef.DeviceFromJson | src/conf/ConfigurationTypedef.cpp:37-51 | each absent key leaves its field untouched |
| ConfigurationTypedef.MappingToJson | src/conf/ConfigurationTypedef.cpp:53-62 | always writes raw_name and sim_name, writes parameter exactly when it is non-empty, and never writes datatype |
| ConfigurationTypedef.MappingFromJson | src/conf/ConfigurationTypedef.cpp:64-78 | each absent key leaves its field untouched; the datatype is never read |
| ConfigurationTypedef.ConfigurationFromJson | src/conf/ConfigurationTypedef.cpp:117-135 | each absent top-level key leaves its part of the record untouched |
| ConfigurationTypedef.WithoutDataType | src/conf/ConfigurationTypedef.cpp:53-62 | what persists of a mapping list: the same entries with datatype cleared |
| ConfigurationTypedef.MappingRoundTrip | src/conf/ConfigurationTypedef.cpp:53-78 | reading a mapping back keeps both names; the parameter comes back when it was set and is otherwise the prior one; the datatype is the prior one |
| ConfigurationTypedef.MappingRoundTripDefault | src/conf/ConfigurationTypedef.cpp:53-78 | read back into a default record, only the datatype is lost |
| ConfigurationTypedef.DeviceRoundTrip | src/conf/ConfigurationTypedef.cpp:29-51 | a device reads back as name, address and type, whatever record it is read into |
| ConfigurationTypedef.MappingsRoundTrip | src/conf/ConfigurationTypedef.cpp:53-78 | a mapping list reads back entry by entry, without datatype |
| ConfigurationTypedef.DevicesRoundTrip | src/conf/ConfigurationTypedef.cpp:29-51 | a device list reads back unchanged |
| ConfigurationTypedef.MappingGroupRoundTrip | src/conf/ConfigurationTypedef.cpp:80-97 | both mapping tables come back without datatype, whatever group they are read into |
| ConfigurationTypedef.ConfigurationRoundTrip | src/conf/ConfigurationTypedef.cpp:112-135 | a saved configuration loads back with its devices, its mappings without datatype, its simulator type and its refresh token, whatever record it is loaded into |
| ConfigurationTypedef.ConfigurationIgnoresOtherKeys | src/conf/ConfigurationTypedef.cpp:117-135 | keys other than the four known ones do not affect loading |
| ConfigurationStore.DefaultConfigLoads | src/conf/Configuration.cpp:30 | the document written when no file exists loads as the value-initialised configuration |
| ConfigurationStore.Store.constructor | src/conf/Configuration.cpp:28 | the record starts value-initialised |
| ConfigurationStore.Store.SaveConfiguration | src/conf/Configuration.cpp:72-78 | writes the JSON of the current record |
| ConfigurationStore.SavedFileLoads | src/conf/Configuration.cpp:72-78 | a saved record loads back as itself, without the mappings' datatype |
| Mappings.LoadReadMapping | src/conf/Mappings.cpp:22-40 | registers the read mapping exactly when both names are set |
| Mappings.LoadWriteMapping | src/conf/Mappings.cpp:45-63 | registers the write mapping, with its parameter, exactly when both names are set |
| Mappings.LoadMappings | src/conf/Mappings.cpp:68-93 | loads every read entry in order, then every write entry in order; empty tables register nothing |
| Mappings.LoadAllReadsLoadable | src/conf/Mappings.cpp:78-84 | a table of fully named entries gives one read registration per entry, in order |
| Mappings.LoadAllWritesLoadable | src/conf/Mappings.cpp:86-92 | a table of fully named entries gives one write registration per entry, in order |
| Mappings.SaveNewReadMapping | src/conf/Mappings.cpp:98-130 | an existing raw name is a no-op with no save; otherwise exactly one entry with both names is appended and saved once |
| Mappings.SaveNewWriteMapping | src/conf/Mappings.cpp:135-168 | the same, and the entry carries the parameter |
| Mappings.WithMappingIdempotent | src/conf/Mappings.cpp:103-124 | a second save with the same raw name changes nothing |
| Mappings.WithMappingUnique | src/conf/Mappings.cpp:103-124 | if raw names were unique, they stay unique, and the name is present afterwards |
| Mappings.RemoveReadMapping | src/conf/Mappings.cpp:173-195 | erases the first read entry with that raw name and saves once; with no match nothing changes and nothing is saved |
| Mappings.RemoveWriteMapping | src/conf/Mappings.cpp:200-222 | the same for the write table |
| Mappings.RemoveFirstAt | src/conf/Mappings.cpp:178-194 | removal takes out exactly the first match and keeps the others in order |
| Mappings.RemoveFirstNoMatch | src/conf/Mappings.cpp:178-194 | with no match the table is unchanged |
| Mappings.RemoveUndoesAppend | src/conf/Mappings.cpp:98-195 | removing a freshly appended entry restores the table |
| Mappings.RemoveFirstUnique | src/conf/Mappings.cpp:178-194 | in a table with unique raw names, one removal leaves no entry of that name |
| Mappings.RemoveFirstSubset | src/conf/Mappings.cpp:178-194 | removal adds no entry |
| Devices.DeviceTypeCode | src/conf/Devices.cpp:25-39 | "serial" and "network" map to their kinds; every other string maps to nothing |
| Devices.DeviceTypeNameRoundTrip | src/conf/Devices.cpp:25-33 | the type names the device manager reports are exactly the ones loading accepts, each for its own kind |
| Devices.LoadSingleDevice | src/conf/Devices.cpp:19-44 | creates the device of the named kind, or nothing for an unknown type |
| Devices.LoadDevices | src/conf/Devices.cpp:49-68 | one load per entry, in table order; an empty table creates nothing |
| Devices.LoadAllDevicesKnown | src/conf/Devices.cpp:54-66 | a table of known kinds creates one device per entry, in order |
| Devices.LoadAllDevicesSkipsUnknown | src/conf/Devices.cpp:35-39 | entries of unknown type create nothing |
| Devices.AddDevice | src/conf/Devices.cpp:73-86 | appends exactly one entry as given, without validation or de-duplication, then saves |
| Simulator.SimulatorKind | src/conf/Simulator.cpp:32-64 | "simconnect" and "xplane" map to their kinds; an empty or other string maps to nothing |
| Simulator.SimulatorNameRoundTrip | src/conf/Simulator.cpp:46-58 | the names set_simulator persists map back to the same kind, and only they do |
| Simulator.SaveSimulatorType | src/conf/Simulator.cpp:18-27 | sets the type to the given string, unvalidated, and saves once |
| Simulator.LoadSimulator | src/conf/Simulator.cpp:32-64 | calls set_simulator for a recognised type, and for nothing else |
| XPlane.WriteMessageFields | src/xp/xplane.cpp:65-79 | the queued message is "write:<name>:<parameter>" framed; with ':'-free fields it splits back into its three parts |
| XPlane.TicksSendPrefix | src/xp/xplane.cpp:44-60 | k ticks send the first k queued messages, or all of them if fewer are queued, and leave the rest |
| XPlane.TicksCompose | src/xp/xplane.cpp:44-60 | a + b ticks act as a ticks followed by b ticks |
| XPlane.Fifo | src/xp/xplane.cpp:44-79 | after queued messages, as many ticks send them all in enqueue order and empty the queue |
| XPlane.CommandQueue.constructor | src/xp/xplane.cpp:15 | the queue starts empty |
| XPlane.CommandQueue.InitXPlane | src/xp/xplane.cpp:21-25 | connects to the given address |
| XPlane.CommandQueue.RegisterRead | src/xp/xplane.cpp:30-34 | sends "read:<ref>\n" at once, bypassing the queue |
| XPlane.CommandQueue.CloseXPlane | src/xp/xplane.cpp:36-39 | disconnects |
| XPlane.CommandQueue.Tick | src/xp/xplane.cpp:44-60 | an empty queue sends nothing; otherwise the front message is sent and removed |
| XPlane.CommandQueue.TriggerXPlaneEvent | src/xp/xplane.cpp:65-79 | appends exactly the formatted write message to the back of the queue and sends nothing |
| XPlaneConnection.ReadEventOfFields | src/xp/xpnetconn.cpp:80-88 | "p:r:v" with ':'-free fields reaches the router as ("p:r", "v") |
| XPlaneConnection.ReadEventDropsRest | src/xp/xpnetconn.cpp:87 | text after a third ':' is discarded |
| XPlaneConnection.Connection.constructor | src/xp/xpnetconn.cpp:37-65 | the socket starts closed with an empty buffer |
| XPlaneConnection.Connection.Connect | src/xp/xpnetconn.cpp:37-65 | retries port 5465 until the socket is open, then starts reading and the I/O thread |
| XPlaneConnection.Connection.Disconnect | src/xp/xpnetconn.cpp:70-75 | the socket is closed |
| XPlaneConnection.Connection.HandleReadEventLine | src/xp/xpnetconn.cpp:80-88 | a line of three or more fields goes to the router as fields 0 and 1 joined by ':', then field 2 |
| XPlaneConnection.Connection.ReadHandler | src/xp/xpnetconn.cpp:93-116 | the line without its delimiter is handled, bytes_transferred characters are consumed, and it reads again exactly when the socket is open |
| XPlaneConnection.Connection.RunAsyncReadUntil | src/xp/xpnetconn.cpp:121-128 | starts one read |
| XPlaneConnection.Connection.SendMessage | src/xp/xpnetconn.cpp:133-150 | writes the message as given; an error is only logged |
| SimConnectHandler.RegisterEventInverse | src/simconnect/SimConnectHandler.cpp:74-97 | registration keeps the forward and inverse maps exact inverses; a fresh name gets the forward map's size as its id |
| SimConnectHandler.RegistrationInverse | src/simconnect/SimConnectHandler.cpp:86-88 | under registration alone the inverse map is exactly the inverse of the forward map |
| SimConnectHandler.RegistrationOrder | src/simconnect/SimConnectHandler.cpp:86-88 | distinct names get ids 0..n-1 in registration order, in both maps |
| SimConnectHandler.NotificationOfRegistered | src/simconnect/SimConnectHandler.cpp:39-52 | a registered event's notification reaches the router as "simconnect:<name>" with the decimal data, which parses back to the data |
| SimConnectHandler.TriggerUnregistered | src/simconnect/SimConnectHandler.cpp:143-160 | triggering an unknown name breaks the inverse property and transmits id 0; when any event is registered, id 0 is the first registered event, which belongs to another name; when none is, id 0 belongs to no event |
| SimConnectHandler.OpenLoopStop | src/simconnect/SimConnectHandler.cpp:217-220 | without the start-up flag the loop stops after the first attempt; with it, at the first attempt that succeeded or saw the flag cleared, and no earlier attempt did either |
| SimConnectHandler.Handler.constructor | src/simconnect/SimConnectHandler.cpp:26-34 | empty maps, start-up flag set |
| SimConnectHandler.Handler.RegisterSimconnectEvent | src/simconnect/SimConnectHandler.cpp:74-97 | a mapped name changes nothing and calls nothing; a fresh name is mapped both ways under the next id and announced to the SDK; the inverse property is kept |
| SimConnectHandler.Handler.RegisterSimconnectNotification | src/simconnect/SimConnectHandler.cpp:58-69 | registers the name idempotently, then adds its id to the notification group |
| SimConnectHandler.Handler.HandleInternalSimconnectNotification | src/simconnect/SimConnectHandler.cpp:39-52 | an unknown id does nothing; a known id forwards "simconnect:<name>" with the decimal data |
| SimConnectHandler.Handler.TriggerSimconnectEvent | src/simconnect/SimConnectHandler.cpp:143-160 | transmits the mapped id; an unknown name is inserted with id 0 into the forward map only |
| SimConnectHandler.Handler.InitSimconnectEvents | src/simconnect/SimConnectHandler.cpp:214-231 | retries opening until it succeeds or the flag is cleared; it sets the notification priority only if the flag is still set, and then the last open succeeded |
| SimConnectHandler.Handler.CloseSimconnect | src/simconnect/SimConnectHandler.cpp:243-249 | clears the start-up flag and closes |
| SimConnectHandler.Handler.Tick | src/simconnect/SimConnectHandler.cpp:251-254 | dispatches pending SDK messages once |
| SimConnectDataReceiver.LittleEndianBound | src/simconnect/SimConnectDataReceiver.cpp:48-63 | an n-byte little-endian value is below 256^n |
| SimConnectDataReceiver.EncodeUnsignedRoundTrip | src/simconnect/SimConnectDataReceiver.cpp:48-63 | decoding n encoded bytes gives the value back |
| SimConnectDataReceiver.SignedAtRange | src/simconnect/SimConnectDataReceiver.cpp:48-63 | a two's-complement read of n bytes lies in the signed n-byte range |
| SimConnectDataReceiver.SignedRoundTrip | src/simconnect/SimConnectDataReceiver.cpp:48-63 | the two's-complement read of an encoded value gives it back |
| SimConnectDataReceiver.Int32ValueRoundTrip | src/simconnect/SimConnectDataReceiver.cpp:48-55 | an INT32 payload's text is decimal and parses back to the value |
| SimConnectDataReceiver.Int64ValueRoundTrip | src/simconnect/SimConnectDataReceiver.cpp:56-63 | an INT64 payload's text is decimal and reads back as the value |
| SimConnectDataReceiver.RequestsOrder | src/simconnect/SimConnectDataReceiver.cpp:93-109 | request ids are dense, 0..n-1 in registration order, each stored as (name, FLOAT64) |
| SimConnectDataReceiver.UnknownRequestDensity | src/simconnect/SimConnectDataReceiver.cpp:36 | looking up an unknown id inserts a default entry, which keeps the ids dense only when that id is the next one |
| SimConnectDataReceiver.UnknownRequestName | src/simconnect/SimConnectDataReceiver.cpp:36-87 | an unknown request id yields the event name "simconnect:" and an empty value |
| SimConnectDataReceiver.Receiver.constructor | src/simconnect/SimConnectDataReceiver.cpp:24 | no requests yet |
| SimConnectDataReceiver.Receiver.RegisterSimconnectDatareq | src/simconnect/SimConnectDataReceiver.cpp:93-109 | the id is the map size; stores (name, FLOAT64) whatever datatype the caller meant; declares the definition and requests the data; density is kept |
| SimConnectDataReceiver.Receiver.HandleReceivedSimobjectData | src/simconnect/SimConnectDataReceiver.cpp:30-88 | exactly one read event, named "simconnect:<stored name>", with the decimal value for integer types and "" for types matching no case; the lookup inserts a default entry for an unknown id |
| Text.Split | src/xp/xpnetconn.cpp:85 | at least one piece, and no piece contains the separator |
| Text.SplitJoin | src/xp/xpnetconn.cpp:85-87 | splitting a join of separator-free pieces gives the pieces back |
| Text.JoinSplit | src/xp/xpnetconn.cpp:85-87 | joining the pieces of a split gives the input back |
| Text.DecimalRoundTrip | src/simconnect/SimConnectHandler.cpp:51 | the decimal text of any integer is numeric and reads back as that integer |
| Text.StoiOfToString | src/EventMapper.cpp:159 | std::stoi accepts std::to_string of any int and inverts it |
| Text.Stoi | src/EventMapper.cpp:159 | the result lies in the range of a 32-bit int |
| Text.SkipSpace | src/EventMapper.cpp:159 | std::stoi's leading white space: a suffix of the input, everything dropped is white space, and what is left starts with no white space |
| Text.DigitRun | src/EventMapper.cpp:159 | the digit run std::stoi reads: only digits, and it stops at the first non-digit |
| Text.StoiReadsPrefix | src/EventMapper.cpp:159 | white space, an optional sign and digits followed by any non-digit text convert to the value of the sign and digits |
| Text.StoiOfNumeric | src/EventMapper.cpp:159 | a strictly numeric string is read whole |
| Text.StoiRejectsNoDigits | src/EventMapper.cpp:159 | with no digit after the white space and sign, std::stoi has no number to read (it throws) |
| Text.StoiSkipsLeadingSpace | src/EventMapper.cpp:159 | leading white space changes neither whether the text converts nor its value |
| Text.StoiIgnoresTrailingText | src/EventMapper.cpp:159 | "1" followed by any text not starting with a digit ("1.0", "1abc") converts to 1 |
| Text.StoiSkipsSpace | src/EventMapper.cpp:159 | white space, then "1", then such text converts to 1 (" 1") |
| Text.StoiRejectsWord | src/EventMapper.cpp:159 | "abc" does not convert |

## Left out

- Boost.Asio I/O: opening and connecting sockets and ports, writes, `async_read_until` and the io_context. A transport is an `isOpen` flag and a receive buffer. The bytes Boost.Asio appends come from an environment step, `Receive`. The outcome of each open or connect attempt is a parameter.
- The one-second sleeps in the retry loops. A loop that never finds an open port does not return in the C++. The model requires a successful attempt instead of using an unbounded loop.
- Threads and mutexes (the reactor thread, the X-Plane send lock, the I/O thread). Everything is sequential.
- `InitSimconnectEvents`: a `close_simconnect` from another thread during the open loop is modelled by the `closedMeanwhile` flag of each attempt. The other thread's own SDK call is not in this trace.
- SimConnect SDK calls made by the modelled operations are trace entries; their effect inside the simulator is outside the program.
- The routing in `simconnect_dispatch_proc` (src/simconnect/SimConnectHandler.cpp:165-209) is not modelled: `Handler.Tick` records only the `CallDispatch`. Its two targets are modelled on their own, `SimConnectHandler.Handler.HandleInternalSimconnectNotification` for EVENT packets and `SimConnectDataReceiver.Receiver.HandleReceivedSimobjectData` for SIMOBJECT_DATA packets. The DWORD-to-int cast of the event data and the logging of EXCEPTION and QUIT packets are left out.
- `simconnect_map_client_data_name` and `simconnect_add_to_client_data_definition` (src/simconnect/SimConnectHandler.cpp:102-118) are not modelled. They are entry points for add-ons, and no modelled component calls them.
- Float decoding of FLOAT32 and FLOAT64 payloads: floating point. The text those cases produce is a parameter of `HandleReceivedSimobjectData`. An observation, not executed: the FLOAT64 case (src/simconnect/SimConnectDataReceiver.cpp:72-79) reads the payload through a `float*`. Every request is declared FLOAT64 (src/simconnect/SimConnectDataReceiver.cpp:101), so every SimConnect read value would come from the first four bytes of a double read as a float.
- `SimConnectDataReceiver.Receiver.HandleReceivedSimobjectData`: it requires (`Readable`) that the payload holds at least as many bytes as the declared INT32 or INT64 needs. The C++ trusts SimConnect to deliver them.
- `std::stoi`'s exceptions (`invalid_argument` when no digit follows the white space and sign, `out_of_range` beyond a 32-bit int) are not modelled: `SimWrite` requires a parameter that converts (`Text.StoiDefined`) under an active SimConnect backend.
- `HandleReadEventLine`: a line with fewer than three ':'-separated fields indexes out of range in the C++. The model requires three fields.
- `ReadHandler` (all three transports): the read error code is ignored by the C++. The model requires the count `async_read_until` guarantees (`LineReady`) and an installed callback.
- src/conf/Configuration.cpp file reading, file creation, JSON parsing and platform paths: I/O. `load_configuration` is not part of this model beyond its order: simulator, then mappings, then devices, each modelled by its own operation.
- src/iface/LuaInterface.cpp (an embedded Lua runtime), src/SimLink.cpp (the process main loop and logger set-up) and src/simconnect/SimConnectNotificationReceiver.cpp (it only logs) are not part of this model.
- inc/util.h: `map_contains` is map membership; `file_exists` is file I/O.
- Logging through spdlog is not recorded.
- `register_simconnect_datareq` is called from the router with a datatype that it does not take. The model's router entry carries the datatype, and the receiver takes only the name and always uses FLOAT64.
- `CommManager.Manager.SendAll`: it records one write per device. In the C++, `boost::asio::write` in the serial write (src/comm/SerialDevice.cpp:97) throws on failure and nothing catches it. One failing serial device therefore ends the loop at src/comm/CommManager.cpp:158-161: later devices never get the message, and the exception escapes into `handle_read_event` (src/EventMapper.cpp:187). `SerialDevice.SerialDevice.WriteData` returns that failure as a value instead, and the devices are not wired to the manager.
- `CommManager.Manager`: the C++ list holds `Device*` pointers that the transports and the callers of `get_all_devices` share. The model's list holds value records, so pointer identity and aliasing are not modelled: a device closed through one pointer is not seen as closed through another copy.

## Findings

| source | as written | input that shows it | evidently intended | confidence | as-written member | corrected member |
|---|---|---|---|---|---|---|
| src/EventMapper.cpp:130-137 | write_event passes each target's device-side `event_name` to sim_write, and an empty value replaced by one target's default stays replaced for the later targets | "BTN" mapped to ("AP_MASTER", default "1"), triggered with "": it dispatches ("BTN", "1"); two targets with defaults "1" and "2" both get "1" | each target's `sim_event_name`, with the trigger's value or else that target's own default | not executed | EventMapper.Registry.WriteEvent (EventMapper.WriteEventSendsDeviceName, EventMapper.WriteEventStickyDefault) | EventMapper.Registry.WriteEventCorrected (EventMapper.IntendedDispatchesSpec) |
| src/comm/CommManager.cpp:145-153 | remove_device erases from the vector inside a range-for over it and keeps walking to the end position taken before the erase | devices at "10.0.0.2" then "COM3", removing "10.0.0.2": after the erase the walk reads past the end of the one-element vector | close and drop every device at the address, and keep the rest in order | not executed | CommManager.RemoveAsWritten (CommManager.RemoveAsWrittenReadsPastEnd) | CommManager.Manager.RemoveDevice (CommManager.WithoutSpec, CommManager.WithoutOneMatch) |

Because of the first finding, a SimConnect build running the code as written
calls `trigger_simconnect_event` with a device-side name that was never
registered. That name gets id 0. When any simulator event is registered, the
call therefore transmits the first registered one; when none is (a mapping
stored before the resources were connected), it transmits an id no event has
(`SimConnectHandler.TriggerUnregistered`).
