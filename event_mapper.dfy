/**
 * The event registry and router (src/EventMapper.cpp).
 *
 * The C++ keeps its state in namespace-level globals; here they are the
 * fields of one `Registry` object. Everything the router does outside its
 * own state (calls into the configuration store, the device manager, the
 * SimConnect and X-Plane backends) is appended to the ghost `trace` as a
 * `Call`; what each of those calls does is modelled by the callee's module.
 */
module EventMapper {
  import opened Text
  import opened SeqLemmas

  /** SIMULATOR_TYPE. SimConnect is the first enumerator, so a zero-initialised global holds it. */
  datatype SimulatorType = SimConnect | XPlane

  /** One simulator target of a device-side write trigger. */
  datatype WriteEvent = WriteTarget(eventName: string, simEventName: string, parameter: string)

  /** A simulator value forwarded to the devices under a device-side name. */
  datatype ReadEvent = ReadEvent(eventName: string, simEventName: string, dataType: string)

  /** The outbound calls the router makes into other components. */
  datatype Call =
    | SaveNewWriteMapping(rawName: string, simName: string, parameter: string)
    | SaveNewReadMapping(rawName: string, simName: string)
    | RemoveWriteMapping(rawName: string)
    | RemoveReadMapping(rawName: string)
    | SaveSimulatorType(simulatorType: string)
    | RegisterSimconnectEvent(eventName: string)
    | RegisterSimconnectDatareq(eventName: string, dataType: string)
    | RegisterXPlaneRead(ref: string)
    | TriggerSimconnectEvent(eventName: string, eventData: int)
    | TriggerXPlaneEvent(eventName: string, parameter: string)
    | SendAll(message: string)
    | InitSimconnectEvents
    | InitXPlane(remoteAddress: string)
    | SimconnectTick
    | XPlaneTick
    | CloseSimconnect
    | CloseXPlane

  /** The address init_xplane is given: X-Plane is always on the local host. */
  const XPLANE_HOST: string := "127.0.0.1"

  /** The configuration string of a simulator kind, as set_simulator persists it and get_simulator returns it. */
  function SimulatorName(kind: SimulatorType): string
  {
    match kind
    case SimConnect => "simconnect"
    case XPlane => "xplane"
  }

  /** Whether the active backend is the SimConnect one and the build includes it. */
  predicate SimConnectActive(kind: SimulatorType, windows: bool)
  {
    kind == SimConnect && windows
  }

  /** internal_register_write: only a SimConnect build registers write targets with its backend. */
  function InternalWriteCalls(kind: SimulatorType, windows: bool, evt: WriteEvent): seq<Call>
  {
    if SimConnectActive(kind, windows) then [RegisterSimconnectEvent(evt.simEventName)] else []
  }

  /** internal_register_read: subscribe the simulator-side name with the active backend. */
  function InternalReadCalls(kind: SimulatorType, windows: bool, evt: ReadEvent): seq<Call>
  {
    match kind
    case SimConnect => if windows then [RegisterSimconnectDatareq(evt.simEventName, evt.dataType)] else []
    case XPlane => [RegisterXPlaneRead(evt.simEventName)]
  }

  /** The parameters sim_write can convert: under SimConnect a non-empty one must be a valid int. */
  predicate SimWriteDefined(kind: SimulatorType, windows: bool, parameter: string)
  {
    SimConnectActive(kind, windows) && parameter != "" ==> StoiDefined(parameter)
  }

  /** sim_write's backend call: SimConnect takes an integer (empty means 0), X-Plane the raw text. */
  function SimWriteCalls(kind: SimulatorType, windows: bool, name: string, parameter: string): (calls: seq<Call>)
    requires SimWriteDefined(kind, windows, parameter)
    ensures |calls| == (if kind == SimConnect && !windows then 0 else 1)
    ensures kind == XPlane ==> calls[0] == TriggerXPlaneEvent(name, parameter)
    ensures SimConnectActive(kind, windows) ==>
      && calls[0].TriggerSimconnectEvent? && calls[0].eventName == name
      && INT32_MIN <= calls[0].eventData <= INT32_MAX
      && (parameter == "" ==> calls[0].eventData == 0)
  {
    match kind
    case SimConnect =>
      if windows then [TriggerSimconnectEvent(name, if parameter == "" then 0 else Stoi(parameter))] else []
    case XPlane => [TriggerXPlaneEvent(name, parameter)]
  }

  /**
   * The (name, value) pairs write_event hands to sim_write, one per target, in
   * target order, as the code is written: the name is the target's device-side
   * `eventName`, and an empty value, once replaced by a target's default,
   * stays replaced for the targets after it.
   */
  function Dispatches(targets: seq<WriteEvent>, value: string): (ds: seq<(string, string)>)
    ensures |ds| == |targets|
    decreases |targets|
  {
    if targets == [] then []
    else
      var v := if value == "" then targets[0].parameter else value;
      [(targets[0].eventName, v)] + Dispatches(targets[1..], v)
  }

  predicate DispatchesDefined(kind: SimulatorType, windows: bool, ds: seq<(string, string)>)
  {
    forall i :: 0 <= i < |ds| ==> SimWriteDefined(kind, windows, ds[i].1)
  }

  /** The backend calls of a run of sim_write calls. */
  function DispatchCalls(kind: SimulatorType, windows: bool, ds: seq<(string, string)>): (calls: seq<Call>)
    requires DispatchesDefined(kind, windows, ds)
    ensures |calls| == (if kind == SimConnect && !windows then 0 else |ds|)
    decreases |ds|
  {
    if ds == [] then []
    else SimWriteCalls(kind, windows, ds[0].0, ds[0].1) + DispatchCalls(kind, windows, ds[1..])
  }

  /** The registration calls for the targets of one write list. */
  function TargetCalls(kind: SimulatorType, windows: bool, targets: seq<WriteEvent>): (calls: seq<Call>)
    ensures |calls| == (if SimConnectActive(kind, windows) then |targets| else 0)
    ensures forall i :: 0 <= i < |calls| ==> calls[i].RegisterSimconnectEvent?
    decreases |targets|
  {
    if targets == [] then []
    else InternalWriteCalls(kind, windows, targets[0]) + TargetCalls(kind, windows, targets[1..])
  }

  /** `order` lists every key of the map exactly once: an iteration order of an unordered_map. */
  predicate IsEnumeration<V>(order: seq<string>, m: map<string, V>)
  {
    && (forall i, j :: 0 <= i < j < |order| ==> order[i] != order[j])
    && (forall i :: 0 <= i < |order| ==> order[i] in m)
    && (forall k :: k in m ==> k in order)
  }

  /** register_all_events' first loop: every target of every write list, lists in `order`. */
  function AllWriteCalls(kind: SimulatorType, windows: bool, m: map<string, seq<WriteEvent>>, order: seq<string>): (calls: seq<Call>)
    requires forall i :: 0 <= i < |order| ==> order[i] in m
    ensures !SimConnectActive(kind, windows) ==> calls == []
    ensures forall i :: 0 <= i < |calls| ==> calls[i].RegisterSimconnectEvent?
    decreases |order|
  {
    if order == [] then []
    else TargetCalls(kind, windows, m[order[0]]) + AllWriteCalls(kind, windows, m, order[1..])
  }

  /** register_all_events' second loop: every read entry, in `order`. */
  function AllReadCalls(kind: SimulatorType, windows: bool, m: map<string, ReadEvent>, order: seq<string>): (calls: seq<Call>)
    requires forall i :: 0 <= i < |order| ==> order[i] in m
    ensures |calls| == (if kind == SimConnect && !windows then 0 else |order|)
    ensures SimConnectActive(kind, windows) ==> forall i :: 0 <= i < |order| ==>
      calls[i] == RegisterSimconnectDatareq(m[order[i]].simEventName, m[order[i]].dataType)
    decreases |order|
  {
    if order == [] then []
    else InternalReadCalls(kind, windows, m[order[0]]) + AllReadCalls(kind, windows, m, order[1..])
  }

  /** The backend start-up call of connect_resources. */
  function ConnectCalls(kind: SimulatorType, windows: bool): (calls: seq<Call>)
    ensures |calls| == (if kind == SimConnect && !windows then 0 else 1)
    ensures kind == XPlane ==> calls[0].InitXPlane? && calls[0].remoteAddress == "127.0.0.1"
  {
    match kind
    case SimConnect => if windows then [InitSimconnectEvents] else []
    case XPlane => [InitXPlane(XPLANE_HOST)]
  }

  /** The backend poll of tick; the C++ default branch is the X-Plane one. */
  function TickCalls(kind: SimulatorType, windows: bool): (calls: seq<Call>)
    ensures |calls| == (if kind == SimConnect && !windows then 0 else 1)
    ensures calls != [] ==> calls[0] == (if kind == XPlane then XPlaneTick else SimconnectTick)
  {
    match kind
    case SimConnect => if windows then [SimconnectTick] else []
    case XPlane => [XPlaneTick]
  }

  lemma DispatchesStep(targets: seq<WriteEvent>, i: nat, value: string)
    requires i < |targets|
    ensures Dispatches(targets[i..], value) ==
      [(targets[i].eventName, if value == "" then targets[i].parameter else value)]
      + Dispatches(targets[i + 1..], if value == "" then targets[i].parameter else value)
  {
    assert targets[i..][1..] == targets[i + 1..];
  }

  lemma IntendedDispatchesStep(targets: seq<WriteEvent>, i: nat, value: string)
    requires i < |targets|
    ensures IntendedDispatches(targets[i..], value) ==
      [(targets[i].simEventName, if value == "" then targets[i].parameter else value)]
      + IntendedDispatches(targets[i + 1..], value)
  {
    assert targets[i..][1..] == targets[i + 1..];
  }

  lemma DispatchCallsCons(kind: SimulatorType, windows: bool, d: (string, string), rest: seq<(string, string)>)
    ensures DispatchesDefined(kind, windows, [d] + rest) <==>
      SimWriteDefined(kind, windows, d.1) && DispatchesDefined(kind, windows, rest)
    ensures DispatchesDefined(kind, windows, [d] + rest) ==>
      DispatchCalls(kind, windows, [d] + rest) == SimWriteCalls(kind, windows, d.0, d.1) + DispatchCalls(kind, windows, rest)
  {
    var ds := [d] + rest;
    assert ds[0] == d && ds[1..] == rest;
    assert forall i :: 0 <= i < |rest| ==> ds[i + 1] == rest[i];
  }

  /** One iteration of write_event's loop: the first call, and what is left. */
  lemma DispatchStepCalls(kind: SimulatorType, windows: bool, targets: seq<WriteEvent>, i: nat, value: string)
    requires i < |targets|
    requires DispatchesDefined(kind, windows, Dispatches(targets[i..], value))
    ensures var v := if value == "" then targets[i].parameter else value;
      && SimWriteDefined(kind, windows, v)
      && DispatchesDefined(kind, windows, Dispatches(targets[i + 1..], v))
      && DispatchCalls(kind, windows, Dispatches(targets[i..], value))
         == SimWriteCalls(kind, windows, targets[i].eventName, v) + DispatchCalls(kind, windows, Dispatches(targets[i + 1..], v))
  {
    var v := if value == "" then targets[i].parameter else value;
    DispatchesStep(targets, i, value);
    DispatchCallsCons(kind, windows, (targets[i].eventName, v), Dispatches(targets[i + 1..], v));
  }

  lemma IntendedDispatchStepCalls(kind: SimulatorType, windows: bool, targets: seq<WriteEvent>, i: nat, value: string)
    requires i < |targets|
    requires DispatchesDefined(kind, windows, IntendedDispatches(targets[i..], value))
    ensures var v := if value == "" then targets[i].parameter else value;
      && SimWriteDefined(kind, windows, v)
      && DispatchesDefined(kind, windows, IntendedDispatches(targets[i + 1..], value))
      && DispatchCalls(kind, windows, IntendedDispatches(targets[i..], value))
         == SimWriteCalls(kind, windows, targets[i].simEventName, v) + DispatchCalls(kind, windows, IntendedDispatches(targets[i + 1..], value))
  {
    var v := if value == "" then targets[i].parameter else value;
    IntendedDispatchesStep(targets, i, value);
    DispatchCallsCons(kind, windows, (targets[i].simEventName, v), IntendedDispatches(targets[i + 1..], value));
  }

  /** One iteration of write_event's loop, stated over the trace before it: what is left to dispatch after the next call. */
  lemma WriteEventStep(kind: SimulatorType, windows: bool, targets: seq<WriteEvent>, i: nat, value: string,
                       start: seq<Call>, total: seq<Call>, before: seq<Call>)
    requires i < |targets|
    requires DispatchesDefined(kind, windows, Dispatches(targets[i..], value))
    requires start + total == before + DispatchCalls(kind, windows, Dispatches(targets[i..], value))
    ensures var v := if value == "" then targets[i].parameter else value;
      && SimWriteDefined(kind, windows, v)
      && DispatchesDefined(kind, windows, Dispatches(targets[i + 1..], v))
      && start + total == before + SimWriteCalls(kind, windows, targets[i].eventName, v)
                                  + DispatchCalls(kind, windows, Dispatches(targets[i + 1..], v))
  {
    var v := if value == "" then targets[i].parameter else value;
    DispatchStepCalls(kind, windows, targets, i, value);
    AppendAssoc(before, SimWriteCalls(kind, windows, targets[i].eventName, v), DispatchCalls(kind, windows, Dispatches(targets[i + 1..], v)));
  }

  /** The same for the intended loop, where the value is not carried over. */
  lemma IntendedWriteEventStep(kind: SimulatorType, windows: bool, targets: seq<WriteEvent>, i: nat, value: string,
                               start: seq<Call>, total: seq<Call>, before: seq<Call>)
    requires i < |targets|
    requires DispatchesDefined(kind, windows, IntendedDispatches(targets[i..], value))
    requires start + total == before + DispatchCalls(kind, windows, IntendedDispatches(targets[i..], value))
    ensures var v := if value == "" then targets[i].parameter else value;
      && SimWriteDefined(kind, windows, v)
      && DispatchesDefined(kind, windows, IntendedDispatches(targets[i + 1..], value))
      && start + total == before + SimWriteCalls(kind, windows, targets[i].simEventName, v)
                                  + DispatchCalls(kind, windows, IntendedDispatches(targets[i + 1..], value))
  {
    var v := if value == "" then targets[i].parameter else value;
    IntendedDispatchStepCalls(kind, windows, targets, i, value);
    AppendAssoc(before, SimWriteCalls(kind, windows, targets[i].simEventName, v), DispatchCalls(kind, windows, IntendedDispatches(targets[i + 1..], value)));
  }

  lemma TargetCallsStep(kind: SimulatorType, windows: bool, targets: seq<WriteEvent>, j: nat)
    requires j < |targets|
    ensures TargetCalls(kind, windows, targets[j..]) ==
      InternalWriteCalls(kind, windows, targets[j]) + TargetCalls(kind, windows, targets[j + 1..])
  {
    assert targets[j..][1..] == targets[j + 1..];
  }

  lemma AllWriteCallsStep(kind: SimulatorType, windows: bool, m: map<string, seq<WriteEvent>>, order: seq<string>, i: nat)
    requires i < |order|
    requires forall j :: 0 <= j < |order| ==> order[j] in m
    ensures AllWriteCalls(kind, windows, m, order[i..]) ==
      TargetCalls(kind, windows, m[order[i]]) + AllWriteCalls(kind, windows, m, order[i + 1..])
  {
    assert order[i..][1..] == order[i + 1..];
  }

  lemma AllReadCallsStep(kind: SimulatorType, windows: bool, m: map<string, ReadEvent>, order: seq<string>, i: nat)
    requires i < |order|
    requires forall j :: 0 <= j < |order| ==> order[j] in m
    ensures AllReadCalls(kind, windows, m, order[i..]) ==
      InternalReadCalls(kind, windows, m[order[i]]) + AllReadCalls(kind, windows, m, order[i + 1..])
  {
    assert order[i..][1..] == order[i + 1..];
  }

  /** What write_event dispatches: one pair per target, the value rule as in the code. */
  lemma {:induction false} DispatchesShape(targets: seq<WriteEvent>, value: string)
    ensures |Dispatches(targets, value)| == |targets|
    ensures forall i :: 0 <= i < |targets| ==> Dispatches(targets, value)[i].0 == targets[i].eventName
    ensures value != "" ==> forall i :: 0 <= i < |targets| ==> Dispatches(targets, value)[i].1 == value
    ensures value == "" && targets != [] ==> Dispatches(targets, value)[0].1 == targets[0].parameter
    ensures forall i :: 0 < i < |targets| ==>
      Dispatches(targets, value)[i].1 ==
        (if Dispatches(targets, value)[i - 1].1 == "" then targets[i].parameter else Dispatches(targets, value)[i - 1].1)
    decreases |targets|
  {
    if targets != [] {
      var v := if value == "" then targets[0].parameter else value;
      DispatchesShape(targets[1..], v);
      var ds := Dispatches(targets, value);
      var rest := Dispatches(targets[1..], v);
      assert ds == [(targets[0].eventName, v)] + rest;
      forall i | 0 < i < |targets|
        ensures ds[i].1 == (if ds[i - 1].1 == "" then targets[i].parameter else ds[i - 1].1)
      {
        assert ds[i] == rest[i - 1];
        assert targets[1..][i - 1] == targets[i];
        if i == 1 {
          assert ds[0].1 == v;
        } else {
          assert ds[i - 1] == rest[i - 2];
        }
      }
    }
  }

  /** Under X-Plane each dispatched pair is forwarded unchanged; under active SimConnect each triggers its pair's name. */
  lemma {:induction false} DispatchCallsContents(kind: SimulatorType, windows: bool, ds: seq<(string, string)>)
    requires DispatchesDefined(kind, windows, ds)
    ensures kind == XPlane ==> forall i :: 0 <= i < |ds| ==>
      DispatchCalls(kind, windows, ds)[i] == TriggerXPlaneEvent(ds[i].0, ds[i].1)
    ensures SimConnectActive(kind, windows) ==> forall i :: 0 <= i < |ds| ==>
      DispatchCalls(kind, windows, ds)[i].TriggerSimconnectEvent? && DispatchCalls(kind, windows, ds)[i].eventName == ds[i].0
    decreases |ds|
  {
    if ds != [] {
      DispatchCallsContents(kind, windows, ds[1..]);
      assert forall i :: 0 < i < |ds| ==> ds[1..][i - 1] == ds[i];
    }
  }

  /** A mapped name with one target (every list the public API can build) makes exactly one dispatch. */
  lemma SingleTargetDispatch(name: string, sim: string, parameter: string, value: string)
    ensures Dispatches([WriteTarget(name, sim, parameter)], value) == [(name, if value == "" then parameter else value)]
  {
    assert [WriteTarget(name, sim, parameter)][1..] == [];
  }

  /** Under X-Plane no write target is registered; under a SimConnect build each target is, once. */
  lemma {:induction false} TargetCallsContents(kind: SimulatorType, windows: bool, targets: seq<WriteEvent>)
    ensures !SimConnectActive(kind, windows) ==> TargetCalls(kind, windows, targets) == []
    ensures SimConnectActive(kind, windows) ==>
      TargetCalls(kind, windows, targets) == seq(|targets|, i requires 0 <= i < |targets| => RegisterSimconnectEvent(targets[i].simEventName))
    decreases |targets|
  {
    if targets != [] {
      TargetCallsContents(kind, windows, targets[1..]);
    }
  }

  /**
   * Under X-Plane, register_all_events subscribes exactly the read keys, in
   * iteration order: each entry is stored under its own simulator-side name.
   */
  lemma {:induction false} AllReadCallsXPlane(m: map<string, ReadEvent>, order: seq<string>, windows: bool)
    requires forall i :: 0 <= i < |order| ==> order[i] in m
    requires forall k :: k in m ==> m[k].simEventName == k
    ensures AllReadCalls(XPlane, windows, m, order) == seq(|order|, i requires 0 <= i < |order| => RegisterXPlaneRead(order[i]))
    decreases |order|
  {
    if order != [] {
      AllReadCallsXPlane(m, order[1..], windows);
    }
  }

  /** In a registry whose lists have one target each, the write registrations are one per key, in order. */
  lemma {:induction false} AllWriteCallsSingleTargets(m: map<string, seq<WriteEvent>>, order: seq<string>)
    requires forall i :: 0 <= i < |order| ==> order[i] in m
    requires forall k :: k in m ==> |m[k]| == 1
    ensures AllWriteCalls(SimConnect, true, m, order) ==
      seq(|order|, i requires 0 <= i < |order| => RegisterSimconnectEvent(m[order[i]][0].simEventName))
    ensures AllWriteCalls(XPlane, true, m, order) == [] && AllWriteCalls(SimConnect, false, m, order) == []
    decreases |order|
  {
    if order != [] {
      AllWriteCallsSingleTargets(m, order[1..]);
      var t := m[order[0]];
      assert t[1..] == [];
      assert TargetCalls(SimConnect, true, t) == [RegisterSimconnectEvent(t[0].simEventName)];
      assert TargetCalls(XPlane, true, t) == [] && TargetCalls(SimConnect, false, t) == [];
      var all := seq(|order|, i requires 0 <= i < |order| => RegisterSimconnectEvent(m[order[i]][0].simEventName));
      var tail := seq(|order[1..]|, i requires 0 <= i < |order[1..]| => RegisterSimconnectEvent(m[order[1..][i]][0].simEventName));
      assert all == [all[0]] + tail;
    }
  }

  /**
   * The dispatch write_event was evidently meant to perform: each target's
   * simulator-side name, with the explicit value or else that target's own
   * default parameter.
   */
  function IntendedDispatches(targets: seq<WriteEvent>, value: string): (ds: seq<(string, string)>)
    ensures |ds| == |targets|
    decreases |targets|
  {
    if targets == [] then []
    else [(targets[0].simEventName, if value == "" then targets[0].parameter else value)] + IntendedDispatches(targets[1..], value)
  }

  /** The intended dispatch sends target i's sim name with the explicit value or its own default. */
  lemma {:induction false} IntendedDispatchesSpec(targets: seq<WriteEvent>, value: string)
    ensures |IntendedDispatches(targets, value)| == |targets|
    ensures forall i :: 0 <= i < |targets| ==>
      IntendedDispatches(targets, value)[i] == (targets[i].simEventName, if value == "" then targets[i].parameter else value)
    decreases |targets|
  {
    if targets != [] {
      IntendedDispatchesSpec(targets[1..], value);
      var rest := IntendedDispatches(targets[1..], value);
      forall i | 0 < i < |targets|
        ensures IntendedDispatches(targets, value)[i] == (targets[i].simEventName, if value == "" then targets[i].parameter else value)
      {
        assert IntendedDispatches(targets, value)[i] == rest[i - 1];
        assert targets[1..][i - 1] == targets[i];
      }
    }
  }

  /**
   * The code as written sends the device-side name: a button "BTN" mapped to
   * the simulator event "AP_MASTER" with default "1" dispatches ("BTN", "1"),
   * where the intended dispatch is ("AP_MASTER", "1").
   */
  lemma WriteEventSendsDeviceName()
    ensures Dispatches([WriteTarget("BTN", "AP_MASTER", "1")], "") == [("BTN", "1")]
    ensures IntendedDispatches([WriteTarget("BTN", "AP_MASTER", "1")], "") == [("AP_MASTER", "1")]
  {
    SingleTargetDispatch("BTN", "AP_MASTER", "1", "");
    assert [WriteTarget("BTN", "AP_MASTER", "1")][1..] == [];
  }

  /**
   * The code as written reuses the first target's default for later targets:
   * two targets with defaults "1" and "2" both receive "1".
   */
  lemma WriteEventStickyDefault()
    ensures Dispatches([WriteTarget("BTN", "A", "1"), WriteTarget("BTN", "B", "2")], "") == [("BTN", "1"), ("BTN", "1")]
    ensures IntendedDispatches([WriteTarget("BTN", "A", "1"), WriteTarget("BTN", "B", "2")], "") == [("A", "1"), ("B", "2")]
  {
    var t := [WriteTarget("BTN", "A", "1"), WriteTarget("BTN", "B", "2")];
    assert t[1..] == [WriteTarget("BTN", "B", "2")];
    assert t[1..][1..] == [];
  }

  class Registry {
    var writeEvents: map<string, seq<WriteEvent>>
    var readEvents: map<string, ReadEvent>
    var simulatorType: SimulatorType
    var saveOnChange: bool
    var resourcesConnected: bool
    /** Whether this is a Windows build (the `_WIN32`/`_WIN64` guard), fixed for the process. */
    const windows: bool
    ghost var trace: seq<Call>

    /**
     * What the public operations keep true: each write list holds exactly one
     * target, filed under its own device-side name, and each read entry is
     * filed under its own simulator-side name.
     */
    ghost predicate Valid()
      reads this
    {
      && (forall k :: k in writeEvents ==> |writeEvents[k]| == 1 && writeEvents[k][0].eventName == k)
      && (forall k :: k in readEvents ==> readEvents[k].simEventName == k)
    }

    /** The globals at process start: empty maps, zero-initialised simulator type, both flags false. */
    constructor (windows: bool)
      ensures Valid()
      ensures this.windows == windows
      ensures writeEvents == map[] && readEvents == map[]
      ensures simulatorType == SimConnect && !saveOnChange && !resourcesConnected
      ensures trace == []
    {
      this.windows := windows;
      writeEvents := map[];
      readEvents := map[];
      simulatorType := SimConnect;
      saveOnChange := false;
      resourcesConnected := false;
      trace := [];
    }

    method RegisterWrite(eventName: string, simEventName: string, parameter: string)
      requires Valid()
      modifies this
      ensures Valid()
      ensures readEvents == old(readEvents) && simulatorType == old(simulatorType)
      ensures saveOnChange == old(saveOnChange) && resourcesConnected == old(resourcesConnected)
      ensures eventName in old(writeEvents) ==> writeEvents == old(writeEvents) && trace == old(trace)
      ensures eventName !in old(writeEvents) ==>
        var evt := WriteTarget(eventName, simEventName, parameter);
        && writeEvents == old(writeEvents)[eventName := [evt]]
        && trace == old(trace)
                    + (if resourcesConnected then InternalWriteCalls(simulatorType, windows, evt) else [])
                    + (if saveOnChange then [SaveNewWriteMapping(eventName, simEventName, parameter)] else [])
    {
      if eventName in writeEvents {
        return;
      }
      var evt := WriteTarget(eventName, simEventName, parameter);
      // operator[] creates an empty vector for the new key and push_back adds the one target
      writeEvents := writeEvents[eventName := [evt]];
      if resourcesConnected {
        InternalRegisterWrite(evt);
      }
      if saveOnChange {
        trace := trace + [SaveNewWriteMapping(eventName, simEventName, parameter)];
      }
    }

    /** The duplicate check looks up `eventName`, but the entry is stored under `simEventName`. */
    method RegisterRead(eventName: string, simEventName: string, dataType: string)
      requires Valid()
      modifies this
      ensures Valid()
      ensures writeEvents == old(writeEvents) && simulatorType == old(simulatorType)
      ensures saveOnChange == old(saveOnChange) && resourcesConnected == old(resourcesConnected)
      ensures eventName in old(readEvents) ==> readEvents == old(readEvents) && trace == old(trace)
      ensures eventName !in old(readEvents) ==>
        var evt := ReadEvent(eventName, simEventName, dataType);
        && readEvents == old(readEvents)[simEventName := evt]
        && trace == old(trace)
                    + (if resourcesConnected then InternalReadCalls(simulatorType, windows, evt) else [])
                    + (if saveOnChange then [SaveNewReadMapping(eventName, simEventName)] else [])
    {
      if eventName in readEvents {
        return;
      }
      var evt := ReadEvent(eventName, simEventName, dataType);
      readEvents := readEvents[simEventName := evt];
      if resourcesConnected {
        InternalRegisterRead(evt);
      }
      if saveOnChange {
        trace := trace + [SaveNewReadMapping(eventName, simEventName)];
      }
    }

    /** Translate a device trigger and hand each target to sim_write, as the code is written. */
    method WriteEvent(eventName: string, eventValue: string)
      requires eventName in writeEvents ==>
        DispatchesDefined(simulatorType, windows, Dispatches(writeEvents[eventName], eventValue))
      modifies this`trace
      ensures eventName !in writeEvents ==> trace == old(trace)
      ensures eventName in writeEvents ==>
        trace == old(trace) + DispatchCalls(simulatorType, windows, Dispatches(writeEvents[eventName], eventValue))
    {
      if eventName !in writeEvents {
        return;
      }
      var simEvents := writeEvents[eventName];
      var value := eventValue;
      ghost var kind, win := simulatorType, windows;
      ghost var start, total := trace, DispatchCalls(kind, win, Dispatches(simEvents, eventValue));
      var i := 0;
      while i < |simEvents|
        invariant 0 <= i <= |simEvents|
        invariant simulatorType == kind
        invariant DispatchesDefined(kind, win, Dispatches(simEvents[i..], value))
        invariant start + total == trace + DispatchCalls(kind, win, Dispatches(simEvents[i..], value))
      {
        var elem := simEvents[i];
        ghost var before := value;
        if value == "" {
          value := elem.parameter;
        }
        WriteEventStep(kind, win, simEvents, i, before, start, total, trace);
        SimWrite(elem.eventName, value);
        i := i + 1;
      }
      assert simEvents[i..] == [];
    }

    /** write_event as evidently intended: each target's sim event, with the trigger's value or else that target's default. */
    method WriteEventCorrected(eventName: string, eventValue: string)
      requires eventName in writeEvents ==>
        DispatchesDefined(simulatorType, windows, IntendedDispatches(writeEvents[eventName], eventValue))
      modifies this`trace
      ensures eventName !in writeEvents ==> trace == old(trace)
      ensures eventName in writeEvents ==>
        trace == old(trace) + DispatchCalls(simulatorType, windows, IntendedDispatches(writeEvents[eventName], eventValue))
    {
      if eventName !in writeEvents {
        return;
      }
      var simEvents := writeEvents[eventName];
      ghost var kind, win := simulatorType, windows;
      ghost var start, total := trace, DispatchCalls(kind, win, IntendedDispatches(simEvents, eventValue));
      var i := 0;
      while i < |simEvents|
        invariant 0 <= i <= |simEvents|
        invariant simulatorType == kind
        invariant DispatchesDefined(kind, win, IntendedDispatches(simEvents[i..], eventValue))
        invariant start + total == trace + DispatchCalls(kind, win, IntendedDispatches(simEvents[i..], eventValue))
      {
        var elem := simEvents[i];
        var value := eventValue;
        if value == "" {
          value := elem.parameter;
        }
        IntendedWriteEventStep(kind, win, simEvents, i, eventValue, start, total, trace);
        SimWrite(elem.simEventName, value);
        i := i + 1;
      }
      assert simEvents[i..] == [];
    }

    /** Dispatch straight to the active backend, bypassing the registry. */
    method SimWrite(name: string, parameter: string)
      requires SimWriteDefined(simulatorType, windows, parameter)
      modifies this`trace
      ensures trace == old(trace) + SimWriteCalls(simulatorType, windows, name, parameter)
    {
      match simulatorType
      case SimConnect =>
        if windows {
          var p := parameter;
          if p == "" {
            p := "0";
          }
          StoiOfToString(0);
          assert IntToDecimal(0) == "0";
          trace := trace + [TriggerSimconnectEvent(name, Stoi(p))];
        }
      case XPlane =>
        trace := trace + [TriggerXPlaneEvent(name, parameter)];
    }

    /** Forward a simulator value to every device as "<device name>:<value>". */
    method HandleReadEvent(eventName: string, eventValue: string)
      modifies this`trace
      ensures eventName !in readEvents ==> trace == old(trace)
      ensures eventName in readEvents ==> trace == old(trace) + [SendAll(readEvents[eventName].eventName + ":" + eventValue)]
    {
      if eventName !in readEvents {
        return;
      }
      var deviceEventName := readEvents[eventName].eventName;
      trace := trace + [SendAll(deviceEventName + ":" + eventValue)];
    }

    method DeregisterWrite(eventName: string)
      requires Valid()
      modifies this
      ensures Valid()
      ensures readEvents == old(readEvents) && simulatorType == old(simulatorType)
      ensures saveOnChange == old(saveOnChange) && resourcesConnected == old(resourcesConnected)
      ensures eventName !in old(writeEvents) ==> writeEvents == old(writeEvents) && trace == old(trace)
      ensures eventName in old(writeEvents) ==>
        && writeEvents == old(writeEvents) - {eventName}
        && trace == old(trace) + (if saveOnChange then [RemoveWriteMapping(eventName)] else [])
    {
      if eventName !in writeEvents {
        return;
      }
      if saveOnChange {
        trace := trace + [RemoveWriteMapping(eventName)];
      }
      writeEvents := writeEvents - {eventName};
    }

    method DeregisterRead(eventName: string)
      requires Valid()
      modifies this
      ensures Valid()
      ensures writeEvents == old(writeEvents) && simulatorType == old(simulatorType)
      ensures saveOnChange == old(saveOnChange) && resourcesConnected == old(resourcesConnected)
      ensures eventName !in old(readEvents) ==> readEvents == old(readEvents) && trace == old(trace)
      ensures eventName in old(readEvents) ==>
        && readEvents == old(readEvents) - {eventName}
        && trace == old(trace) + (if saveOnChange then [RemoveReadMapping(eventName)] else [])
    {
      if eventName !in readEvents {
        return;
      }
      if saveOnChange {
        trace := trace + [RemoveReadMapping(eventName)];
      }
      readEvents := readEvents - {eventName};
    }

    method InternalRegisterWrite(evt: WriteEvent)
      modifies this`trace
      ensures trace == old(trace) + InternalWriteCalls(simulatorType, windows, evt)
    {
      if simulatorType == SimConnect && windows {
        trace := trace + [RegisterSimconnectEvent(evt.simEventName)];
      }
    }

    method InternalRegisterRead(evt: ReadEvent)
      modifies this`trace
      ensures trace == old(trace) + InternalReadCalls(simulatorType, windows, evt)
    {
      match simulatorType
      case SimConnect =>
        if windows {
          trace := trace + [RegisterSimconnectDatareq(evt.simEventName, evt.dataType)];
        }
      case XPlane =>
        trace := trace + [RegisterXPlaneRead(evt.simEventName)];
    }

    /**
     * Register every stored mapping with the backend. The unordered maps'
     * iteration orders are not known, so they are given as `writeOrder` and
     * `readOrder`.
     */
    method RegisterAllEvents(writeOrder: seq<string>, readOrder: seq<string>)
      requires IsEnumeration(writeOrder, writeEvents) && IsEnumeration(readOrder, readEvents)
      modifies this`trace
      ensures trace == old(trace) + AllWriteCalls(simulatorType, windows, writeEvents, writeOrder)
                                  + AllReadCalls(simulatorType, windows, readEvents, readOrder)
    {
      ghost var start := trace;
      RegisterAllWrites(writeOrder);
      ghost var mid := trace;
      RegisterAllReads(readOrder);
      assert trace == mid + AllReadCalls(simulatorType, windows, readEvents, readOrder);
    }

    /** register_all_events' first loop: each write list in `order`, each target in list order. */
    method RegisterAllWrites(order: seq<string>)
      requires forall i :: 0 <= i < |order| ==> order[i] in writeEvents
      modifies this`trace
      ensures trace == old(trace) + AllWriteCalls(simulatorType, windows, writeEvents, order)
    {
      ghost var start := trace;
      ghost var writeCalls := AllWriteCalls(simulatorType, windows, writeEvents, order);
      var i := 0;
      while i < |order|
        invariant 0 <= i <= |order|
        invariant start + writeCalls == trace + AllWriteCalls(simulatorType, windows, writeEvents, order[i..])
      {
        AllWriteCallsStep(simulatorType, windows, writeEvents, order, i);
        AppendAssoc(trace, TargetCalls(simulatorType, windows, writeEvents[order[i]]),
                    AllWriteCalls(simulatorType, windows, writeEvents, order[i + 1..]));
        RegisterTargets(writeEvents[order[i]]);
        i := i + 1;
      }
      assert order[i..] == [];
    }

    /** register_all_events' inner loop: each target of one write list. */
    method RegisterTargets(targets: seq<WriteEvent>)
      modifies this`trace
      ensures trace == old(trace) + TargetCalls(simulatorType, windows, targets)
    {
      ghost var start := trace;
      ghost var total := TargetCalls(simulatorType, windows, targets);
      var j := 0;
      while j < |targets|
        invariant 0 <= j <= |targets|
        invariant start + total == trace + TargetCalls(simulatorType, windows, targets[j..])
      {
        TargetCallsStep(simulatorType, windows, targets, j);
        AppendAssoc(trace, InternalWriteCalls(simulatorType, windows, targets[j]), TargetCalls(simulatorType, windows, targets[j + 1..]));
        InternalRegisterWrite(targets[j]);
        j := j + 1;
      }
      assert targets[j..] == [];
    }

    /** register_all_events' second loop: each read entry in `order`. */
    method RegisterAllReads(order: seq<string>)
      requires forall i :: 0 <= i < |order| ==> order[i] in readEvents
      modifies this`trace
      ensures trace == old(trace) + AllReadCalls(simulatorType, windows, readEvents, order)
    {
      ghost var start := trace;
      ghost var readCalls := AllReadCalls(simulatorType, windows, readEvents, order);
      var i := 0;
      while i < |order|
        invariant 0 <= i <= |order|
        invariant start + readCalls == trace + AllReadCalls(simulatorType, windows, readEvents, order[i..])
      {
        AllReadCallsStep(simulatorType, windows, readEvents, order, i);
        AppendAssoc(trace, InternalReadCalls(simulatorType, windows, readEvents[order[i]]),
                    AllReadCalls(simulatorType, windows, readEvents, order[i + 1..]));
        InternalRegisterRead(readEvents[order[i]]);
        i := i + 1;
      }
      assert order[i..] == [];
    }

    /** A copy of the write table, built entry by entry. */
    method GetAllWriteMappings() returns (r: map<string, seq<WriteEvent>>)
      ensures r == writeEvents
    {
      r := map[];
      var remaining := writeEvents.Keys;
      while remaining != {}
        invariant remaining <= writeEvents.Keys
        invariant r.Keys == writeEvents.Keys - remaining
        invariant forall k :: k in r ==> r[k] == writeEvents[k]
        decreases remaining
      {
        var k :| k in remaining;
        r := r[k := writeEvents[k]];
        remaining := remaining - {k};
      }
    }

    /** A copy of the read table, built entry by entry. */
    method GetAllReadMappings() returns (r: map<string, ReadEvent>)
      ensures r == readEvents
    {
      r := map[];
      var remaining := readEvents.Keys;
      while remaining != {}
        invariant remaining <= readEvents.Keys
        invariant r.Keys == readEvents.Keys - remaining
        invariant forall k :: k in r ==> r[k] == readEvents[k]
        decreases remaining
      {
        var k :| k in remaining;
        r := r[k := readEvents[k]];
        remaining := remaining - {k};
      }
    }

    /** The configuration name of the active simulator; the two kinds get different, non-empty names. */
    function GetSimulator(): (name: string)
      reads this
      ensures name != ""
      ensures name == "simconnect" <==> simulatorType == SimConnect
      ensures name == "xplane" <==> simulatorType == XPlane
    {
      SimulatorName(simulatorType)
    }

    /** Selecting SimConnect only takes effect in a Windows build; only an effective switch is saved. */
    method SetSimulator(kind: SimulatorType)
      requires Valid()
      modifies this
      ensures Valid()
      ensures writeEvents == old(writeEvents) && readEvents == old(readEvents)
      ensures saveOnChange == old(saveOnChange) && resourcesConnected == old(resourcesConnected)
      ensures simulatorType == (if kind == XPlane || windows then kind else old(simulatorType))
      ensures trace == old(trace) + (if (kind == XPlane || windows) && saveOnChange then [SaveSimulatorType(SimulatorName(kind))] else [])
    {
      match kind
      case SimConnect =>
        if windows {
          simulatorType := SimConnect;
          if saveOnChange {
            trace := trace + [SaveSimulatorType("simconnect")];
          }
        }
      case XPlane =>
        simulatorType := XPlane;
        if saveOnChange {
          trace := trace + [SaveSimulatorType("xplane")];
        }
    }

    method Tick()
      modifies this`trace
      ensures trace == old(trace) + TickCalls(simulatorType, windows)
    {
      match simulatorType
      case SimConnect =>
        if windows {
          trace := trace + [SimconnectTick];
        }
      case XPlane =>
        trace := trace + [XPlaneTick];
    }

    method SetSaveOnChange(enabled: bool)
      requires Valid()
      modifies this`saveOnChange
      ensures Valid()
      ensures saveOnChange == enabled
    {
      saveOnChange := enabled;
    }

    /** Start the backend, mark the resources connected, then register every stored mapping. */
    method ConnectResources(writeOrder: seq<string>, readOrder: seq<string>)
      requires Valid()
      requires IsEnumeration(writeOrder, writeEvents) && IsEnumeration(readOrder, readEvents)
      modifies this`trace, this`resourcesConnected
      ensures Valid()
      ensures resourcesConnected
      ensures trace == old(trace) + ConnectCalls(simulatorType, windows)
                                  + AllWriteCalls(simulatorType, windows, writeEvents, writeOrder)
                                  + AllReadCalls(simulatorType, windows, readEvents, readOrder)
    {
      match simulatorType {
        case SimConnect =>
          if windows {
            trace := trace + [InitSimconnectEvents];
          }
        case XPlane =>
          trace := trace + [InitXPlane(XPLANE_HOST)];
      }
      resourcesConnected := true;
      RegisterAllEvents(writeOrder, readOrder);
    }

    method CloseResources()
      modifies this`trace
      ensures trace == old(trace) + (match simulatorType
                                     case SimConnect => if windows then [CloseSimconnect] else []
                                     case XPlane => [CloseXPlane])
    {
      match simulatorType
      case SimConnect =>
        if windows {
          trace := trace + [CloseSimconnect];
        }
      case XPlane =>
        trace := trace + [CloseXPlane];
    }
  }
}
