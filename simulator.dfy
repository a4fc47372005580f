/**
 * The persisted simulator choice (src/conf/Simulator.cpp): recording the
 * type string, and applying a recognised one to the event router at load.
 */
module Simulator {
  import opened Wrappers
  import opened ConfigurationTypedef
  import opened ConfigurationStore
  import EventMapper

  /** The simulator kind a configured type string names, if any. */
  function SimulatorKind(kind: string): (r: Option<EventMapper.SimulatorType>)
    ensures r == Some(EventMapper.SimConnect) <==> kind == "simconnect"
    ensures r == Some(EventMapper.XPlane) <==> kind == "xplane"
    ensures r.None? <==> kind != "simconnect" && kind != "xplane"
  {
    if kind == "simconnect" then Some(EventMapper.SimConnect)
    else if kind == "xplane" then Some(EventMapper.XPlane)
    else None
  }

  /** The names set_simulator persists are exactly the ones load_simulator maps back, each to its own kind. */
  lemma SimulatorNameRoundTrip(k: EventMapper.SimulatorType, kind: string)
    ensures SimulatorKind(EventMapper.SimulatorName(k)) == Some(k)
    ensures SimulatorKind(kind) == Some(k) ==> EventMapper.SimulatorName(k) == kind
  {
  }

  /** Record the type string as given, unvalidated, and save. */
  method SaveSimulatorType(store: Store, simulatorType: string)
    modifies store
    ensures store.current == old(store.current).(simulator := ConfigurationSimulator(simulatorType))
    ensures store.trace == old(store.trace) + [SaveFile(ConfigurationToJson(store.current))]
  {
    store.current := store.current.(simulator := store.current.simulator.(kind := simulatorType));
    store.SaveConfiguration();
  }

  /** Apply the persisted simulator choice; an empty or unknown type selects nothing. */
  method LoadSimulator(store: Store)
    modifies store`trace
    ensures store.trace == old(store.trace) +
      (match SimulatorKind(store.current.simulator.kind)
       case None => []
       case Some(k) => [SetSimulator(k)])
  {
    var simType := store.current.simulator.kind;
    if simType == "" {
      return;
    }
    if simType == "simconnect" {
      store.trace := store.trace + [SetSimulator(EventMapper.SimConnect)];
    } else if simType == "xplane" {
      store.trace := store.trace + [SetSimulator(EventMapper.XPlane)];
    }
  }
}
