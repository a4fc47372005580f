/**
 * The process-wide configuration record (`current_configuration`,
 * src/conf/Configuration.cpp) that the mapping, device and simulator tables
 * edit, with save_configuration. Writing the file is a `SaveFile`
 * entry carrying the JSON document that would be written; the calls the
 * tables make into the event router and the device manager are entries too.
 */
module ConfigurationStore {
  import opened ConfigurationTypedef
  import opened Wrappers
  import EventMapper

  datatype Call =
    | RegisterRead(eventName: string, simEventName: string, dataType: string)
    | RegisterWrite(eventName: string, simEventName: string, parameter: string)
    | NewDevice(deviceType: int, address: string, name: string)
    | SetSimulator(kind: EventMapper.SimulatorType)
    | SaveFile(file: Json)

  /** The document written when no configuration file exists yet. */
  const DEFAULT_CONFIG_JSON: Json := JObject(map[
    "devices" := JArray([]),
    "mappings" := JObject(map["read" := JArray([]), "write" := JArray([])]),
    "simulator" := JObject(map[]),
    "account" := JObject(map[])])

  /** Loading the initial document gives the value-initialised configuration. */
  lemma DefaultConfigLoads()
    ensures ConfigurationFromJson(DEFAULT_CONFIG_JSON, DEFAULT_CONFIGURATION) == Success(DEFAULT_CONFIGURATION)
  {
  }

  class Store {
    var current: Configuration
    ghost var trace: seq<Call>

    constructor ()
      ensures current == DEFAULT_CONFIGURATION && trace == []
    {
      current := DEFAULT_CONFIGURATION;
      trace := [];
    }

    /** Serialise the current record and write it out. */
    method SaveConfiguration()
      modifies this`trace
      ensures trace == old(trace) + [SaveFile(ConfigurationToJson(current))]
    {
      trace := trace + [SaveFile(ConfigurationToJson(current))];
    }
  }

  /** What a saved file gives back when it is loaded again: the record without the mappings' datatype. */
  lemma SavedFileLoads(c: Configuration)
    ensures ConfigurationFromJson(ConfigurationToJson(c), DEFAULT_CONFIGURATION) == Success(Persisted(c))
  {
    ConfigurationRoundTrip(c, DEFAULT_CONFIGURATION);
  }
}
