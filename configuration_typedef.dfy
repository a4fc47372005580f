/**
 * The configuration records and their JSON conversions
 * (src/conf/ConfigurationTypedef.cpp). JSON is reduced to the three kinds the
 * conversions touch. A from_json conversion updates an existing record: it
 * overwrites a field only when the object has the field's key, and fails
 * with a type error when that key holds the wrong kind of value.
 */
module ConfigurationTypedef {
  import opened Wrappers

  datatype Json =
    | JString(str: string)
    | JArray(items: seq<Json>)
    | JObject(fields: map<string, Json>)

  /** nlohmann's type_error, thrown by get_to on a value of the wrong kind. */
  datatype JsonError = TypeError

  datatype AccountInfo = AccountInfo(refreshToken: string)

  datatype ConfigurationDevice = ConfigurationDevice(name: string, address: string, kind: string)

  datatype ConfigurationMapping = ConfigurationMapping(rawName: string, simName: string, parameter: string, dataType: string)

  datatype ConfigurationMappingGroup = ConfigurationMappingGroup(read: seq<ConfigurationMapping>, write: seq<ConfigurationMapping>)

  datatype ConfigurationSimulator = ConfigurationSimulator(kind: string)

  datatype Configuration = Configuration(
    account: AccountInfo,
    devices: seq<ConfigurationDevice>,
    mappings: ConfigurationMappingGroup,
    simulator: ConfigurationSimulator)

  /** Value-initialised records: empty strings and empty vectors. */
  const DEFAULT_DEVICE: ConfigurationDevice := ConfigurationDevice("", "", "")
  const DEFAULT_MAPPING: ConfigurationMapping := ConfigurationMapping("", "", "", "")
  const DEFAULT_CONFIGURATION: Configuration :=
    Configuration(AccountInfo(""), [], ConfigurationMappingGroup([], []), ConfigurationSimulator(""))

  /** json::contains: an object with the key; never true of a string or an array. */
  predicate Contains(j: Json, key: string)
  {
    j.JObject? && key in j.fields
  }

  /** `if (j.contains(key)) j.at(key).get_to(field)` for a string field. */
  function StringField(j: Json, key: string, current: string): (r: Result<string, JsonError>)
    ensures !Contains(j, key) ==> r == Success(current)
    ensures Contains(j, key) ==> (r.Success? <==> j.fields[key].JString?)
    ensures Contains(j, key) && r.Success? ==> r.value == j.fields[key].str
  {
    if Contains(j, key) then
      match j.fields[key]
      case JString(s) => Success(s)
      case _ => Failure(TypeError)
    else Success(current)
  }

  function AccountToJson(c: AccountInfo): Json
  {
    JObject(map["refresh_token" := JString(c.refreshToken)])
  }

  function AccountFromJson(j: Json, c: AccountInfo): Result<AccountInfo, JsonError>
  {
    var token :- StringField(j, "refresh_token", c.refreshToken);
    Success(c.(refreshToken := token))
  }

  function DeviceToJson(c: ConfigurationDevice): Json
  {
    JObject(map["name" := JString(c.name), "address" := JString(c.address), "type" := JString(c.kind)])
  }

  function DeviceFromJson(j: Json, c: ConfigurationDevice): (r: Result<ConfigurationDevice, JsonError>)
    ensures r.Success? && !Contains(j, "name") ==> r.value.name == c.name
    ensures r.Success? && !Contains(j, "address") ==> r.value.address == c.address
    ensures r.Success? && !Contains(j, "type") ==> r.value.kind == c.kind
  {
    var name :- StringField(j, "name", c.name);
    var address :- StringField(j, "address", c.address);
    var kind :- StringField(j, "type", c.kind);
    Success(ConfigurationDevice(name, address, kind))
  }

  /** A mapping's JSON always names both sides, carries the parameter only when it is set, and never the datatype. */
  function MappingToJson(c: ConfigurationMapping): (j: Json)
    ensures j.JObject? && j.fields.Keys == {"raw_name", "sim_name"} + (if c.parameter != "" then {"parameter"} else {})
    ensures "datatype" !in j.fields
    ensures j.fields["raw_name"] == JString(c.rawName) && j.fields["sim_name"] == JString(c.simName)
    ensures "parameter" in j.fields ==> j.fields["parameter"] == JString(c.parameter)
  {
    var base := map["raw_name" := JString(c.rawName), "sim_name" := JString(c.simName)];
    if c.parameter != "" then JObject(base["parameter" := JString(c.parameter)]) else JObject(base)
  }

  /** from_json for a mapping reads three keys; the datatype is never read back. */
  function MappingFromJson(j: Json, c: ConfigurationMapping): (r: Result<ConfigurationMapping, JsonError>)
    ensures r.Success? ==> r.value.dataType == c.dataType
    ensures r.Success? && !Contains(j, "raw_name") ==> r.value.rawName == c.rawName
    ensures r.Success? && !Contains(j, "sim_name") ==> r.value.simName == c.simName
    ensures r.Success? && !Contains(j, "parameter") ==> r.value.parameter == c.parameter
  {
    var rawName :- StringField(j, "raw_name", c.rawName);
    var simName :- StringField(j, "sim_name", c.simName);
    var parameter :- StringField(j, "parameter", c.parameter);
    Success(c.(rawName := rawName, simName := simName, parameter := parameter))
  }

  function MappingsToJson(ms: seq<ConfigurationMapping>): (items: seq<Json>)
    ensures |items| == |ms| && forall i :: 0 <= i < |ms| ==> items[i] == MappingToJson(ms[i])
  {
    seq(|ms|, i requires 0 <= i < |ms| => MappingToJson(ms[i]))
  }

  /** A vector get_to: each element is converted into a fresh default record. */
  function MappingsFromJson(items: seq<Json>): Result<seq<ConfigurationMapping>, JsonError>
    decreases |items|
  {
    if items == [] then Success([])
    else
      var first :- MappingFromJson(items[0], DEFAULT_MAPPING);
      var rest :- MappingsFromJson(items[1..]);
      Success([first] + rest)
  }

  /** A vector field: replaced as a whole when present, which requires an array. */
  function MappingListField(j: Json, key: string, current: seq<ConfigurationMapping>): Result<seq<ConfigurationMapping>, JsonError>
  {
    if Contains(j, key) then
      match j.fields[key]
      case JArray(items) => MappingsFromJson(items)
      case _ => Failure(TypeError)
    else Success(current)
  }

  function DevicesToJson(ds: seq<ConfigurationDevice>): (items: seq<Json>)
    ensures |items| == |ds| && forall i :: 0 <= i < |ds| ==> items[i] == DeviceToJson(ds[i])
  {
    seq(|ds|, i requires 0 <= i < |ds| => DeviceToJson(ds[i]))
  }

  function DevicesFromJson(items: seq<Json>): Result<seq<ConfigurationDevice>, JsonError>
    decreases |items|
  {
    if items == [] then Success([])
    else
      var first :- DeviceFromJson(items[0], DEFAULT_DEVICE);
      var rest :- DevicesFromJson(items[1..]);
      Success([first] + rest)
  }

  function DeviceListField(j: Json, key: string, current: seq<ConfigurationDevice>): Result<seq<ConfigurationDevice>, JsonError>
  {
    if Contains(j, key) then
      match j.fields[key]
      case JArray(items) => DevicesFromJson(items)
      case _ => Failure(TypeError)
    else Success(current)
  }

  function MappingGroupToJson(c: ConfigurationMappingGroup): Json
  {
    JObject(map["read" := JArray(MappingsToJson(c.read)), "write" := JArray(MappingsToJson(c.write))])
  }

  function MappingGroupFromJson(j: Json, c: ConfigurationMappingGroup): Result<ConfigurationMappingGroup, JsonError>
  {
    var read :- MappingListField(j, "read", c.read);
    var write :- MappingListField(j, "write", c.write);
    Success(ConfigurationMappingGroup(read, write))
  }

  function SimulatorToJson(c: ConfigurationSimulator): Json
  {
    JObject(map["type" := JString(c.kind)])
  }

  function SimulatorFromJson(j: Json, c: ConfigurationSimulator): Result<ConfigurationSimulator, JsonError>
  {
    var kind :- StringField(j, "type", c.kind);
    Success(ConfigurationSimulator(kind))
  }

  function ConfigurationToJson(c: Configuration): Json
  {
    JObject(map[
      "devices" := JArray(DevicesToJson(c.devices)),
      "mappings" := MappingGroupToJson(c.mappings),
      "simulator" := SimulatorToJson(c.simulator),
      "account" := AccountToJson(c.account)])
  }

  /**
   * A nested record's get_to updates the existing record in place, so a
   * present key holding a non-object leaves that record as it was.
   */
  function ConfigurationFromJson(j: Json, c: Configuration): (r: Result<Configuration, JsonError>)
    ensures r.Success? && !Contains(j, "devices") ==> r.value.devices == c.devices
    ensures r.Success? && !Contains(j, "mappings") ==> r.value.mappings == c.mappings
    ensures r.Success? && !Contains(j, "simulator") ==> r.value.simulator == c.simulator
    ensures r.Success? && !Contains(j, "account") ==> r.value.account == c.account
  {
    var devices :- DeviceListField(j, "devices", c.devices);
    var mappings :- if Contains(j, "mappings") then MappingGroupFromJson(j.fields["mappings"], c.mappings) else Success(c.mappings);
    var simulator :- if Contains(j, "simulator") then SimulatorFromJson(j.fields["simulator"], c.simulator) else Success(c.simulator);
    var account :- if Contains(j, "account") then AccountFromJson(j.fields["account"], c.account) else Success(c.account);
    Success(Configuration(account, devices, mappings, simulator))
  }

  /** What survives a save and a load: everything but the mappings' datatype. */
  function WithoutDataType(ms: seq<ConfigurationMapping>): (r: seq<ConfigurationMapping>)
    ensures |r| == |ms|
    ensures forall i :: 0 <= i < |ms| ==> r[i] == ms[i].(dataType := "")
  {
    seq(|ms|, i requires 0 <= i < |ms| => ms[i].(dataType := ""))
  }

  function Persisted(c: Configuration): Configuration
  {
    c.(mappings := ConfigurationMappingGroup(WithoutDataType(c.mappings.read), WithoutDataType(c.mappings.write)))
  }

  /**
   * A mapping read back into a record `old` keeps both names; the parameter
   * comes back when it was set and is otherwise `old`'s; the datatype is `old`'s.
   */
  lemma MappingRoundTrip(m: ConfigurationMapping, prior: ConfigurationMapping)
    ensures MappingFromJson(MappingToJson(m), prior) ==
      Success(ConfigurationMapping(m.rawName, m.simName, if m.parameter != "" then m.parameter else prior.parameter, prior.dataType))
  {
  }

  /** Hence into a default record only the datatype is lost. */
  lemma MappingRoundTripDefault(m: ConfigurationMapping)
    ensures MappingFromJson(MappingToJson(m), DEFAULT_MAPPING) == Success(m.(dataType := ""))
  {
    MappingRoundTrip(m, DEFAULT_MAPPING);
  }

  lemma DeviceRoundTrip(d: ConfigurationDevice, prior: ConfigurationDevice)
    ensures DeviceFromJson(DeviceToJson(d), prior) == Success(d)
  {
  }

  lemma {:induction false} MappingsRoundTrip(ms: seq<ConfigurationMapping>)
    ensures MappingsFromJson(MappingsToJson(ms)) == Success(WithoutDataType(ms))
    decreases |ms|
  {
    if ms != [] {
      var items := MappingsToJson(ms);
      assert items[1..] == MappingsToJson(ms[1..]);
      MappingRoundTripDefault(ms[0]);
      MappingsRoundTrip(ms[1..]);
      assert WithoutDataType(ms) == [ms[0].(dataType := "")] + WithoutDataType(ms[1..]);
    }
  }

  lemma {:induction false} DevicesRoundTrip(ds: seq<ConfigurationDevice>)
    ensures DevicesFromJson(DevicesToJson(ds)) == Success(ds)
    decreases |ds|
  {
    if ds != [] {
      var items := DevicesToJson(ds);
      assert items[1..] == DevicesToJson(ds[1..]);
      DeviceRoundTrip(ds[0], DEFAULT_DEVICE);
      DevicesRoundTrip(ds[1..]);
      assert [ds[0]] + ds[1..] == ds;
    }
  }

  /**
   * Saving and loading a configuration gives back its devices, mappings
   * (without datatype), simulator type and refresh token, whatever record it
   * is loaded into.
   */
  lemma ConfigurationRoundTrip(c: Configuration, prior: Configuration)
    ensures ConfigurationFromJson(ConfigurationToJson(c), prior) == Success(Persisted(c))
  {
    var j := ConfigurationToJson(c);
    DevicesRoundTrip(c.devices);
    assert DeviceListField(j, "devices", prior.devices) == Success(c.devices);
    MappingGroupRoundTrip(c.mappings, prior.mappings);
    assert j.fields["simulator"] == SimulatorToJson(c.simulator);
    assert SimulatorFromJson(j.fields["simulator"], prior.simulator) == Success(c.simulator);
    assert j.fields["account"] == AccountToJson(c.account);
    assert AccountFromJson(j.fields["account"], prior.account) == Success(c.account);
  }

  /** Both mapping tables come back, without datatype, whatever group they are loaded into. */
  lemma MappingGroupRoundTrip(g: ConfigurationMappingGroup, prior: ConfigurationMappingGroup)
    ensures MappingGroupFromJson(MappingGroupToJson(g), prior)
      == Success(ConfigurationMappingGroup(WithoutDataType(g.read), WithoutDataType(g.write)))
  {
    var j := MappingGroupToJson(g);
    MappingsRoundTrip(g.read);
    MappingsRoundTrip(g.write);
    assert MappingListField(j, "read", prior.read) == Success(WithoutDataType(g.read));
    assert MappingListField(j, "write", prior.write) == Success(WithoutDataType(g.write));
  }

  /** Keys other than the four listed ones do not affect loading. */
  lemma ConfigurationIgnoresOtherKeys(fields: map<string, Json>, key: string, value: Json, prior: Configuration)
    requires key != "devices" && key != "mappings" && key != "simulator" && key != "account"
    ensures ConfigurationFromJson(JObject(fields[key := value]), prior) == ConfigurationFromJson(JObject(fields), prior)
  {
    var j, j' := JObject(fields[key := value]), JObject(fields);
    assert forall k :: k != key ==> (Contains(j, k) <==> Contains(j', k));
    assert Contains(j, "devices") ==> j.fields["devices"] == j'.fields["devices"];
    assert Contains(j, "mappings") ==> j.fields["mappings"] == j'.fields["mappings"];
    assert Contains(j, "simulator") ==> j.fields["simulator"] == j'.fields["simulator"];
    assert Contains(j, "account") ==> j.fields["account"] == j'.fields["account"];
  }
}
