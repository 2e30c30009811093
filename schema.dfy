/**
 * The wire protocol's schema tables: one parameter schema per action, one
 * data schema per signal, the shared building/agent/package/graph record
 * schemas, the envelope unions built from the two tables, and envelope
 * encode and decode.
 */
module ProtocolSchema {
  import opened Wrappers
  import opened Json
  import opened Zod

  // ---------------------------------------------------------------------
  // Building blocks

  const AnyNumber: Schema := SNumber([])
  const NonNegative: Schema := SNumber([Min(0.0)])
  const Probability: Schema := SNumber([Min(0.0), Max(1.0)])
  const Positive: Schema := SNumber([Gt(0.0)])
  const NonNegativeInt: Schema := SNumber([Int, Min(0.0)])
  const PositiveInt: Schema := SNumber([Int, Min(1.0)])
  const AnyString: Schema := SString(0)
  const NonEmptyString: Schema := SString(1)
  /** A `[min, max]` pair of non-negative numbers; the order of the two is not checked. */
  const NonNegativePair: Schema := STuple([NonNegative, NonNegative])
  const NonNegativeIntPair: Schema := STuple([NonNegativeInt, NonNegativeInt])
  const StringList: Schema := SArray(AnyString)
  /** An array that decodes as `[]` when it is missing. */
  const StringListOrEmpty: Schema := SDefault(StringList, JArr([]))
  const NonNegativeRecord: Schema := SRecord(NonNegative)

  const AgentKind: Schema := SEnum(["truck", "building", "broker"])

  /** Agent creation data: every field optional, unknown keys dropped. */
  const TruckAgentData: Schema := SObject(map[
    "max_speed_kph" := SOptional(NonNegative),
    "capacity" := SOptional(NonNegative),
    "risk_factor" := SOptional(Probability),
    "initial_balance_ducats" := SOptional(NonNegative),
    "fuel_tank_capacity_l" := SOptional(NonNegative),
    "initial_fuel_l" := SOptional(NonNegative)], Strip)
  const BrokerAgentData: Schema := SObject(map["balance_ducats" := SOptional(NonNegative)], Strip)
  const BuildingAgentData: Schema := SObject(map[], Strip)
  /** Tried in this order: truck, building, broker. */
  const AgentDataUnion: Schema := SUnion([TruckAgentData, BuildingAgentData, BrokerAgentData])

  // ---------------------------------------------------------------------
  // Action parameter schemas

  const PlaybackParams: Schema := SObject(map["tick_rate" := PositiveInt, "speed" := NonNegative], Strip)
  const EmptyParams: Schema := SObject(map[], Strip)

  /** The map generator's parameters; the form's default record must satisfy these. */
  const MapCreateShape: map<string, Schema> := map[
    "map_width" := Positive,
    "map_height" := Positive,
    "num_major_centers" := PositiveInt,
    "minor_per_major" := NonNegative,
    "center_separation" := Positive,
    "urban_sprawl" := Positive,
    "local_density" := Positive,
    "rural_density" := NonNegative,
    "intra_connectivity" := Probability,
    "inter_connectivity" := SNumber([Min(1.0)]),
    "arterial_ratio" := Probability,
    "gridness" := Probability,
    "ring_road_prob" := Probability,
    "highway_curviness" := Probability,
    "rural_settlement_prob" := Probability,
    "urban_sites_per_km2" := NonNegative,
    "rural_sites_per_km2" := NonNegative,
    "urban_parkings_per_km2" := NonNegative,
    "rural_parkings_per_km2" := NonNegative,
    "urban_gas_stations_per_km2" := NonNegative,
    "rural_gas_stations_per_km2" := NonNegative,
    "urban_activity_rate_range" := NonNegativePair,
    "rural_activity_rate_range" := NonNegativePair,
    "gas_station_capacity_range" := NonNegativePair,
    "gas_station_cost_factor_range" := NonNegativePair,
    "seed" := SNumber([Int])]
  const MapCreateParams: Schema := SObject(MapCreateShape, Strict)

  const AgentCreateParams: Schema := SObject(map[
    "agent_id" := AnyString,
    "agent_kind" := AgentKind,
    "agent_data" := SOptional(AgentDataUnion)], Catchall)
  const AgentUpdateParams: Schema := SObject(map[
    "agent_id" := AnyString,
    "agent_data" := SOptional(AgentDataUnion)], Catchall)
  const AgentIdParams: Schema := SObject(map["agent_id" := AnyString], Strip)
  const FilenameParams: Schema := SObject(map["filename" := NonEmptyString], Strip)
  const FileUploadParams: Schema := SObject(map["file_content" := NonEmptyString, "filename" := NonEmptyString], Strip)

  /** The action names, in declaration order. */
  const ActionNames: seq<string> := [
    "simulation.start",
    "simulation.stop",
    "simulation.resume",
    "simulation.pause",
    "simulation.update",
    "map.create",
    "agent.create",
    "agent.update",
    "agent.delete",
    "agent.list",
    "agent.describe",
    "map.export",
    "map.import",
    "simulation.export_state",
    "simulation.import_state"]

  /** The parameter schema of each action, position by position with `ActionNames`. */
  const ActionSchemas: seq<Schema> := [
    PlaybackParams,  // simulation.start
    EmptyParams,  // simulation.stop
    EmptyParams,  // simulation.resume
    EmptyParams,  // simulation.pause
    PlaybackParams,  // simulation.update
    MapCreateParams,  // map.create
    AgentCreateParams,  // agent.create
    AgentUpdateParams,  // agent.update
    AgentIdParams,  // agent.delete
    EmptyParams,  // agent.list
    AgentIdParams,  // agent.describe
    FilenameParams,  // map.export
    FileUploadParams,  // map.import
    FilenameParams,  // simulation.export_state
    FileUploadParams]  // simulation.import_state

  /** The action table: each name paired with its schema. */
  const ActionEntries: seq<(string, Schema)> := Zip(ActionNames, ActionSchemas)

  // ---------------------------------------------------------------------
  // Shared signal record schemas

  const RoadClass: Schema := SEnum(["A", "S", "GP", "G", "Z", "L", "D"])

  const ParkingData: Schema := SObject(map[
    "id" := AnyString,
    "type" := SLiteral("parking"),
    "capacity" := NonNegativeInt,
    "current_agents" := StringListOrEmpty], Catchall)
  const SiteData: Schema := SObject(map[
    "id" := AnyString,
    "type" := SLiteral("site"),
    "name" := SOptional(AnyString),
    "activity_rate" := SOptional(NonNegative),
    "active_packages" := StringListOrEmpty], Catchall)
  const GasStationData: Schema := SObject(map[
    "id" := AnyString,
    "type" := SLiteral("gas_station"),
    "capacity" := NonNegativeInt,
    "current_agents" := StringListOrEmpty,
    "cost_factor" := NonNegative], Catchall)
  const BuildingData: Schema := SUnion([ParkingData, SiteData, GasStationData])

  const GraphNode: Schema := SObject(map[
    "id" := AnyString,
    "x" := AnyNumber,
    "y" := AnyNumber,
    "buildings" := SDefault(SArray(BuildingData), JArr([]))], Strip)
  const GraphEdge: Schema := SObject(map[
    "id" := AnyString,
    "from_node" := AnyString,
    "to_node" := AnyString,
    "length_m" := AnyNumber,
    "mode" := NonNegativeInt,
    "road_class" := RoadClass,
    "lanes" := PositiveInt,
    "max_speed_kph" := NonNegative,
    "weight_limit_kg" := SNullable(NonNegative)], Strip)

  /** Agent tags: any string-keyed record, `{}` when missing. */
  const AgentTags: Schema := SDefault(SRecord(SUnknown), JObj(map[]))

  const AgentSignalBase: map<string, Schema> := map[
    "id" := AnyString,
    "kind" := AgentKind,
    "inbox_count" := NonNegativeInt,
    "outbox_count" := NonNegativeInt,
    "tags" := AgentTags]

  /** `.extend`: the extension's fields are added, replacing base fields of the same name. */
  function Extend(base: map<string, Schema>, extension: map<string, Schema>): (r: map<string, Schema>)
    ensures r.Keys == base.Keys + extension.Keys
    ensures forall k | k in extension :: r[k] == extension[k]
    ensures forall k | k in base && k !in extension :: r[k] == base[k]
  {
    base + extension
  }

  const GraphIndex: Schema := SUnion([AnyString, AnyNumber])

  const BuildingExtension: map<string, Schema> := map[
    "kind" := SLiteral("building"),
    "building" := SObject(map["id" := AnyString], Catchall)]
  const BuildingAgentSignalData: Schema := SObject(Extend(AgentSignalBase, BuildingExtension), Catchall)
  const TruckExtension: map<string, Schema> := map[
    "kind" := SLiteral("truck"),
    "max_speed_kph" := NonNegative,
    "current_speed_kph" := NonNegative,
    "current_node" := SNullable(GraphIndex),
    "current_edge" := SNullable(GraphIndex),
    "edge_progress_m" := NonNegative,
    "route" := SArray(GraphIndex),
    "destination" := SNullable(GraphIndex),
    "route_start_node" := SNullable(GraphIndex),
    "route_end_node" := SNullable(GraphIndex),
    "current_building_id" := SNullable(AnyString)]
  const TruckAgentSignalData: Schema := SObject(Extend(AgentSignalBase, TruckExtension), Catchall)
  const BrokerExtension: map<string, Schema> := map[
    "kind" := SLiteral("broker"),
    "balance_ducats" := SOptional(NonNegative)]
  const BrokerAgentSignalData: Schema := SObject(Extend(AgentSignalBase, BrokerExtension), Catchall)
  /** Tried in this order: building, truck, broker. */
  const AgentSignalData: Schema := SUnion([BuildingAgentSignalData, TruckAgentSignalData, BrokerAgentSignalData])

  const TruckAgentUpdatedData: Schema := SObject(map[
    "id" := AnyString,
    "kind" := SLiteral("truck"),
    "max_speed_kph" := NonNegative,
    "capacity" := NonNegative,
    "loaded_packages" := StringListOrEmpty,
    "current_speed_kph" := NonNegative,
    "current_node" := SNullable(GraphIndex),
    "current_edge" := SNullable(GraphIndex),
    "route" := SArray(GraphIndex),
    "route_start_node" := SNullable(GraphIndex),
    "route_end_node" := SNullable(GraphIndex),
    "current_building_id" := SNullable(AnyString),
    "driving_time_s" := NonNegative,
    "resting_time_s" := NonNegative,
    "is_resting" := SBoolean,
    "balance_ducats" := NonNegative,
    "risk_factor" := Probability,
    "is_seeking_parking" := SBoolean,
    "original_destination" := SNullable(GraphIndex),
    "fuel_tank_capacity_l" := NonNegative,
    "current_fuel_l" := NonNegative,
    "co2_emitted_kg" := NonNegative,
    "is_seeking_gas_station" := SBoolean,
    "is_fueling" := SBoolean,
    "agent_id" := AnyString,
    "tick" := NonNegativeInt], Catchall)
  const BrokerAgentUpdatedData: Schema := SObject(map[
    "id" := AnyString,
    "kind" := SLiteral("broker"),
    "balance_ducats" := NonNegative,
    "queue_size" := NonNegativeInt,
    "assigned_count" := NonNegativeInt,
    "has_active_negotiation" := SBoolean,
    "agent_id" := AnyString,
    "tick" := NonNegativeInt], Catchall)
  const AgentUpdatedData: Schema := SUnion([TruckAgentUpdatedData, BrokerAgentUpdatedData])

  const PackageConfigData: Schema := SObject(map[
    "size_range" := NonNegativePair,
    "value_range_currency" := NonNegativePair,
    "pickup_deadline_range_ticks" := NonNegativeIntPair,
    "delivery_deadline_range_ticks" := NonNegativeIntPair,
    "priority_weights" := NonNegativeRecord,
    "urgency_weights" := NonNegativeRecord], Catchall)
  const BuildingStatisticsData: Schema := SObject(map[
    "packages_generated" := NonNegativeInt,
    "packages_picked_up" := NonNegativeInt,
    "packages_delivered" := NonNegativeInt,
    "packages_expired" := NonNegativeInt,
    "total_value_delivered" := NonNegative,
    "total_value_expired" := NonNegative], Catchall)
  const SiteBuildingUpdatedData: Schema := SObject(map[
    "id" := AnyString,
    "type" := SLiteral("site"),
    "capacity" := NonNegativeInt,
    "current_agents" := StringListOrEmpty,
    "name" := AnyString,
    "activity_rate" := NonNegative,
    "loading_rate_tonnes_per_min" := NonNegative,
    "destination_weights" := NonNegativeRecord,
    "package_config" := PackageConfigData,
    "active_packages" := StringListOrEmpty,
    "statistics" := BuildingStatisticsData], Catchall)
  const ParkingBuildingUpdatedData: Schema := SObject(map[
    "id" := AnyString,
    "type" := SLiteral("parking"),
    "capacity" := NonNegativeInt,
    "current_agents" := StringListOrEmpty], Catchall)
  const GasStationBuildingUpdatedData: Schema := SObject(map[
    "id" := AnyString,
    "type" := SLiteral("gas_station"),
    "capacity" := NonNegativeInt,
    "current_agents" := StringListOrEmpty,
    "cost_factor" := NonNegative], Catchall)
  const BuildingUpdatedData: Schema :=
    SUnion([SiteBuildingUpdatedData, ParkingBuildingUpdatedData, GasStationBuildingUpdatedData])

  const Priority: Schema := SEnum(["LOW", "MEDIUM", "HIGH", "URGENT"])
  const DeliveryUrgency: Schema := SEnum(["STANDARD", "EXPRESS", "SAME_DAY"])

  const PackageCreatedData: Schema := SObject(map[
    "package_id" := AnyString,
    "origin_building_id" := AnyString,
    "destination_building_id" := AnyString,
    "size" := NonNegative,
    "value_currency" := NonNegative,
    "priority" := Priority,
    "urgency" := DeliveryUrgency,
    "pickup_deadline_tick" := NonNegativeInt,
    "delivery_deadline_tick" := NonNegativeInt,
    "created_at_tick" := NonNegativeInt,
    "tick" := NonNegativeInt], Catchall)

  // ---------------------------------------------------------------------
  // Signal data schemas

  const TickData: Schema := SObject(map["tick" := NonNegativeInt, "time" := NonNegative, "day" := NonNegativeInt], Strip)

  /** The echo of the creation parameters (the same bounds), the generation summary and the graph. */
  const MapCreatedShape: map<string, Schema> := MapCreateShape + map[
    "generated_nodes" := NonNegativeInt,
    "generated_edges" := NonNegativeInt,
    "generated_sites" := NonNegativeInt,
    "generated_parkings" := NonNegativeInt,
    "graph" := SObject(map["nodes" := SArray(GraphNode), "edges" := SArray(GraphEdge)], Strip)]
  const MapCreatedData: Schema := SObject(MapCreatedShape, Strict)

  const AgentListedData: Schema :=
    SObject(map["total" := NonNegativeInt, "agents" := SArray(AgentSignalData), "tick" := NonNegativeInt], Strip)
  const BuildingUpdatedSignalData: Schema :=
    SObject(map["building_id" := AnyString, "building" := BuildingUpdatedData, "tick" := NonNegativeInt], Catchall)
  const ErrorData: Schema := SObject(map["code" := AnyString, "message" := AnyString], Strip)
  const FileDownloadData: Schema := SObject(map["filename" := AnyString, "file_content" := AnyString], Strip)
  const FilenameData: Schema := SObject(map["filename" := AnyString], Strip)

  /** The signal names, in declaration order. */
  const SignalNames: seq<string> := [
    "simulation.started",
    "simulation.stopped",
    "simulation.resumed",
    "simulation.paused",
    "simulation.updated",
    "tick.start",
    "tick.end",
    "map.created",
    "agent.created",
    "agent.updated",
    "agent.deleted",
    "agent.listed",
    "agent.described",
    "building.updated",
    "package.created",
    "map.exported",
    "map.imported",
    "simulation.state_exported",
    "simulation.state_imported",
    "error"]

  /** The data schema of each signal, position by position with `SignalNames`. */
  const SignalSchemas: seq<Schema> := [
    PlaybackParams,  // simulation.started
    EmptyParams,  // simulation.stopped
    EmptyParams,  // simulation.resumed
    EmptyParams,  // simulation.paused
    PlaybackParams,  // simulation.updated
    TickData,  // tick.start
    TickData,  // tick.end
    MapCreatedData,  // map.created
    AgentSignalData,  // agent.created
    AgentUpdatedData,  // agent.updated
    AgentIdParams,  // agent.deleted
    AgentListedData,  // agent.listed
    AgentSignalData,  // agent.described
    BuildingUpdatedSignalData,  // building.updated
    PackageCreatedData,  // package.created
    FileDownloadData,  // map.exported
    FilenameData,  // map.imported
    FileDownloadData,  // simulation.state_exported
    FilenameData,  // simulation.state_imported
    ErrorData]  // error

  /** The signal table: each name paired with its schema. */
  const SignalEntries: seq<(string, Schema)> := Zip(SignalNames, SignalSchemas)

  // ---------------------------------------------------------------------
  // Table lookup

  /** Pair up names and schemas position by position. */
  function Zip(names: seq<string>, schemas: seq<Schema>): (r: seq<(string, Schema)>)
    requires |names| == |schemas|
    ensures |r| == |names|
    ensures forall i | 0 <= i < |names| :: r[i] == (names[i], schemas[i])
  {
    seq(|names|, i requires 0 <= i < |names| => (names[i], schemas[i]))
  }

  /** The names declared in a table, in order. */
  function Names(entries: seq<(string, Schema)>): (r: seq<string>)
    ensures |r| == |entries|
    ensures forall i | 0 <= i < |entries| :: r[i] == entries[i].0
  {
    seq(|entries|, i requires 0 <= i < |entries| => entries[i].0)
  }

  /** No name is declared twice. */
  predicate DistinctNames(entries: seq<(string, Schema)>) {
    forall i, j | 0 <= i < j < |entries| :: entries[i].0 != entries[j].0
  }

  predicate Distinct(names: seq<string>) {
    forall i, j | 0 <= i < j < |names| :: names[i] != names[j]
  }

  /** The schema declared for `name`, if any (the first, should there be several). */
  function SchemaFor(entries: seq<(string, Schema)>, name: string): (r: Option<Schema>)
    ensures r.None? <==> name !in Names(entries)
    ensures r.Some? ==> exists i | 0 <= i < |entries| :: entries[i] == (name, r.value)
  {
    if entries == [] then None
    else if entries[0].0 == name then Some(entries[0].1)
    else
      var r := SchemaFor(entries[1..], name);
      assert Names(entries) == [entries[0].0] + Names(entries[1..]);
      if r.None? then r
      else
        var i :| 0 <= i < |entries[1..]| && entries[1..][i] == (name, r.value);
        assert entries[i + 1] == (name, r.value);
        r
  }

  lemma TableNames()
    ensures Names(ActionEntries) == ActionNames
    ensures Names(SignalEntries) == SignalNames
  {
  }

  lemma ActionNameListDistinct()
    ensures Distinct(ActionNames)
  {
  }

  lemma ActionNamesDistinct()
    ensures DistinctNames(ActionEntries)
  {
    ActionNameListDistinct();
    TableNames();
  }

  lemma SignalNamesLowDistinct()
    ensures forall i, j | 0 <= i < j < 10 :: SignalNames[i] != SignalNames[j]
  {
  }

  lemma SignalNamesHighDistinct()
    ensures forall i, j | 10 <= i < j < 20 :: SignalNames[i] != SignalNames[j]
  {
  }

  lemma SignalNamesAcrossDistinct()
    ensures forall i, j | 0 <= i < 10 <= j < 20 :: SignalNames[i] != SignalNames[j]
  {
  }

  lemma SignalNameListDistinct()
    ensures Distinct(SignalNames)
  {
    SignalNamesLowDistinct();
    SignalNamesHighDistinct();
    SignalNamesAcrossDistinct();
  }

  lemma SignalNamesDistinct()
    ensures DistinctNames(SignalEntries)
  {
    SignalNameListDistinct();
    TableNames();
  }

  /** In a table without duplicate names, the schema found for the name at index `k` is the one declared at `k`. */
  lemma SchemaForIndex(entries: seq<(string, Schema)>, k: nat)
    requires DistinctNames(entries) && k < |entries|
    ensures SchemaFor(entries, entries[k].0) == Some(entries[k].1)
  {
    var name := entries[k].0;
    assert Names(entries)[k] == name;
    var r := SchemaFor(entries, name);
    var i :| 0 <= i < |entries| && entries[i] == (name, r.value);
    assert i == k;
  }

  // ---------------------------------------------------------------------
  // Envelopes

  /** An action (`action`, `params`) or signal (`signal`, `data`) envelope with its optional correlation id. */
  datatype Envelope = Envelope(name: string, payload: Json, requestId: Option<string>)

  const OptionalRequestId: Schema := SOptional(AnyString)

  /** The envelope variant for one table entry: the discriminant literal, the payload schema and an optional string id; other keys are dropped. */
  function EnvelopeArm(tag: string, payloadKey: string, name: string, payload: Schema): Schema {
    SObject(map[tag := SLiteral(name), payloadKey := payload, "request_id" := OptionalRequestId], Strip)
  }

  /** One envelope variant per table entry, in table order. */
  function EnvelopeArms(entries: seq<(string, Schema)>, tag: string, payloadKey: string): (r: seq<Schema>)
    ensures |r| == |entries|
    ensures forall i | 0 <= i < |entries| :: r[i] == EnvelopeArm(tag, payloadKey, entries[i].0, entries[i].1)
  {
    seq(|entries|, i requires 0 <= i < |entries| => EnvelopeArm(tag, payloadKey, entries[i].0, entries[i].1))
  }

  const ActionEnvelopeUnion: Schema := SUnion(EnvelopeArms(ActionEntries, "action", "params"))
  const SignalEnvelopeUnion: Schema := SUnion(EnvelopeArms(SignalEntries, "signal", "data"))

  /** The JSON object an envelope stands for; an absent id is an absent key. */
  function EnvelopeJson(tag: string, payloadKey: string, e: Envelope): Json {
    JObj(map[tag := JStr(e.name), payloadKey := e.payload]
         + (if e.requestId.Some? then map["request_id" := JStr(e.requestId.value)] else map[]))
  }

  /** Read the envelope fields back out of a parsed envelope object. */
  function ReadEnvelope(tag: string, payloadKey: string, v: Json): Result<Envelope> {
    if v.JObj? && tag in v.fields && v.fields[tag].JStr? && payloadKey in v.fields
       && ("request_id" in v.fields ==> v.fields["request_id"].JStr?)
    then
      Ok(Envelope(v.fields[tag].s, v.fields[payloadKey],
                  if "request_id" in v.fields then Some(v.fields["request_id"].s) else None))
    else Err(InvalidType)
  }

  /** Parse `raw` with the union of all envelope variants of the table. */
  function DecodeEnvelope(entries: seq<(string, Schema)>, tag: string, payloadKey: string, raw: Json): (r: Result<Envelope>)
    ensures r.Ok? ==> raw.JObj?
  {
    ObjectUnionNeedsObject(EnvelopeArms(entries, tag, payloadKey), raw);
    match Validate(SUnion(EnvelopeArms(entries, tag, payloadKey)), raw)
    case Ok(v) => ReadEnvelope(tag, payloadKey, v)
    case Err(e) => Err(e)
  }

  /**
   * Reference decoding: read the discriminant, look its schema up by name,
   * parse the payload with that schema alone (it must not come out as
   * `undefined`) and accept an absent or string id.
   */
  function PickVariant(entries: seq<(string, Schema)>, tag: string, payloadKey: string, raw: Json): (r: Option<Envelope>)
    ensures r.Some? ==> raw.JObj? && tag in raw.fields && raw.fields[tag] == JStr(r.value.name)
    ensures r.Some? ==> SchemaFor(entries, r.value.name).Some?
    ensures r.Some? ==> (r.value.requestId.Some? <==> "request_id" in raw.fields)
  {
    if !raw.JObj? || tag !in raw.fields || !raw.fields[tag].JStr? then None
    else
      var m := raw.fields;
      match SchemaFor(entries, m[tag].s)
      case None => None
      case Some(s) =>
        match ParseField(s, Get(m, payloadKey))
        case Ok(Some(payload)) =>
          if "request_id" in m && !m["request_id"].JStr? then None
          else Some(Envelope(m[tag].s, payload, if "request_id" in m then Some(m["request_id"].s) else None))
        case _ => None
  }

  /** An envelope variant accepts exactly the objects carrying its own name, a valid payload and an absent or string id. */
  lemma ArmAccepts(tag: string, payloadKey: string, name: string, s: Schema, m: map<string, Json>)
    requires tag != payloadKey && tag != "request_id" && payloadKey != "request_id"
    ensures Validate(EnvelopeArm(tag, payloadKey, name, s), JObj(m)).Ok? <==>
      (&& tag in m && m[tag] == JStr(name)
       && ParseField(s, Get(m, payloadKey)).Ok?
       && ("request_id" in m ==> m["request_id"].JStr?))
  {
    var shape := map[tag := SLiteral(name), payloadKey := s, "request_id" := OptionalRequestId];
    ObjectAccepts(shape, Strip, m);
    assert shape[tag] == SLiteral(name) && shape[payloadKey] == s && shape["request_id"] == OptionalRequestId;
  }

  /** What an accepting envelope variant outputs, read back as an envelope: a payload parsed to `undefined` leaves no envelope. */
  lemma ArmOutput(tag: string, payloadKey: string, name: string, s: Schema, m: map<string, Json>)
    requires tag != payloadKey && tag != "request_id" && payloadKey != "request_id"
    requires Validate(EnvelopeArm(tag, payloadKey, name, s), JObj(m)).Ok?
    requires "request_id" in m ==> m["request_id"].JStr?
    ensures ParseField(s, Get(m, payloadKey)).Ok?
    ensures ReadEnvelope(tag, payloadKey, Validate(EnvelopeArm(tag, payloadKey, name, s), JObj(m)).value).Ok?
        <==> ParseField(s, Get(m, payloadKey)).value.Some?
    ensures ParseField(s, Get(m, payloadKey)).value.Some? ==>
      ReadEnvelope(tag, payloadKey, Validate(EnvelopeArm(tag, payloadKey, name, s), JObj(m)).value)
         == Ok(Envelope(name, ParseField(s, Get(m, payloadKey)).value.value,
                        if "request_id" in m then Some(m["request_id"].s) else None))
  {
    var shape := map[tag := SLiteral(name), payloadKey := s, "request_id" := OptionalRequestId];
    assert shape[tag] == SLiteral(name) && shape[payloadKey] == s && shape["request_id"] == OptionalRequestId;
    ArmAccepts(tag, payloadKey, name, s, m);
    var v := Validate(EnvelopeArm(tag, payloadKey, name, s), JObj(m)).value;
    assert v.JObj?;
    ObjectOutputKeys(shape, Strip, m, v.fields);
    assert ParseField(SLiteral(name), Get(m, tag)) == Ok(Some(JStr(name)));
    if "request_id" in m {
      assert ParseField(OptionalRequestId, Get(m, "request_id")) == Ok(Some(m["request_id"]));
    } else {
      assert ParseField(OptionalRequestId, Get(m, "request_id")) == Ok(None);
    }
  }

  /** A variant accepts only objects whose discriminant is its own name. */
  lemma ArmNeedsName(entries: seq<(string, Schema)>, tag: string, payloadKey: string, m: map<string, Json>, x: nat)
    requires tag != payloadKey && tag != "request_id" && payloadKey != "request_id"
    requires x < |entries| && Validate(EnvelopeArms(entries, tag, payloadKey)[x], JObj(m)).Ok?
    ensures tag in m && m[tag] == JStr(entries[x].0)
  {
    ArmAccepts(tag, payloadKey, entries[x].0, entries[x].1, m);
  }

  /** Without a discriminant naming a table entry, no variant accepts. */
  lemma NoVariantForName(entries: seq<(string, Schema)>, tag: string, payloadKey: string, m: map<string, Json>)
    requires tag != payloadKey && tag != "request_id" && payloadKey != "request_id"
    requires tag !in m || !m[tag].JStr? || m[tag].s !in Names(entries)
    ensures DecodeEnvelope(entries, tag, payloadKey, JObj(m)).Err?
  {
    var arms := EnvelopeArms(entries, tag, payloadKey);
    forall x | 0 <= x < |arms| ensures Validate(arms[x], JObj(m)).Err? {
      if Validate(arms[x], JObj(m)).Ok? {
        ArmNeedsName(entries, tag, payloadKey, m, x);
      }
    }
    UnionNoneAccepting(arms, JObj(m));
  }

  /** With a discriminant naming entry `k`, the union decodes as that variant alone. */
  lemma OnlyNamedVariant(entries: seq<(string, Schema)>, tag: string, payloadKey: string, m: map<string, Json>, k: nat)
    requires DistinctNames(entries)
    requires tag != payloadKey && tag != "request_id" && payloadKey != "request_id"
    requires k < |entries| && tag in m && m[tag] == JStr(entries[k].0)
    ensures Validate(SUnion(EnvelopeArms(entries, tag, payloadKey)), JObj(m)).Ok? <==>
            Validate(EnvelopeArms(entries, tag, payloadKey)[k], JObj(m)).Ok?
    ensures Validate(EnvelopeArms(entries, tag, payloadKey)[k], JObj(m)).Ok? ==>
            Validate(SUnion(EnvelopeArms(entries, tag, payloadKey)), JObj(m)) ==
            Validate(EnvelopeArms(entries, tag, payloadKey)[k], JObj(m))
  {
    var arms := EnvelopeArms(entries, tag, payloadKey);
    forall x | 0 <= x < |arms| && x != k ensures Validate(arms[x], JObj(m)).Err? {
      if Validate(arms[x], JObj(m)).Ok? {
        ArmNeedsName(entries, tag, payloadKey, m, x);
      }
    }
    UnionOnlyCandidate(arms, JObj(m), k);
  }

  /** Decoding with the union of variants is decoding by discriminant. */
  lemma DecodeEnvelopePicksVariant(entries: seq<(string, Schema)>, tag: string, payloadKey: string, raw: Json)
    requires DistinctNames(entries)
    requires tag != payloadKey && tag != "request_id" && payloadKey != "request_id"
    ensures DecodeEnvelope(entries, tag, payloadKey, raw).Ok? <==> PickVariant(entries, tag, payloadKey, raw).Some?
    ensures DecodeEnvelope(entries, tag, payloadKey, raw).Ok? ==>
      DecodeEnvelope(entries, tag, payloadKey, raw).value == PickVariant(entries, tag, payloadKey, raw).value
  {
    var arms := EnvelopeArms(entries, tag, payloadKey);
    if !raw.JObj? {
      UnionNoneAccepting(arms, raw);
    } else if tag !in raw.fields || !raw.fields[tag].JStr? || SchemaFor(entries, raw.fields[tag].s).None? {
      NoVariantForName(entries, tag, payloadKey, raw.fields);
    } else {
      var m := raw.fields;
      var name := m[tag].s;
      var s := SchemaFor(entries, name).value;
      var k :| 0 <= k < |entries| && entries[k] == (name, s);
      OnlyNamedVariant(entries, tag, payloadKey, m, k);
      ArmAccepts(tag, payloadKey, name, s, m);
      if Validate(arms[k], raw).Ok? {
        ArmOutput(tag, payloadKey, name, s, m);
      }
    }
  }

  // ---------------------------------------------------------------------
  // Encode and decode

  /** Builds the action envelope; the parameters are not validated. */
  function EncodeAction(action: string, params: Json, requestId: Option<string>): (r: Envelope)
    ensures r.name == action && r.payload == params && r.requestId == requestId
  {
    Envelope(action, params, requestId)
  }

  /** Decode an inbound frame: the union of all signal variants, which picks the variant by its `signal` name. */
  function DecodeSignal(raw: Json): (r: Result<Envelope>)
    ensures r.Ok? <==> PickVariant(SignalEntries, "signal", "data", raw).Some?
    ensures r.Ok? ==> r.value == PickVariant(SignalEntries, "signal", "data", raw).value
  {
    SignalNamesDistinct();
    DecodeEnvelopePicksVariant(SignalEntries, "signal", "data", raw);
    DecodeEnvelope(SignalEntries, "signal", "data", raw)
  }

  /** Decode an outbound frame: the union of all action variants, which picks the variant by its `action` name. */
  function DecodeAction(raw: Json): (r: Result<Envelope>)
    ensures r.Ok? <==> PickVariant(ActionEntries, "action", "params", raw).Some?
    ensures r.Ok? ==> r.value == PickVariant(ActionEntries, "action", "params", raw).value
  {
    ActionNamesDistinct();
    DecodeEnvelopePicksVariant(ActionEntries, "action", "params", raw);
    DecodeEnvelope(ActionEntries, "action", "params", raw)
  }
}
