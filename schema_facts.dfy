/**
 * Properties of the concrete protocol tables: which payloads each
 * action and signal accepts, what decoding fills in, and the encode and
 * decode round trip.
 */
module SchemaFacts {
  import opened Wrappers
  import opened Json
  import opened Zod
  import opened ProtocolSchema

  // ---------------------------------------------------------------------
  // Encoding

  /** A decoded action re-encodes to itself: decoding the encoding of valid parameters gives them back unchanged. */
  lemma EncodeDecodeRoundTrip(action: string, params: Json, requestId: Option<string>)
    requires SchemaFor(ActionEntries, action).Some?
    requires Validate(SchemaFor(ActionEntries, action).value, params) == Ok(params)
    ensures DecodeAction(EnvelopeJson("action", "params", EncodeAction(action, params, requestId)))
         == Ok(EncodeAction(action, params, requestId))
  {
    var raw := EnvelopeJson("action", "params", EncodeAction(action, params, requestId));
    assert raw.fields["action"] == JStr(action);
    assert raw.fields["params"] == params;
    assert "request_id" in raw.fields <==> requestId.Some?;
    assert requestId.Some? ==> raw.fields["request_id"] == JStr(requestId.value);
  }

  /** Encoding checks nothing: it wraps a start request with a zero tick rate, which decoding then rejects. */
  lemma EncodeDoesNotValidate()
    ensures EncodeAction("simulation.start", JObj(map["tick_rate" := JNum(0.0), "speed" := JNum(1.0)]), None).payload
         == JObj(map["tick_rate" := JNum(0.0), "speed" := JNum(1.0)])
    ensures DecodeAction(EnvelopeJson("action", "params",
              EncodeAction("simulation.start", JObj(map["tick_rate" := JNum(0.0), "speed" := JNum(1.0)]), None))).Err?
  {
    var m := map["tick_rate" := JNum(0.0), "speed" := JNum(1.0)];
    var raw := EnvelopeJson("action", "params", EncodeAction("simulation.start", JObj(m), None));
    assert raw.fields == map["action" := JStr("simulation.start"), "params" := JObj(m)];
    PlaybackParamsExact(m);
    StartRejectedWithBadParams(raw);
  }

  /** A start request whose parameters fail the playback schema does not decode. */
  lemma StartRejectedWithBadParams(raw: Json)
    requires raw.JObj? && "action" in raw.fields && raw.fields["action"] == JStr("simulation.start")
    requires ParseField(PlaybackParams, Get(raw.fields, "params")).Err?
    ensures DecodeAction(raw).Err?
  {
    PlaybackActionsShareSchema();
    PickRejectsPayload(ActionEntries, "action", "params", raw, PlaybackParams);
  }

  /** The reference decoding rejects an envelope whose payload fails the schema its name selects. */
  lemma PickRejectsPayload(entries: seq<(string, Schema)>, tag: string, payloadKey: string, raw: Json, s: Schema)
    requires raw.JObj? && tag in raw.fields && raw.fields[tag].JStr?
    requires SchemaFor(entries, raw.fields[tag].s) == Some(s)
    requires ParseField(s, Get(raw.fields, payloadKey)).Err?
    ensures PickVariant(entries, tag, payloadKey, raw).None?
  {
  }

  // ---------------------------------------------------------------------
  // Playback

  /** Start and update take the same parameters. */
  lemma PlaybackActionsShareSchema()
    ensures SchemaFor(ActionEntries, "simulation.start") == Some(PlaybackParams)
    ensures SchemaFor(ActionEntries, "simulation.update") == Some(PlaybackParams)
  {
    ActionNamesDistinct();
    SchemaForIndex(ActionEntries, 0);
    SchemaForIndex(ActionEntries, 4);
  }

  lemma PositiveIntAccepts(v: Json)
    ensures Validate(PositiveInt, v).Ok? <==> v.JNum? && IsInteger(v.n) && v.n >= 1.0
    ensures Validate(PositiveInt, v).Ok? ==> Validate(PositiveInt, v).value == v
  {
    var checks := [Int, Min(1.0)];
    assert checks[0] == Int && checks[1] == Min(1.0);
    if v.JNum? && IsInteger(v.n) && v.n >= 1.0 {
      assert forall i | 0 <= i < |checks| :: Holds(checks[i], v.n);
    }
  }

  lemma NonNegativeAccepts(v: Json)
    ensures Validate(NonNegative, v).Ok? <==> v.JNum? && v.n >= 0.0
    ensures Validate(NonNegative, v).Ok? ==> Validate(NonNegative, v).value == v
  {
    var checks := [Min(0.0)];
    assert checks[0] == Min(0.0);
    if v.JNum? && v.n >= 0.0 {
      assert forall i | 0 <= i < |checks| :: Holds(checks[i], v.n);
    }
  }

  lemma PositiveIntFieldAccepts(m: map<string, Json>, k: string)
    ensures ParseField(PositiveInt, Get(m, k)).Ok? <==>
      k in m && m[k].JNum? && IsInteger(m[k].n) && m[k].n >= 1.0
    ensures ParseField(PositiveInt, Get(m, k)).Ok? ==> ParseField(PositiveInt, Get(m, k)).value == Some(m[k])
  {
    if k in m { PositiveIntAccepts(m[k]); }
  }

  lemma NonNegativeFieldAccepts(m: map<string, Json>, k: string)
    ensures ParseField(NonNegative, Get(m, k)).Ok? <==> k in m && m[k].JNum? && m[k].n >= 0.0
    ensures ParseField(NonNegative, Get(m, k)).Ok? ==> ParseField(NonNegative, Get(m, k)).value == Some(m[k])
  {
    if k in m { NonNegativeAccepts(m[k]); }
  }

  /** Playback parameters: an integer tick rate of at least 1 and a non-negative speed; other keys are dropped. */
  lemma PlaybackParamsExact(m: map<string, Json>)
    ensures Validate(PlaybackParams, JObj(m)).Ok? <==>
      (&& "tick_rate" in m && m["tick_rate"].JNum? && IsInteger(m["tick_rate"].n) && m["tick_rate"].n >= 1.0
       && "speed" in m && m["speed"].JNum? && m["speed"].n >= 0.0)
    ensures Validate(PlaybackParams, JObj(m)).Ok? ==>
      Validate(PlaybackParams, JObj(m)).value == JObj(map["tick_rate" := m["tick_rate"], "speed" := m["speed"]])
  {
    var shape := map["tick_rate" := PositiveInt, "speed" := NonNegative];
    ObjectAccepts(shape, Strip, m);
    assert shape.Keys == {"tick_rate", "speed"};
    PositiveIntFieldAccepts(m, "tick_rate");
    NonNegativeFieldAccepts(m, "speed");
    if Validate(PlaybackParams, JObj(m)).Ok? {
      var out := Validate(PlaybackParams, JObj(m)).value.fields;
      ObjectOutputKeys(shape, Strip, m, out);
      assert out == map["tick_rate" := m["tick_rate"], "speed" := m["speed"]];
    }
  }

  /** A start request at 60 ticks per second and speed 1 survives encoding and decoding. */
  lemma StartRequestRoundTrip(requestId: Option<string>)
    ensures DecodeAction(EnvelopeJson("action", "params",
              EncodeAction("simulation.start", JObj(map["tick_rate" := JNum(60.0), "speed" := JNum(1.0)]), requestId)))
         == Ok(EncodeAction("simulation.start", JObj(map["tick_rate" := JNum(60.0), "speed" := JNum(1.0)]), requestId))
  {
    var m := map["tick_rate" := JNum(60.0), "speed" := JNum(1.0)];
    PlaybackActionsShareSchema();
    PlaybackParamsExact(m);
    assert map["tick_rate" := m["tick_rate"], "speed" := m["speed"]] == m;
    EncodeDecodeRoundTrip("simulation.start", JObj(m), requestId);
  }

  // ---------------------------------------------------------------------
  // Map creation

  /** The six creation parameters that are probabilities. */
  const ProbabilityFields: set<string> := {"intra_connectivity", "arterial_ratio", "gridness",
    "ring_road_prob", "highway_curviness", "rural_settlement_prob"}

  /** The four creation parameters that are `[min, max]` ranges. */
  const RangeFields: set<string> := {"urban_activity_rate_range", "rural_activity_rate_range",
    "gas_station_capacity_range", "gas_station_cost_factor_range"}

  lemma MapCreateFieldsRequired()
    ensures forall k | k in MapCreateShape :: ValidateMissing(MapCreateShape[k]).Err?
  {
  }

  /** Map creation is strict: every parameter must be present and valid and no other key may appear. */
  lemma MapCreateAccepts(m: map<string, Json>)
    ensures Validate(MapCreateParams, JObj(m)).Ok? <==>
      (m.Keys == MapCreateShape.Keys && forall k | k in MapCreateShape :: Validate(MapCreateShape[k], m[k]).Ok?)
  {
    ObjectAccepts(MapCreateShape, Strict, m);
    MapCreateFieldsRequired();
    forall k | k in MapCreateShape
      ensures ParseField(MapCreateShape[k], Get(m, k)).Ok? <==> (k in m && Validate(MapCreateShape[k], m[k]).Ok?)
    {
    }
  }

  /** A creation request carrying a key outside the generator's parameters is rejected. */
  lemma MapCreateRejectsUnknownKey(m: map<string, Json>, k: string)
    requires k in m && k !in MapCreateShape
    ensures Validate(MapCreateParams, JObj(m)).Err?
  {
    MapCreateAccepts(m);
  }

  /** A probability parameter accepts exactly the numbers in [0, 1]. */
  lemma ProbabilityFieldBounds(k: string, v: Json)
    requires k in ProbabilityFields
    ensures k in MapCreateShape && MapCreateShape[k] == Probability
    ensures Validate(MapCreateShape[k], v).Ok? <==> v.JNum? && 0.0 <= v.n <= 1.0
  {
    var checks := [Min(0.0), Max(1.0)];
    assert checks[0] == Min(0.0) && checks[1] == Max(1.0);
    if v.JNum? && 0.0 <= v.n <= 1.0 {
      assert forall i | 0 <= i < |checks| :: Holds(checks[i], v.n);
    }
  }

  /** A range parameter accepts exactly the two-element arrays of non-negative numbers, in either order. */
  lemma RangeFieldBounds(k: string, v: Json)
    requires k in RangeFields
    ensures k in MapCreateShape && MapCreateShape[k] == NonNegativePair
    ensures Validate(MapCreateShape[k], v).Ok? <==>
      (v.JArr? && |v.items| == 2 && v.items[0].JNum? && v.items[0].n >= 0.0 && v.items[1].JNum? && v.items[1].n >= 0.0)
  {
    if v.JArr? && |v.items| == 2 {
      TupleAccepts([NonNegative, NonNegative], v);
      NonNegativeAccepts(v.items[0]);
      NonNegativeAccepts(v.items[1]);
    }
  }

  /** The order of a range's two ends is not checked: [5, 1] is accepted. */
  lemma RangeOrderNotChecked()
    ensures Validate(NonNegativePair, JArr([JNum(5.0), JNum(1.0)])).Ok?
  {
    RangeFieldBounds("urban_activity_rate_range", JArr([JNum(5.0), JNum(1.0)]));
  }

  /** The reply to map creation is strict and has no gas-station count: a reply carrying one is rejected. */
  lemma MapCreatedRejectsGasStationCount(m: map<string, Json>)
    requires "generated_gas_stations" in m
    ensures Validate(MapCreatedData, JObj(m)).Err?
  {
    assert "generated_gas_stations" !in MapCreatedShape;
    ObjectAccepts(MapCreatedShape, Strict, m);
  }

  // ---------------------------------------------------------------------
  // Agents

  /** An agent signal variant accepts only objects whose `kind` is its own literal. */
  lemma AgentArmNeedsKind(extension: map<string, Schema>, kind: string, m: map<string, Json>)
    requires "kind" in extension && extension["kind"] == SLiteral(kind)
    requires Validate(SObject(Extend(AgentSignalBase, extension), Catchall), JObj(m)).Ok?
    ensures "kind" in m && m["kind"] == JStr(kind)
  {
    var shape := Extend(AgentSignalBase, extension);
    ObjectAccepts(shape, Catchall, m);
    assert ParseField(shape["kind"], Get(m, "kind")).Ok?;
  }

  lemma AgentSignalArmKind(m: map<string, Json>, x: nat)
    requires x < 3 && Validate(AgentSignalData.arms[x], JObj(m)).Ok?
    ensures "kind" in m && m["kind"] == JStr(["building", "truck", "broker"][x])
  {
    if x == 0 {
      BuildingArmKind(m);
    } else if x == 1 {
      TruckArmKind(m);
    } else {
      BrokerArmKind(m);
    }
  }

  lemma BuildingArmKind(m: map<string, Json>)
    requires Validate(BuildingAgentSignalData, JObj(m)).Ok?
    ensures "kind" in m && m["kind"] == JStr("building")
  {
    AgentArmNeedsKind(BuildingExtension, "building", m);
  }

  lemma TruckArmKind(m: map<string, Json>)
    requires Validate(TruckAgentSignalData, JObj(m)).Ok?
    ensures "kind" in m && m["kind"] == JStr("truck")
  {
    AgentArmNeedsKind(TruckExtension, "truck", m);
  }

  lemma BrokerArmKind(m: map<string, Json>)
    requires Validate(BrokerAgentSignalData, JObj(m)).Ok?
    ensures "kind" in m && m["kind"] == JStr("broker")
  {
    AgentArmNeedsKind(BrokerExtension, "broker", m);
  }

  /** Agent signal data needs one of the three agent kinds. */
  lemma AgentSignalNeedsKnownKind(m: map<string, Json>)
    ensures Validate(AgentSignalData, JObj(m)).Ok? ==>
      "kind" in m && m["kind"] in {JStr("building"), JStr("truck"), JStr("broker")}
  {
    var arms := AgentSignalData.arms;
    if Validate(AgentSignalData, JObj(m)).Ok? {
      if Validate(arms[0], JObj(m)).Ok? {
        AgentSignalArmKind(m, 0);
      } else if Validate(arms[1], JObj(m)).Ok? {
        AgentSignalArmKind(m, 1);
      } else if Validate(arms[2], JObj(m)).Ok? {
        AgentSignalArmKind(m, 2);
      } else {
        UnionNoneAccepting(arms, JObj(m));
      }
    }
  }

  /** Agent signal data is decoded by the variant its `kind` names. */
  lemma AgentSignalByKind(m: map<string, Json>, x: nat)
    requires x < 3 && "kind" in m && m["kind"] == JStr(["building", "truck", "broker"][x])
    ensures Validate(AgentSignalData, JObj(m)).Ok? <==> Validate(AgentSignalData.arms[x], JObj(m)).Ok?
    ensures Validate(AgentSignalData, JObj(m)).Ok? ==> Validate(AgentSignalData, JObj(m)) == Validate(AgentSignalData.arms[x], JObj(m))
  {
    var arms := AgentSignalData.arms;
    forall y | 0 <= y < 3 && y != x ensures Validate(arms[y], JObj(m)).Err? {
      if Validate(arms[y], JObj(m)).Ok? {
        AgentSignalArmKind(m, y);
      }
    }
    UnionOnlyCandidate(arms, JObj(m), x);
  }

  /** An object variant whose `kind` is a literal accepts only objects carrying that `kind`. */
  lemma ObjectNeedsKind(shape: map<string, Schema>, kind: string, m: map<string, Json>)
    requires "kind" in shape && shape["kind"] == SLiteral(kind)
    requires Validate(SObject(shape, Catchall), JObj(m)).Ok?
    ensures "kind" in m && m["kind"] == JStr(kind)
  {
    ObjectAccepts(shape, Catchall, m);
    assert ParseField(shape["kind"], Get(m, "kind")).Ok?;
  }

  lemma UpdatedArmKind(m: map<string, Json>, x: nat)
    requires x < 2 && Validate(AgentUpdatedData.arms[x], JObj(m)).Ok?
    ensures "kind" in m && m["kind"] == JStr(["truck", "broker"][x])
  {
    if x == 0 {
      ObjectNeedsKind(TruckAgentUpdatedData.shape, "truck", m);
    } else {
      ObjectNeedsKind(BrokerAgentUpdatedData.shape, "broker", m);
    }
  }

  /** Agent update data is decoded by the variant its `kind` names. */
  lemma AgentUpdatedByKind(m: map<string, Json>, x: nat)
    requires x < 2 && "kind" in m && m["kind"] == JStr(["truck", "broker"][x])
    ensures Validate(AgentUpdatedData, JObj(m)).Ok? <==> Validate(AgentUpdatedData.arms[x], JObj(m)).Ok?
    ensures Validate(AgentUpdatedData, JObj(m)).Ok? ==> Validate(AgentUpdatedData, JObj(m)) == Validate(AgentUpdatedData.arms[x], JObj(m))
  {
    var arms := AgentUpdatedData.arms;
    if Validate(arms[1 - x], JObj(m)).Ok? {
      UpdatedArmKind(m, 1 - x);
    }
    UnionOnlyCandidate(arms, JObj(m), x);
  }

  lemma AgentArmTagsDefault(extension: map<string, Schema>, m: map<string, Json>, out: map<string, Json>)
    requires "tags" !in extension && "tags" !in m
    requires Validate(SObject(Extend(AgentSignalBase, extension), Catchall), JObj(m)) == Ok(JObj(out))
    ensures "tags" in out && out["tags"] == JObj(map[])
  {
    var shape := Extend(AgentSignalBase, extension);
    assert shape["tags"] == AgentTags;
    DefaultFieldMissing(shape, Catchall, m, out, "tags");
    assert Validate(SRecord(SUnknown), JObj(map[])) == Ok(JObj(map[]));
  }

  lemma AgentArmTags(m: map<string, Json>, out: map<string, Json>, x: nat)
    requires x < 3 && "tags" !in m
    requires Validate(AgentSignalData.arms[x], JObj(m)) == Ok(JObj(out))
    ensures "tags" in out && out["tags"] == JObj(map[])
  {
    if x == 0 {
      BuildingArmTags(m, out);
    } else if x == 1 {
      TruckArmTags(m, out);
    } else {
      BrokerArmTags(m, out);
    }
  }

  lemma BuildingArmTags(m: map<string, Json>, out: map<string, Json>)
    requires "tags" !in m && Validate(BuildingAgentSignalData, JObj(m)) == Ok(JObj(out))
    ensures "tags" in out && out["tags"] == JObj(map[])
  {
    AgentArmTagsDefault(BuildingExtension, m, out);
  }

  lemma TruckArmTags(m: map<string, Json>, out: map<string, Json>)
    requires "tags" !in m && Validate(TruckAgentSignalData, JObj(m)) == Ok(JObj(out))
    ensures "tags" in out && out["tags"] == JObj(map[])
  {
    AgentArmTagsDefault(TruckExtension, m, out);
  }

  lemma BrokerArmTags(m: map<string, Json>, out: map<string, Json>)
    requires "tags" !in m && Validate(BrokerAgentSignalData, JObj(m)) == Ok(JObj(out))
    ensures "tags" in out && out["tags"] == JObj(map[])
  {
    AgentArmTagsDefault(BrokerExtension, m, out);
  }

  /** Decoded agent data always has tags: `{}` when the signal carries none. */
  lemma AgentTagsDefaultEmpty(m: map<string, Json>, out: map<string, Json>)
    requires Validate(AgentSignalData, JObj(m)) == Ok(JObj(out))
    requires "tags" !in m
    ensures "tags" in out && out["tags"] == JObj(map[])
  {
    AgentSignalNeedsKnownKind(m);
    var x: nat := if m["kind"] == JStr("building") then 0 else if m["kind"] == JStr("truck") then 1 else 2;
    AgentSignalByKind(m, x);
    AgentArmTags(m, out, x);
  }

  /** Decoded graph nodes always have a building list: `[]` when the node carries none. */
  lemma GraphNodeBuildingsDefaultEmpty(m: map<string, Json>, out: map<string, Json>)
    requires Validate(GraphNode, JObj(m)) == Ok(JObj(out))
    requires "buildings" !in m
    ensures "buildings" in out && out["buildings"] == JArr([])
  {
    DefaultFieldMissing(GraphNode.shape, Strip, m, out, "buildings");
    ArrayAccepts(BuildingData, JArr([]));
  }

  /** Decoded parkings always have an occupant list: `[]` when the parking carries none. */
  lemma ParkingAgentsDefaultEmpty(m: map<string, Json>, out: map<string, Json>)
    requires Validate(ParkingData, JObj(m)) == Ok(JObj(out))
    requires "current_agents" !in m
    ensures "current_agents" in out && out["current_agents"] == JArr([])
  {
    DefaultFieldMissing(ParkingData.shape, Catchall, m, out, "current_agents");
    ArrayAccepts(AnyString, JArr([]));
  }

  /** Decoded sites always have a package list: `[]` when the site carries none. */
  lemma SiteActivePackagesDefaultEmpty(m: map<string, Json>, out: map<string, Json>)
    requires Validate(SiteData, JObj(m)) == Ok(JObj(out))
    requires "active_packages" !in m
    ensures "active_packages" in out && out["active_packages"] == JArr([])
  {
    DefaultFieldMissing(SiteData.shape, Catchall, m, out, "active_packages");
    ArrayAccepts(AnyString, JArr([]));
  }

  /** Decoded gas stations always have an occupant list: `[]` when the station carries none. */
  lemma GasStationAgentsDefaultEmpty(m: map<string, Json>, out: map<string, Json>)
    requires Validate(GasStationData, JObj(m)) == Ok(JObj(out))
    requires "current_agents" !in m
    ensures "current_agents" in out && out["current_agents"] == JArr([])
  {
    DefaultFieldMissing(GasStationData.shape, Catchall, m, out, "current_agents");
    ArrayAccepts(AnyString, JArr([]));
  }

  /**
   * Agent creation data tries the truck variant first, and every truck
   * field is optional with unknown keys dropped: broker data decodes as
   * an empty truck record and its balance is lost.
   */
  lemma BrokerDataReadAsTruck(balance: real)
    ensures Validate(AgentDataUnion, JObj(map["balance_ducats" := JNum(balance)])) == Ok(JObj(map[]))
  {
    var m := map["balance_ducats" := JNum(balance)];
    AllOptionalAbsent(TruckAgentData.shape, m);
    UnionFirstAccepting(AgentDataUnion.arms, JObj(m), 0);
  }

  // ---------------------------------------------------------------------
  // Files

  /** Export and import requests need a non-empty file name. */
  lemma FileActionsNeedName(m: map<string, Json>)
    ensures Validate(FilenameParams, JObj(m)).Ok? <==> "filename" in m && m["filename"].JStr? && |m["filename"].s| >= 1
  {
    ObjectAccepts(FilenameParams.shape, Strip, m);
    assert FilenameParams.shape.Keys == {"filename"};
  }

  /** Upload requests need non-empty content and a non-empty file name. */
  lemma FileUploadNeedsContent(m: map<string, Json>)
    ensures Validate(FileUploadParams, JObj(m)).Ok? <==>
      (&& "file_content" in m && m["file_content"].JStr? && |m["file_content"].s| >= 1
       && "filename" in m && m["filename"].JStr? && |m["filename"].s| >= 1)
  {
    var shape := FileUploadParams.shape;
    ObjectAccepts(shape, Strip, m);
    assert shape.Keys == {"file_content", "filename"};
  }

  /** The replies accept any string, including the empty one. */
  lemma FileRepliesAcceptEmpty(m: map<string, Json>)
    ensures Validate(FilenameData, JObj(m)).Ok? <==> "filename" in m && m["filename"].JStr?
    ensures Validate(FileDownloadData, JObj(map["filename" := JStr(""), "file_content" := JStr("")])).Ok?
  {
    ObjectAccepts(FilenameData.shape, Strip, m);
    var d := map["filename" := JStr(""), "file_content" := JStr("")];
    ObjectAccepts(FileDownloadData.shape, Strip, d);
    assert FileDownloadData.shape.Keys == {"filename", "file_content"};
  }
}
