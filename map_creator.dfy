// The map-creator panel's parameter logic: the default `map.create`
// record, the field updaters behind its inputs, sliders and preset buttons,
// the merge of an incoming `map.created` signal into the form, and the
// guards of its create, export and import handlers.

module MapCreator {
  import opened Wrappers
  import opened Json
  import opened Zod
  import opened ProtocolSchema
  import opened Playback
  import Js
  import Bytes
  import SchemaFacts

  /** The form state: a `map.create` parameter record. */
  type Params = map<string, Json>

  function Pair(lo: real, hi: real): Json
  {
    JArr([JNum(lo), JNum(hi)])
  }

  const Defaults: Params := map[
    "map_width" := JNum(1000.0),
    "map_height" := JNum(1000.0),
    "num_major_centers" := JNum(3.0),
    "minor_per_major" := JNum(2.0),
    "center_separation" := JNum(2500.0),
    "urban_sprawl" := JNum(800.0),
    "local_density" := JNum(50.0),
    "rural_density" := JNum(5.0),
    "intra_connectivity" := JNum(0.3),
    "inter_connectivity" := JNum(2.0),
    "arterial_ratio" := JNum(0.2),
    "gridness" := JNum(0.3),
    "ring_road_prob" := JNum(0.1),
    "highway_curviness" := JNum(0.2),
    "rural_settlement_prob" := JNum(0.15),
    "urban_sites_per_km2" := JNum(2.0),
    "rural_sites_per_km2" := JNum(0.5),
    "urban_parkings_per_km2" := JNum(2.0),
    "rural_parkings_per_km2" := JNum(0.5),
    "urban_gas_stations_per_km2" := JNum(1.0),
    "rural_gas_stations_per_km2" := JNum(0.2),
    "urban_activity_rate_range" := Pair(100.0, 400.0),
    "rural_activity_rate_range" := Pair(50.0, 200.0),
    "gas_station_capacity_range" := Pair(10.0, 50.0),
    "gas_station_cost_factor_range" := Pair(1.0, 2.0),
    "seed" := JNum(42.0)]

  const InitialExportFilename: string := "map_1000x1000_42"

  /** The parameters that must be positive (`gt(0)`). */
  const PositiveFields: set<string> :=
    {"map_width", "map_height", "center_separation", "urban_sprawl", "local_density"}

  /** The parameters that must be non-negative (`min(0)`). */
  const NonNegativeFields: set<string> := {"minor_per_major", "rural_density",
    "urban_sites_per_km2", "rural_sites_per_km2", "urban_parkings_per_km2",
    "rural_parkings_per_km2", "urban_gas_stations_per_km2", "rural_gas_stations_per_km2"}

  lemma FieldGroups()
    ensures MapCreateShape.Keys == PositiveFields + NonNegativeFields
      + {"num_major_centers", "inter_connectivity", "seed"}
      + SchemaFacts.ProbabilityFields + SchemaFacts.RangeFields
  {
  }

  /** A number passes every check of a number schema. */
  lemma NumberAccepts(checks: seq<NumCheck>, x: real)
    requires forall i | 0 <= i < |checks| :: Holds(checks[i], x)
    ensures Validate(SNumber(checks), JNum(x)) == Ok(JNum(x))
  {
  }

  lemma PositiveAccepts(v: Json)
    ensures Validate(Positive, v).Ok? <==> v.JNum? && v.n > 0.0
  {
    var checks := [Gt(0.0)];
    assert checks[0] == Gt(0.0);
    if v.JNum? && v.n > 0.0 {
      NumberAccepts(checks, v.n);
    }
  }

  lemma PositiveFieldBounds(k: string, v: Json)
    requires k in PositiveFields
    ensures k in MapCreateShape && MapCreateShape[k] == Positive
    ensures Validate(MapCreateShape[k], v).Ok? <==> v.JNum? && v.n > 0.0
  {
    PositiveAccepts(v);
  }

  lemma NonNegativeFieldBounds(k: string, v: Json)
    requires k in NonNegativeFields
    ensures k in MapCreateShape && MapCreateShape[k] == NonNegative
    ensures Validate(MapCreateShape[k], v).Ok? <==> v.JNum? && v.n >= 0.0
  {
    SchemaFacts.NonNegativeAccepts(v);
  }

  lemma PositiveDefaults(k: string)
    requires k in PositiveFields
    ensures k in Defaults && Validate(MapCreateShape[k], Defaults[k]).Ok?
  {
    assert Defaults[k].JNum? && Defaults[k].n > 0.0;
    PositiveFieldBounds(k, Defaults[k]);
  }

  lemma NonNegativeDefaults(k: string)
    requires k in NonNegativeFields
    ensures k in Defaults && Validate(MapCreateShape[k], Defaults[k]).Ok?
  {
    assert Defaults[k].JNum? && Defaults[k].n >= 0.0;
    NonNegativeFieldBounds(k, Defaults[k]);
  }

  lemma ProbabilityDefaults(k: string)
    requires k in SchemaFacts.ProbabilityFields
    ensures k in Defaults && Validate(MapCreateShape[k], Defaults[k]).Ok?
  {
    assert Defaults[k].JNum? && 0.0 <= Defaults[k].n <= 1.0;
    SchemaFacts.ProbabilityFieldBounds(k, Defaults[k]);
  }

  lemma RangeDefaults(k: string)
    requires k in SchemaFacts.RangeFields
    ensures k in Defaults && Validate(MapCreateShape[k], Defaults[k]).Ok?
  {
    var v := Defaults[k];
    assert v.JArr? && |v.items| == 2 && v.items[0].JNum? && v.items[0].n >= 0.0
      && v.items[1].JNum? && v.items[1].n >= 0.0;
    SchemaFacts.RangeFieldBounds(k, v);
  }

  lemma SeedDefault()
    ensures Validate(MapCreateShape["seed"], Defaults["seed"]).Ok?
  {
    assert (42.0).Floor == 42;
    NumberAccepts([Int], 42.0);
  }

  lemma MajorCentersDefault()
    ensures Validate(MapCreateShape["num_major_centers"], Defaults["num_major_centers"]).Ok?
  {
    assert (3.0).Floor == 3;
    SchemaFacts.PositiveIntAccepts(JNum(3.0));
  }

  lemma InterConnectivityDefault()
    ensures Validate(MapCreateShape["inter_connectivity"], Defaults["inter_connectivity"]).Ok?
  {
    NumberAccepts([Min(1.0)], 2.0);
  }

  lemma DefaultFieldOk(k: string)
    requires k in MapCreateShape
    ensures k in Defaults && Validate(MapCreateShape[k], Defaults[k]).Ok?
  {
    FieldGroups();
    if k in SchemaFacts.ProbabilityFields {
      ProbabilityDefaults(k);
    } else if k in SchemaFacts.RangeFields {
      RangeDefaults(k);
    } else if k in PositiveFields {
      PositiveDefaults(k);
    } else if k in NonNegativeFields {
      NonNegativeDefaults(k);
    } else if k == "seed" {
      SeedDefault();
    } else if k == "num_major_centers" {
      MajorCentersDefault();
    } else {
      InterConnectivityDefault();
    }
  }

  /** The default record is a valid `map.create` parameter record. */
  lemma DefaultsSatisfyCreate()
    ensures Validate(MapCreateParams, JObj(Defaults)).Ok?
  {
    assert Defaults.Keys == MapCreateShape.Keys;
    forall k | k in MapCreateShape
      ensures Validate(MapCreateShape[k], Defaults[k]).Ok?
    {
      DefaultFieldOk(k);
    }
    SchemaFacts.MapCreateAccepts(Defaults);
  }

  // ---------------------------------------------------------------------
  // Keeping a record valid

  /** Every entry of `q` is a `map.create` field with a value its schema accepts. */
  predicate FieldsValid(q: Params)
  {
    forall k | k in q :: k in MapCreateShape && Validate(MapCreateShape[k], q[k]).Ok?
  }

  lemma ValidFields(p: Params)
    ensures Validate(MapCreateParams, JObj(p)).Ok? <==> p.Keys == MapCreateShape.Keys && FieldsValid(p)
  {
    SchemaFacts.MapCreateAccepts(p);
  }

  /** Overwriting fields of a valid record with accepted values keeps it valid. */
  lemma OverlayKeepsValid(p: Params, q: Params)
    requires Validate(MapCreateParams, JObj(p)).Ok?
    requires FieldsValid(q)
    ensures Validate(MapCreateParams, JObj(p + q)).Ok?
  {
    ValidFields(p);
    ValidFields(p + q);
  }

  // ---------------------------------------------------------------------
  // Updaters

  /** `setNumber(key, value)` */
  function NumberUpdate(p: Params, key: string, value: real): (r: Params)
    ensures r.Keys == p.Keys + {key} && r[key] == JNum(value)
    ensures forall k | k in p && k != key :: r[k] == p[k]
  {
    p[key := JNum(value)]
  }

  /** A range entry holds a two-element array. */
  predicate IsPair(v: Json)
  {
    v.JArr? && |v.items| == 2
  }

  /** Every range parameter is present and is a two-element array. */
  predicate RangesArePairs(p: Params)
  {
    forall k | k in SchemaFacts.RangeFields :: k in p && IsPair(p[k])
  }

  /** `setArrayRange(key, index, value)`: only that end of that range changes, to `max(0, value)`. */
  function RangeUpdate(p: Params, key: string, index: nat, value: real): (r: Params)
    requires key in SchemaFacts.RangeFields && index < 2
    requires key in p && IsPair(p[key])
    ensures r.Keys == p.Keys && IsPair(r[key])
    ensures r[key].items[index] == JNum(Js.Max(0.0, value))
    ensures r[key].items[1 - index] == p[key].items[1 - index]
    ensures forall k | k in p && k != key :: r[k] == p[k]
  {
    p[key := JArr(p[key].items[index := JNum(Js.Max(0.0, value))])]
  }

  lemma ValidField(p: Params, k: string)
    requires Validate(MapCreateParams, JObj(p)).Ok? && k in MapCreateShape
    ensures k in p && Validate(MapCreateShape[k], p[k]).Ok?
  {
    ValidFields(p);
  }

  /** A range pair whose ends are non-negative numbers. */
  lemma PairAccepted(key: string, items: seq<Json>)
    requires key in SchemaFacts.RangeFields && |items| == 2
    requires forall i | 0 <= i < 2 :: items[i].JNum? && items[i].n >= 0.0
    ensures FieldsValid(map[key := JArr(items)])
  {
    SchemaFacts.RangeFieldBounds(key, JArr(items));
  }

  lemma RangeUpdateKeepsValid(p: Params, key: string, index: nat, value: real)
    requires key in SchemaFacts.RangeFields && index < 2
    requires Validate(MapCreateParams, JObj(p)).Ok?
    ensures key in p && IsPair(p[key])
    ensures Validate(MapCreateParams, JObj(RangeUpdate(p, key, index, value))).Ok?
  {
    SchemaFacts.RangeFieldBounds(key, JNull);
    ValidField(p, key);
    SchemaFacts.RangeFieldBounds(key, p[key]);
    var items := p[key].items[index := JNum(Js.Max(0.0, value))];
    PairAccepted(key, items);
    OverlayKeepsValid(p, map[key := JArr(items)]);
    assert p + map[key := JArr(items)] == RangeUpdate(p, key, index, value);
  }

  const DenseUrbanPreset: Params := map[
    "num_major_centers" := JNum(5.0),
    "local_density" := JNum(80.0),
    "rural_density" := JNum(0.0),
    "gridness" := JNum(0.7),
    "ring_road_prob" := JNum(0.1)]

  const SparseRuralPreset: Params := map[
    "num_major_centers" := JNum(2.0),
    "local_density" := JNum(20.0),
    "rural_density" := JNum(10.0),
    "gridness" := JNum(0.0),
    "rural_settlement_prob" := JNum(0.3)]

  /** A preset button: exactly the preset's fields are overwritten, the rest kept. */
  function PresetUpdate(p: Params, preset: Params): (r: Params)
    ensures r.Keys == p.Keys + preset.Keys
    ensures forall k | k in preset :: r[k] == preset[k]
    ensures forall k | k in p && k !in preset :: r[k] == p[k]
  {
    p + preset
  }

  lemma DenseUrbanFieldsValid()
    ensures FieldsValid(DenseUrbanPreset)
  {
    forall k | k in DenseUrbanPreset
      ensures k in MapCreateShape && Validate(MapCreateShape[k], DenseUrbanPreset[k]).Ok?
    {
      if k == "num_major_centers" {
        assert (5.0).Floor == 5;
        SchemaFacts.PositiveIntAccepts(JNum(5.0));
      } else if k == "local_density" {
        PositiveFieldBounds(k, JNum(80.0));
      } else if k == "rural_density" {
        NonNegativeFieldBounds(k, JNum(0.0));
      } else if k == "gridness" {
        SchemaFacts.ProbabilityFieldBounds(k, JNum(0.7));
      } else {
        SchemaFacts.ProbabilityFieldBounds(k, JNum(0.1));
      }
    }
  }

  lemma SparseRuralFieldsValid()
    ensures FieldsValid(SparseRuralPreset)
  {
    forall k | k in SparseRuralPreset
      ensures k in MapCreateShape && Validate(MapCreateShape[k], SparseRuralPreset[k]).Ok?
    {
      if k == "num_major_centers" {
        assert (2.0).Floor == 2;
        SchemaFacts.PositiveIntAccepts(JNum(2.0));
      } else if k == "local_density" {
        PositiveFieldBounds(k, JNum(20.0));
      } else if k == "rural_density" {
        NonNegativeFieldBounds(k, JNum(10.0));
      } else if k == "gridness" {
        SchemaFacts.ProbabilityFieldBounds(k, JNum(0.0));
      } else {
        SchemaFacts.ProbabilityFieldBounds(k, JNum(0.3));
      }
    }
  }

  /** Both presets turn a valid record into a valid record. */
  lemma PresetsKeepValid(p: Params)
    requires Validate(MapCreateParams, JObj(p)).Ok?
    ensures Validate(MapCreateParams, JObj(PresetUpdate(p, DenseUrbanPreset))).Ok?
    ensures Validate(MapCreateParams, JObj(PresetUpdate(p, SparseRuralPreset))).Ok?
  {
    DenseUrbanFieldsValid();
    SparseRuralFieldsValid();
    OverlayKeepsValid(p, DenseUrbanPreset);
    OverlayKeepsValid(p, SparseRuralPreset);
  }

  // ---------------------------------------------------------------------
  // Inputs

  /** The parameters edited through a numeric text input. */
  const TextFields: set<string> :=
    PositiveFields + NonNegativeFields + {"num_major_centers", "inter_connectivity", "seed"}

  /** The text inputs clamped to at least 1. */
  const AtLeastOneFields: set<string> := {"center_separation", "urban_sprawl", "inter_connectivity"}

  /** The bound a text input enforces on the value it writes. */
  predicate MeetsClamp(key: string, x: real)
  {
    && (key == "seed" ==> IsInteger(x))
    && (key == "num_major_centers" ==> IsInteger(x) && x >= 1.0)
    && (key == "local_density" ==> x >= 0.0001)
    && (key in NonNegativeFields ==> x >= 0.0)
    && (key in AtLeastOneFields ==> x >= 1.0)
  }

  /**
   * The value a text input writes for the entered text, given `Number(text)`
   * (`None` for NaN): the seed is floored, the major-centre count is a whole
   * number of at least 1, the densities and counts per km² are clamped at 0
   * (local density at 0.0001), separation, sprawl and inter-connectivity at
   * 1; width and height are written unclamped. An empty or unparsable entry
   * reads as 0, or as 1 where the clamp is 1; an entry that already meets
   * the clamp is written as entered.
   */
  function InputValue(key: string, parsed: Option<real>): (r: real)
    requires key in TextFields
    ensures MeetsClamp(key, r)
    ensures key == "seed" ==> r <= Js.NumberOr(parsed, 0.0) < r + 1.0
    ensures parsed.None? && key !in AtLeastOneFields && key != "local_density" ==>
      r == (if key == "num_major_centers" then 1.0 else 0.0)
    ensures parsed.None? && key in AtLeastOneFields ==> r == 1.0
    ensures parsed.Some? && MeetsClamp(key, parsed.value) ==> r == parsed.value
  {
    if key == "seed" then Js.Floor(Js.NumberOr(parsed, 0.0)) as real
    else if key == "num_major_centers" then Js.Max(1.0, Js.Floor(Js.NumberOr(parsed, 1.0)) as real)
    else if key == "local_density" then Js.Max(0.0001, Js.NumberOr(parsed, 0.0))
    else if key in NonNegativeFields then Js.Max(0.0, Js.NumberOr(parsed, 0.0))
    else if key in AtLeastOneFields then Js.Max(1.0, Js.NumberOr(parsed, 1.0))
    else Js.NumberOr(parsed, 0.0)
  }

  /** Outside width and height, the clamp alone makes a value acceptable to the schema. */
  lemma ClampedFieldValid(key: string, x: real)
    requires key in TextFields && key != "map_width" && key != "map_height"
    requires MeetsClamp(key, x)
    ensures FieldsValid(map[key := JNum(x)])
  {
    ClampedFieldAccepted(key, x);
    SingleFieldValid(key, JNum(x));
  }

  lemma ClampedFieldAccepted(key: string, x: real)
    requires key in TextFields && key != "map_width" && key != "map_height"
    requires MeetsClamp(key, x)
    ensures key in MapCreateShape && Validate(MapCreateShape[key], JNum(x)).Ok?
  {
    if key in PositiveFields {
      PositiveFieldBounds(key, JNum(x));
    } else if key in NonNegativeFields {
      NonNegativeFieldBounds(key, JNum(x));
    } else if key == "seed" {
      assert MapCreateShape[key] == SNumber([Int]);
      NumberAccepts([Int], x);
    } else if key == "num_major_centers" {
      assert MapCreateShape[key] == PositiveInt;
      SchemaFacts.PositiveIntAccepts(JNum(x));
    } else {
      assert MapCreateShape[key] == SNumber([Min(1.0)]);
      NumberAccepts([Min(1.0)], x);
    }
  }

  /** A single acceptable field is a valid overlay. */
  lemma SingleFieldValid(key: string, v: Json)
    requires key in MapCreateShape && Validate(MapCreateShape[key], v).Ok?
    ensures FieldsValid(map[key := v])
  {
  }

  /** Every text input except width and height keeps a valid record valid, whatever is typed. */
  lemma InputKeepsValid(p: Params, key: string, parsed: Option<real>)
    requires Validate(MapCreateParams, JObj(p)).Ok?
    requires key in TextFields && key != "map_width" && key != "map_height"
    ensures Validate(MapCreateParams, JObj(NumberUpdate(p, key, InputValue(key, parsed)))).Ok?
  {
    var x := InputValue(key, parsed);
    ClampedFieldValid(key, x);
    OverlayKeepsValid(p, map[key := JNum(x)]);
    assert p + map[key := JNum(x)] == NumberUpdate(p, key, x);
  }

  /**
   * Width and height are not clamped: the record stays valid exactly when
   * the entry is a positive number, so clearing the input (`Number("")` is
   * 0) or typing a negative number leaves a record `map.create` rejects.
   */
  lemma DimensionInputValid(p: Params, key: string, parsed: Option<real>)
    requires Validate(MapCreateParams, JObj(p)).Ok?
    requires key == "map_width" || key == "map_height"
    ensures Validate(MapCreateParams, JObj(NumberUpdate(p, key, InputValue(key, parsed)))).Ok?
      <==> parsed.Some? && parsed.value > 0.0
  {
    var x := InputValue(key, parsed);
    var r := NumberUpdate(p, key, x);
    PositiveFieldBounds(key, JNum(x));
    if parsed.Some? && parsed.value > 0.0 {
      OverlayKeepsValid(p, map[key := JNum(x)]);
      assert p + map[key := JNum(x)] == r;
    } else if Validate(MapCreateParams, JObj(r)).Ok? {
      ValidField(r, key);
      assert false;
    }
  }

  /** A slider position in `[0, 1]` keeps a valid record valid. */
  lemma SliderKeepsValid(p: Params, key: string, x: real)
    requires Validate(MapCreateParams, JObj(p)).Ok?
    requires key in SchemaFacts.ProbabilityFields && 0.0 <= x <= 1.0
    ensures Validate(MapCreateParams, JObj(NumberUpdate(p, key, x))).Ok?
  {
    SchemaFacts.ProbabilityFieldBounds(key, JNum(x));
    OverlayKeepsValid(p, map[key := JNum(x)]);
    assert p + map[key := JNum(x)] == NumberUpdate(p, key, x);
  }

  // ---------------------------------------------------------------------
  // Merging a `map.created` signal into the form

  /** The fields the merge reads with `??`, falling back to the form when null or absent. */
  const FallbackFields: set<string> :=
    SchemaFacts.RangeFields + {"urban_gas_stations_per_km2", "rural_gas_stations_per_km2"}

  lemma FallbackFieldsHaveDefaults()
    ensures FallbackFields <= Defaults.Keys
  {
  }

  /** `data[k] ?? fallback[k]` */
  function Coalesce(data: Params, fallback: Params, k: string): (r: Json)
    requires k in fallback
    ensures k in data && data[k] != JNull ==> r == data[k]
    ensures k !in data || data[k] == JNull ==> r == fallback[k]
  {
    if k in data && data[k] != JNull then data[k] else fallback[k]
  }

  /** Every key of the data over `fallback`, then the six `??` fields. */
  function OverlayAsWritten(fallback: Params, data: Params): (r: Params)
    requires FallbackFields <= fallback.Keys
    ensures r.Keys == fallback.Keys + data.Keys
    ensures forall k | k in data && k !in FallbackFields :: r[k] == data[k]
    ensures forall k | k in FallbackFields :: r[k] == Coalesce(data, fallback, k)
    ensures forall k | k in fallback && k !in data :: r[k] == fallback[k]
  {
    fallback + data + map k | k in FallbackFields :: Coalesce(data, fallback, k)
  }

  /**
   * The updater `handleMapCreated` applies as written: the defaults, then
   * the previous form, then every key of the signal's data, then the six
   * `??` fields.
   */
  function MergeAsWritten(prev: Params, data: Params): (r: Params)
    ensures r.Keys == Defaults.Keys + prev.Keys + data.Keys
    ensures forall k | k in data && k !in FallbackFields :: r[k] == data[k]
    ensures forall k | k in FallbackFields && k in data && data[k] != JNull :: r[k] == data[k]
    ensures forall k | k in prev && (k !in data || (k in FallbackFields && data[k] == JNull)) :: r[k] == prev[k]
  {
    FallbackFieldsHaveDefaults();
    OverlayAsWritten(Defaults + prev, data)
  }

  /** The entries of `data` that are `map.create` parameters. */
  function ShapeFields(data: Params): (r: Params)
    ensures r.Keys == data.Keys * MapCreateShape.Keys
    ensures forall k | k in r :: r[k] == data[k]
  {
    map k | k in data && k in MapCreateShape :: data[k]
  }

  /** The corrected merge: only the signal's `map.create` parameters enter the form. */
  function Merge(prev: Params, data: Params): (r: Params)
    ensures forall k | k in r && k !in prev :: k in MapCreateShape
    ensures forall k | k in data && k in MapCreateShape && data[k] != JNull :: k in r && r[k] == data[k]
  {
    DefaultKeys();
    MergeAsWritten(prev, ShapeFields(data))
  }

  lemma GeneratedNodesSchema()
    ensures "generated_nodes" in MapCreatedShape && MapCreatedShape["generated_nodes"] == NonNegativeInt
  {
  }

  lemma GeneratedNodesNotCreate()
    ensures "generated_nodes" !in MapCreateShape
  {
  }

  lemma GeneratedSummaryNotCreate()
    ensures "generated_edges" !in MapCreateShape && "generated_sites" !in MapCreateShape
    ensures "generated_parkings" !in MapCreateShape && "graph" !in MapCreateShape
  {
  }

  /** A decoded `map.created` reply always carries its generation summary, `generated_nodes` included. */
  lemma CreatedHasGeneratedNodes(m: Params, out: Params)
    requires Validate(MapCreatedData, JObj(m)) == Ok(JObj(out))
    ensures "generated_nodes" in out
  {
    GeneratedNodesSchema();
    ObjectOutputKeys(MapCreatedShape, Strict, m, out);
    assert ParseField(NonNegativeInt, Get(m, "generated_nodes")).Ok?;
  }

  /** The generation summary of a freshly generated, empty map. */
  const EmptySummary: Params := map[
    "generated_nodes" := JNum(0.0),
    "generated_edges" := JNum(0.0),
    "generated_sites" := JNum(0.0),
    "generated_parkings" := JNum(0.0),
    "graph" := JObj(map["nodes" := JArr([]), "edges" := JArr([])])]

  /** A `map.created` reply: the default parameters echoed with an empty map. */
  const SampleCreated: Params := Defaults + EmptySummary

  /** The empty graph passes the graph schema. */
  lemma EmptyGraphAccepted()
    ensures Validate(MapCreatedShape["graph"], JObj(map["nodes" := JArr([]), "edges" := JArr([])])).Ok?
  {
    var g := map["nodes" := SArray(GraphNode), "edges" := SArray(GraphEdge)];
    assert MapCreatedShape["graph"] == SObject(g, Strip);
    ArrayAccepts(GraphNode, JArr([]));
    ArrayAccepts(GraphEdge, JArr([]));
    ObjectAccepts(g, Strip, map["nodes" := JArr([]), "edges" := JArr([])]);
  }

  lemma CountSchema(k: string)
    requires k in EmptySummary && k != "graph"
    ensures k in MapCreatedShape && MapCreatedShape[k] == NonNegativeInt
  {
  }

  lemma SampleSummaryValue(k: string)
    requires k in EmptySummary
    ensures Get(SampleCreated, k) == Some(EmptySummary[k])
  {
  }

  lemma SampleGraphField()
    ensures "graph" in MapCreatedShape && ParseField(MapCreatedShape["graph"], Get(SampleCreated, "graph")).Ok?
  {
    SampleSummaryValue("graph");
    EmptyGraphAccepted();
  }

  lemma ZeroCountAccepted()
    ensures ParseField(NonNegativeInt, Some(JNum(0.0))).Ok?
  {
    var checks := [Int, Min(0.0)];
    assert checks[0] == Int && checks[1] == Min(0.0);
    assert (0.0).Floor == 0;
    NumberAccepts(checks, 0.0);
  }

  lemma SampleCountField(k: string)
    requires k in EmptySummary && k != "graph"
    ensures k in MapCreatedShape && ParseField(MapCreatedShape[k], Get(SampleCreated, k)).Ok?
  {
    SampleSummaryValue(k);
    CountSchema(k);
    assert EmptySummary[k] == JNum(0.0);
    ZeroCountAccepted();
  }

  lemma SampleParamField(k: string)
    requires k in MapCreateShape
    ensures k in MapCreatedShape && ParseField(MapCreatedShape[k], Get(SampleCreated, k)).Ok?
  {
    SharedSchema(k);
    DefaultFieldOk(k);
    SampleKeepsDefault(k);
  }

  lemma SampleKeepsDefault(k: string)
    requires k in MapCreateShape && k in Defaults
    ensures Get(SampleCreated, k) == Some(Defaults[k])
  {
    NotGenerated(k);
    assert k !in EmptySummary;
    UnderlayKept(Defaults, EmptySummary, k);
  }

  /** A key the right-hand record lacks keeps the left-hand value. */
  lemma UnderlayKept(a: Params, b: Params, k: string)
    requires k in a && k !in b
    ensures Get(a + b, k) == Some(a[k])
  {
  }

  /** Such a reply exists: the sample is accepted. */
  lemma SampleCreatedAccepted()
    ensures Validate(MapCreatedData, JObj(SampleCreated)).Ok?
  {
    DefaultKeys();
    assert MapCreatedShape.Keys == MapCreateShape.Keys + EmptySummary.Keys;
    forall k | k in MapCreatedShape
      ensures ParseField(MapCreatedShape[k], Get(SampleCreated, k)).Ok?
    {
      if k == "graph" {
        SampleGraphField();
      } else if k in EmptySummary {
        SampleCountField(k);
      } else {
        SampleParamField(k);
      }
    }
    ObjectAccepts(MapCreatedShape, Strict, SampleCreated);
  }

  /**
   * As written, the merge copies the generation summary into the form, and
   * `map.create` is strict, so once any map has been generated the form
   * fails the strict `map.create` schema.
   */
  lemma MergeAsWrittenRejected(prev: Params, m: Params, out: Params)
    requires Validate(MapCreatedData, JObj(m)) == Ok(JObj(out))
    ensures Validate(MapCreateParams, JObj(MergeAsWritten(prev, out))).Err?
  {
    CreatedHasGeneratedNodes(m, out);
    GeneratedNodesNotCreate();
    SchemaFacts.MapCreateRejectsUnknownKey(MergeAsWritten(prev, out), "generated_nodes");
  }

  /** Every `map.create` field outside the ranges is a number schema. */
  lemma NumberField(k: string)
    requires k in MapCreateShape && k !in SchemaFacts.RangeFields
    ensures MapCreateShape[k].SNumber?
  {
    FieldGroups();
    if k in SchemaFacts.ProbabilityFields {
      SchemaFacts.ProbabilityFieldBounds(k, JNull);
    } else if k in PositiveFields {
      PositiveFieldBounds(k, JNull);
    } else if k in NonNegativeFields {
      NonNegativeFieldBounds(k, JNull);
    } else {
      assert k in {"num_major_centers", "inter_connectivity", "seed"};
    }
  }

  /** The field schemas of `map.create` return an accepted value unchanged, and never accept null. */
  lemma FieldOutputIsInput(k: string, v: Json)
    requires k in MapCreateShape && Validate(MapCreateShape[k], v).Ok?
    ensures Validate(MapCreateShape[k], v) == Ok(v) && v != JNull
  {
    if k in SchemaFacts.RangeFields {
      SchemaFacts.RangeFieldBounds(k, v);
      TupleAccepts([NonNegative, NonNegative], v);
      SchemaFacts.NonNegativeAccepts(v.items[0]);
      SchemaFacts.NonNegativeAccepts(v.items[1]);
      var out := Validate(NonNegativePair, v).value;
      assert out.items == v.items;
    } else {
      NumberField(k);
    }
  }

  /** The creation parameters share their schemas with the echo in `map.created`. */
  lemma NotGenerated(k: string)
    requires k in MapCreateShape
    ensures k != "generated_nodes" && k != "generated_edges" && k != "generated_sites"
      && k != "generated_parkings" && k != "graph"
  {
    GeneratedNodesNotCreate();
    GeneratedSummaryNotCreate();
  }

  lemma SharedSchema(k: string)
    requires k in MapCreateShape
    ensures k in MapCreatedShape && MapCreatedShape[k] == MapCreateShape[k]
  {
    NotGenerated(k);
  }

  /** A decoded `map.created` reply echoes every creation parameter exactly as received. */
  lemma CreatedEchoesParams(m: Params, out: Params)
    requires Validate(MapCreatedData, JObj(m)) == Ok(JObj(out))
    ensures forall k | k in MapCreateShape ::
      k in m && k in out && out[k] == m[k] && Validate(MapCreateShape[k], out[k]).Ok?
  {
    ObjectOutputKeys(MapCreatedShape, Strict, m, out);
    SchemaFacts.MapCreateFieldsRequired();
    forall k | k in MapCreateShape
      ensures k in m && k in out && out[k] == m[k] && Validate(MapCreateShape[k], out[k]).Ok?
    {
      SharedSchema(k);
      assert ParseField(MapCreateShape[k], Get(m, k)).Ok?;
      assert k in m;
      FieldOutputIsInput(k, m[k]);
    }
  }

  /** The data carries every creation parameter, each with a value its schema accepts. */
  predicate EchoesValidParams(data: Params)
  {
    forall k | k in MapCreateShape :: k in data && Validate(MapCreateShape[k], data[k]).Ok?
  }

  /** What the client hands the `map.created` handler always echoes valid parameters. */
  lemma DecodedReplyEchoes(m: Params, out: Params)
    requires Validate(MapCreatedData, JObj(m)) == Ok(JObj(out))
    ensures EchoesValidParams(out)
  {
    CreatedEchoesParams(m, out);
  }

  /** Those echoes form a complete, valid `map.create` record with no null entry. */
  lemma EchoIsValidCreate(data: Params)
    requires EchoesValidParams(data)
    ensures ShapeFields(data).Keys == MapCreateShape.Keys
    ensures forall k | k in ShapeFields(data) :: ShapeFields(data)[k] != JNull
    ensures Validate(MapCreateParams, JObj(ShapeFields(data))).Ok?
  {
    var r := ShapeFields(data);
    forall k | k in r ensures r[k] != JNull {
      FieldOutputIsInput(k, r[k]);
    }
    ValidFields(r);
  }

  lemma DefaultKeys()
    ensures Defaults.Keys == MapCreateShape.Keys
  {
  }

  /** Over data that already has every fallback key, non-null, the overlay is the data itself. */
  lemma OverlayOfComplete(fallback: Params, data: Params)
    requires FallbackFields <= fallback.Keys <= data.Keys
    requires forall k | k in FallbackFields :: data[k] != JNull
    ensures OverlayAsWritten(fallback, data) == data
  {
    var r := OverlayAsWritten(fallback, data);
    assert r.Keys == data.Keys;
    forall k | k in r ensures r[k] == data[k] {
      if k in FallbackFields {
        assert r[k] == Coalesce(data, fallback, k);
      }
    }
  }

  /** The merge's fallback record carries the `??` keys and only `map.create` keys. */
  lemma FallbackKeys(prev: Params)
    requires prev.Keys <= MapCreateShape.Keys
    ensures FallbackFields <= (Defaults + prev).Keys <= MapCreateShape.Keys
  {
    DefaultKeys();
    FallbackFieldsHaveDefaults();
  }

  lemma MergeIsShapeFields(prev: Params, out: Params)
    requires prev.Keys <= MapCreateShape.Keys
    requires EchoesValidParams(out)
    ensures Merge(prev, out) == ShapeFields(out)
  {
    EchoIsValidCreate(out);
    FallbackKeys(prev);
    OverlayOfComplete(Defaults + prev, ShapeFields(out));
  }

  /**
   * With the corrected merge, a decoded `map.created` reply replaces the
   * whole form by the parameters it echoes, which `map.create` accepts
   * again; the `??` fallbacks never apply to such a reply.
   */
  lemma MergeTakesEcho(prev: Params, m: Params, out: Params)
    requires prev.Keys <= MapCreateShape.Keys
    requires Validate(MapCreatedData, JObj(m)) == Ok(JObj(out))
    ensures Merge(prev, out) == ShapeFields(out)
    ensures forall k | k in MapCreateShape :: k in m && Merge(prev, out)[k] == m[k]
    ensures Validate(MapCreateParams, JObj(Merge(prev, out))).Ok?
  {
    DecodedReplyEchoes(m, out);
    MergeIsShapeFields(prev, out);
    EchoIsValidCreate(out);
    CreatedEchoesParams(m, out);
  }

  lemma SampleParamsAreDefaults()
    ensures Defaults.Keys == MapCreateShape.Keys
    ensures forall k | k in Defaults :: k in SampleCreated && SampleCreated[k] == Defaults[k]
  {
    DefaultKeys();
    forall k | k in Defaults
      ensures k in SampleCreated && SampleCreated[k] == Defaults[k]
    {
      NotGenerated(k);
    }
  }

  lemma EchoIs(m: Params, out: Params, ref: Params)
    requires Validate(MapCreatedData, JObj(m)) == Ok(JObj(out))
    requires ref.Keys == MapCreateShape.Keys && forall k | k in ref :: k in m && m[k] == ref[k]
    ensures ShapeFields(out) == ref
  {
    CreatedEchoesParams(m, out);
    var r := ShapeFields(out);
    assert r.Keys == ref.Keys;
  }

  /** The corrected merge of a reply echoing the record `ref` is `ref`. */
  lemma MergeIsEcho(prev: Params, m: Params, out: Params, ref: Params)
    requires prev.Keys <= MapCreateShape.Keys
    requires Validate(MapCreatedData, JObj(m)) == Ok(JObj(out))
    requires ref.Keys == MapCreateShape.Keys && forall k | k in ref :: k in m && m[k] == ref[k]
    ensures Merge(prev, out) == ref
  {
    DecodedReplyEchoes(m, out);
    MergeIsShapeFields(prev, out);
    EchoIs(m, out, ref);
  }

  /**
   * The concrete case: once the server reports a map generated from the
   * default parameters, the as-written merge leaves a form `map.create`
   * refuses, while the corrected merge yields the defaults again.
   */
  lemma DefaultMapRoundTrip(prev: Params, out: Params)
    requires prev.Keys <= MapCreateShape.Keys
    requires Validate(MapCreatedData, JObj(SampleCreated)) == Ok(JObj(out))
    ensures Validate(MapCreateParams, JObj(MergeAsWritten(prev, out))).Err?
    ensures Merge(prev, out) == Defaults
  {
    MergeAsWrittenRejected(prev, SampleCreated, out);
    SampleParamsAreDefaults();
    MergeIsEcho(prev, SampleCreated, out, Defaults);
  }

  /** A valid record has every range as a pair. */
  lemma ValidRangesArePairs(p: Params)
    requires Validate(MapCreateParams, JObj(p)).Ok?
    ensures RangesArePairs(p)
  {
    forall k | k in SchemaFacts.RangeFields ensures k in p && IsPair(p[k]) {
      SchemaFacts.RangeFieldBounds(k, JNull);
      ValidField(p, k);
      SchemaFacts.RangeFieldBounds(k, p[k]);
    }
  }

  // ---------------------------------------------------------------------
  // The proposed export name

  /** A property interpolated into a template string: `undefined` when absent. */
  function Interpolated(v: Option<Json>, show: Json -> string): string
  {
    match v
    case None => "undefined"
    case Some(j) => show(j)
  }

  /** The export name proposed after a map is generated: `map_<width>x<height>_<seed>`. */
  function CreatedFilename(data: Params, show: Json -> string): (r: string)
    ensures |r| >= 4 && r[..4] == "map_"
  {
    "map_" + Interpolated(Get(data, "map_width"), show) + "x" + Interpolated(Get(data, "map_height"), show)
      + "_" + Interpolated(Get(data, "seed"), show)
  }

  /** The proposed name never trims to nothing, so it passes the export guard. */
  lemma CreatedFilenameExportable(data: Params, show: Json -> string)
    ensures Js.Trim(CreatedFilename(data, show)) != ""
  {
    var r := CreatedFilename(data, show);
    assert r[0] == "map_"[0] == 'm';
    assert !Js.IsWhitespace(r[0]);
  }

  /** The initial export name is the name proposed for a map made from the defaults. */
  lemma InitialFilenameMatchesDefaults(show: Json -> string)
    requires show(JNum(1000.0)) == "1000" && show(JNum(42.0)) == "42"
    ensures CreatedFilename(Defaults, show) == InitialExportFilename
  {
  }

  // ---------------------------------------------------------------------
  // The shape of the form

  /** The form has exactly the `map.create` fields, and its ranges are pairs. */
  predicate WellShaped(p: Params)
  {
    p.Keys == MapCreateShape.Keys && RangesArePairs(p)
  }

  /**
   * The form has every `map.create` field, possibly among others, and its
   * ranges are pairs: what the inputs need to render and edit it.
   */
  predicate FormShaped(p: Params)
  {
    MapCreateShape.Keys <= p.Keys && RangesArePairs(p)
  }

  lemma NumberUpdateKeepsShape(p: Params, key: string, value: real)
    requires FormShaped(p) && key in MapCreateShape && key !in SchemaFacts.RangeFields
    ensures FormShaped(NumberUpdate(p, key, value))
    ensures WellShaped(p) ==> WellShaped(NumberUpdate(p, key, value))
  {
  }

  lemma RangeUpdateKeepsShape(p: Params, key: string, index: nat, value: real)
    requires FormShaped(p) && key in SchemaFacts.RangeFields && index < 2
    ensures FormShaped(RangeUpdate(p, key, index, value))
    ensures WellShaped(p) ==> WellShaped(RangeUpdate(p, key, index, value))
  {
  }

  lemma SliderFieldIsNumber(key: string)
    requires key in SchemaFacts.ProbabilityFields
    ensures key in MapCreateShape && key !in SchemaFacts.RangeFields
  {
    SchemaFacts.ProbabilityFieldBounds(key, JNull);
  }

  lemma TextFieldIsNumber(key: string)
    requires key in TextFields
    ensures key in MapCreateShape && key !in SchemaFacts.RangeFields
  {
    if key in PositiveFields {
      PositiveFieldBounds(key, JNull);
    } else if key in NonNegativeFields {
      NonNegativeFieldBounds(key, JNull);
    }
  }

  lemma PresetsAvoidRanges()
    ensures forall k | k in SchemaFacts.RangeFields :: k !in DenseUrbanPreset && k !in SparseRuralPreset
  {
  }

  /** Overwriting accepted non-range fields keeps the form shaped. */
  lemma OverlayKeepsShape(p: Params, q: Params)
    requires FormShaped(p) && FieldsValid(q)
    requires forall k | k in SchemaFacts.RangeFields :: k !in q
    ensures FormShaped(PresetUpdate(p, q))
    ensures WellShaped(p) ==> WellShaped(PresetUpdate(p, q))
  {
  }

  /**
   * The merge as written keeps the form editable: every `map.create` field
   * is still there, and each range takes the reply's pair.
   */
  lemma MergeAsWrittenKeepsForm(prev: Params, data: Params)
    requires FormShaped(prev) && EchoesValidParams(data)
    ensures FormShaped(MergeAsWritten(prev, data))
    ensures forall k | k in SchemaFacts.RangeFields :: MergeAsWritten(prev, data)[k] == data[k]
  {
    DefaultKeys();
    var r := MergeAsWritten(prev, data);
    forall k | k in SchemaFacts.RangeFields ensures r[k] == data[k] && IsPair(r[k]) {
      SchemaFacts.RangeFieldBounds(k, data[k]);
    }
  }

  /** The corrected merge keeps the form editable too. */
  lemma MergeKeepsForm(prev: Params, data: Params)
    requires FormShaped(prev) && EchoesValidParams(data)
    ensures FormShaped(Merge(prev, data))
  {
    assert EchoesValidParams(ShapeFields(data));
    MergeAsWrittenKeepsForm(prev, ShapeFields(data));
  }

  /** A key the merge copies from the reply that `map.create` does not know makes the form unsendable. */
  lemma CopiedKeyRejected(prev: Params, data: Params, k: string)
    requires k in data && k !in MapCreateShape
    ensures Validate(MapCreateParams, JObj(MergeAsWritten(prev, data))).Err?
  {
    SchemaFacts.MapCreateRejectsUnknownKey(MergeAsWritten(prev, data), k);
  }

  /** After a decoded `map.created` reply the form is valid and well shaped. */
  lemma MergedFormValid(prev: Params, data: Params)
    requires WellShaped(prev) && EchoesValidParams(data)
    ensures Merge(prev, data) == ShapeFields(data)
    ensures WellShaped(Merge(prev, data))
    ensures Validate(MapCreateParams, JObj(Merge(prev, data))).Ok?
  {
    MergeIsShapeFields(prev, data);
    EchoIsValidCreate(data);
    ValidFields(ShapeFields(data));
    ValidRangesArePairs(ShapeFields(data));
  }

  // ---------------------------------------------------------------------
  // The panel

  /** `canCreate`: generation (and, in the other panels, loading) only while no simulation runs. */
  predicate CanCreate(status: Status): (r: bool)
    ensures r <==> status != Playing && status != Paused
  {
    status == Idle || status == Stopped
  }

  /**
   * The panel state. Requests are split into their synchronous halves: a
   * `Begin` method that checks the guard and yields what is sent, and a
   * `Finish`/`Complete` method for the reply or the failure.
   */
  class MapCreator {
    var params: Params
    var sending: bool
    var exporting: bool
    var importing: bool
    var exportFilename: string
    /** The last `map.created` data, as parsed. */
    var mapData: Option<Params>
    /** The file input's current selection. */
    var selection: Option<Bytes.File>
    /** `String(x)` on a JSON value, as template interpolation applies it. */
    const show: Json -> string
    const btoa: string -> string

    /**
     * The form has every `map.create` field and its ranges are pairs; after
     * a `map.created` reply it also holds the reply's other keys.
     */
    ghost predicate Valid()
      reads this
    {
      FormShaped(params)
    }

    constructor (show: Json -> string, btoa: string -> string)
      ensures this.show == show && this.btoa == btoa
      ensures params == Defaults && Validate(MapCreateParams, JObj(params)).Ok?
      ensures !sending && !exporting && !importing
      ensures exportFilename == InitialExportFilename && mapData == None && selection == None
      ensures Valid()
    {
      this.show := show;
      this.btoa := btoa;
      params := Defaults;
      sending := false;
      exporting := false;
      importing := false;
      exportFilename := InitialExportFilename;
      mapData := None;
      selection := None;
      new;
      DefaultsSatisfyCreate();
      DefaultKeys();
      ValidRangesArePairs(Defaults);
    }

    /** `setNumber` on a numeric field, as the sliders call it. */
    method SetNumber(key: string, value: real)
      requires Valid() && key in MapCreateShape && key !in SchemaFacts.RangeFields
      modifies this
      ensures Valid()
      ensures params == NumberUpdate(old(params), key, value)
      ensures sending == old(sending) && exporting == old(exporting) && importing == old(importing)
      ensures exportFilename == old(exportFilename) && mapData == old(mapData) && selection == old(selection)
    {
      NumberUpdateKeepsShape(params, key, value);
      params := NumberUpdate(params, key, value);
    }

    /** A slider moved: `onChange(v[0] ?? 0)`. */
    method Slide(key: string, position: Option<real>)
      requires Valid() && key in SchemaFacts.ProbabilityFields
      modifies this
      ensures Valid()
      ensures params == NumberUpdate(old(params), key, position.GetOr(0.0))
      ensures sending == old(sending) && exporting == old(exporting) && importing == old(importing)
      ensures exportFilename == old(exportFilename) && mapData == old(mapData) && selection == old(selection)
    {
      SliderFieldIsNumber(key);
      SetNumber(key, position.GetOr(0.0));
    }

    /** A numeric text input changed; `parsed` is `Number(text)`. */
    method Enter(key: string, parsed: Option<real>)
      requires Valid() && key in TextFields
      modifies this
      ensures Valid()
      ensures params == NumberUpdate(old(params), key, InputValue(key, parsed))
      ensures sending == old(sending) && exporting == old(exporting) && importing == old(importing)
      ensures exportFilename == old(exportFilename) && mapData == old(mapData) && selection == old(selection)
    {
      TextFieldIsNumber(key);
      SetNumber(key, InputValue(key, parsed));
    }

    /** One end of a range input changed: `setArrayRange(key, index, Number(text) || 0)`. */
    method EnterRange(key: string, index: nat, parsed: Option<real>)
      requires Valid() && key in SchemaFacts.RangeFields && index < 2
      modifies this
      ensures Valid()
      ensures params == RangeUpdate(old(params), key, index, Js.NumberOr(parsed, 0.0))
      ensures sending == old(sending) && exporting == old(exporting) && importing == old(importing)
      ensures exportFilename == old(exportFilename) && mapData == old(mapData) && selection == old(selection)
    {
      RangeUpdateKeepsShape(params, key, index, Js.NumberOr(parsed, 0.0));
      params := RangeUpdate(params, key, index, Js.NumberOr(parsed, 0.0));
    }

    method ApplyPreset(preset: Params)
      requires Valid() && (preset == DenseUrbanPreset || preset == SparseRuralPreset)
      modifies this
      ensures Valid()
      ensures params == PresetUpdate(old(params), preset)
      ensures sending == old(sending) && exporting == old(exporting) && importing == old(importing)
      ensures exportFilename == old(exportFilename) && mapData == old(mapData) && selection == old(selection)
    {
      DenseUrbanFieldsValid();
      SparseRuralFieldsValid();
      PresetsAvoidRanges();
      OverlayKeepsShape(params, preset);
      params := PresetUpdate(params, preset);
    }

    /**
     * `handleMapCreated`, given the parsed data of a reply that passed the
     * `map.created` schema: the data is kept, the export name proposed from
     * it, and every key of the data spread over the form, so the form then
     * fails the strict `map.create` schema.
     */
    method HandleMapCreated(ghost raw: Params, data: Params)
      requires Valid() && Validate(MapCreatedData, JObj(raw)) == Ok(JObj(data))
      modifies this
      ensures Valid()
      ensures mapData == Some(data) && exportFilename == CreatedFilename(data, show)
      ensures params == MergeAsWritten(old(params), data)
      ensures Validate(MapCreateParams, JObj(params)).Err?
      ensures sending == old(sending) && exporting == old(exporting) && importing == old(importing)
      ensures selection == old(selection)
    {
      DecodedReplyEchoes(raw, data);
      MergeAsWrittenKeepsForm(params, data);
      MergeAsWrittenRejected(params, raw, data);
      ReplaceForm(MergeAsWritten(params, data));
      RecordCreated(data);
    }

    /**
     * The handler with the corrected merge: only the reply's `map.create`
     * parameters enter the form, so a form with exactly those fields becomes
     * the echoed record, which `map.create` accepts.
     */
    method HandleMapCreatedCorrected(ghost raw: Params, data: Params)
      requires Valid() && Validate(MapCreatedData, JObj(raw)) == Ok(JObj(data))
      modifies this
      ensures Valid()
      ensures mapData == Some(data) && exportFilename == CreatedFilename(data, show)
      ensures params == Merge(old(params), data)
      ensures WellShaped(old(params)) ==> params == ShapeFields(data) && WellShaped(params)
      ensures WellShaped(old(params)) ==> Validate(MapCreateParams, JObj(params)).Ok?
      ensures sending == old(sending) && exporting == old(exporting) && importing == old(importing)
      ensures selection == old(selection)
    {
      DecodedReplyEchoes(raw, data);
      MergeKeepsForm(params, data);
      if WellShaped(params) {
        MergedFormValid(params, data);
      }
      ReplaceForm(Merge(params, data));
      RecordCreated(data);
    }

    /** `setParams(next)`: the form becomes `next`; a shaped record keeps the form editable. */
    method ReplaceForm(next: Params)
      modifies this
      ensures params == next && (FormShaped(next) ==> Valid())
      ensures mapData == old(mapData) && exportFilename == old(exportFilename)
      ensures sending == old(sending) && exporting == old(exporting) && importing == old(importing)
      ensures selection == old(selection)
    {
      params := next;
    }

    /** The Reset button: `setParams({ ...DEFAULTS })`, a form `map.create` accepts again. */
    method Reset()
      modifies this
      ensures Valid() && params == Defaults && Validate(MapCreateParams, JObj(params)).Ok?
      ensures mapData == old(mapData) && exportFilename == old(exportFilename)
      ensures sending == old(sending) && exporting == old(exporting) && importing == old(importing)
      ensures selection == old(selection)
    {
      DefaultsSatisfyCreate();
      ValidRangesArePairs(Defaults);
      DefaultKeys();
      ReplaceForm(Defaults);
    }

    /** The created map is kept and its export name proposed. */
    method RecordCreated(data: Params)
      modifies this
      ensures mapData == Some(data) && exportFilename == CreatedFilename(data, show)
      ensures params == old(params)
      ensures sending == old(sending) && exporting == old(exporting) && importing == old(importing)
      ensures selection == old(selection)
    {
      mapData := Some(data);
      exportFilename := CreatedFilename(data, show);
    }

    /** The start of `handleCreate`: sends the form unless a run is active or a request is in flight. */
    method BeginCreate(status: Status) returns (request: Option<Params>)
      modifies this
      ensures request.Some? <==> CanCreate(status) && !old(sending)
      ensures request.Some? ==> sending && request.value == params
      ensures request.None? ==> sending == old(sending)
      ensures params == old(params) && exporting == old(exporting) && importing == old(importing)
      ensures exportFilename == old(exportFilename) && mapData == old(mapData) && selection == old(selection)
    {
      if !CanCreate(status) || sending {
        return None;
      }
      sending := true;
      request := Some(params);
    }

    method FinishCreate()
      modifies this
      ensures !sending
      ensures params == old(params) && exporting == old(exporting) && importing == old(importing)
      ensures exportFilename == old(exportFilename) && mapData == old(mapData) && selection == old(selection)
    {
      sending := false;
    }

    method SetExportFilename(name: string)
      modifies this
      ensures exportFilename == name
      ensures params == old(params) && sending == old(sending) && exporting == old(exporting)
      ensures importing == old(importing) && mapData == old(mapData) && selection == old(selection)
    {
      exportFilename := name;
    }

    /** The start of `handleExport`: needs a generated map, no export in flight and a non-blank name. */
    method BeginExport() returns (request: Option<string>)
      modifies this
      ensures request.Some? <==> old(mapData).Some? && !old(exporting) && Js.Trim(old(exportFilename)) != ""
      ensures request.Some? ==> exporting && request.value == Js.Trim(exportFilename)
      ensures request.None? ==> exporting == old(exporting)
      ensures params == old(params) && sending == old(sending) && importing == old(importing)
      ensures exportFilename == old(exportFilename) && mapData == old(mapData) && selection == old(selection)
    {
      if mapData.None? || exporting || Js.Trim(exportFilename) == "" {
        return None;
      }
      exporting := true;
      request := Some(Js.Trim(exportFilename));
    }

    method FinishExport()
      modifies this
      ensures !exporting
      ensures params == old(params) && sending == old(sending) && importing == old(importing)
      ensures exportFilename == old(exportFilename) && mapData == old(mapData) && selection == old(selection)
    {
      exporting := false;
    }

    method Select(file: Option<Bytes.File>)
      modifies this
      ensures selection == file
      ensures params == old(params) && sending == old(sending) && exporting == old(exporting)
      ensures importing == old(importing) && exportFilename == old(exportFilename) && mapData == old(mapData)
    {
      selection := file;
    }

    /**
     * The first half of `handleFileChange`: needs a selected file and no
     * import in flight (the run status is not consulted); the request
     * carries the base64 of the file's binary string and its name.
     */
    method BeginImport() returns (request: Option<Json>)
      modifies this
      ensures request.Some? <==> old(selection).Some? && !old(importing)
      ensures request.None? ==> importing == old(importing)
      ensures request.Some? ==> importing && selection.Some? && request.value == Bytes.UploadParams(
        btoa(Bytes.BinaryString(selection.value.content[..])), selection.value.name)
      ensures params == old(params) && sending == old(sending) && exporting == old(exporting)
      ensures exportFilename == old(exportFilename) && mapData == old(mapData) && selection == old(selection)
    {
      if selection.None? || importing {
        return None;
      }
      importing := true;
      var file := selection.value;
      var binary := Bytes.ChunkedBinaryString(file.content, Bytes.ChunkSize);
      request := Some(Bytes.UploadParams(btoa(binary), file.name));
    }

    /** The second half: a `map.imported` reply clears the file input; the import is over either way. */
    method CompleteImport(reply: Option<Envelope>)
      modifies this
      ensures !importing
      ensures selection == if reply.Some? && reply.value.name == "map.imported" then None else old(selection)
      ensures params == old(params) && sending == old(sending) && exporting == old(exporting)
      ensures exportFilename == old(exportFilename) && mapData == old(mapData)
    {
      if reply.Some? && reply.value.name == "map.imported" {
        selection := None;
      }
      importing := false;
    }
  }
}
