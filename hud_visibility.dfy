// Which HUD panels are shown: a record from panel id to a visibility flag,
// rehydrated from storage over a default record, updated by `setVisible` and
// `toggle`, and persisted whenever it changes.
//
// After rehydration the record holds whatever the stored JSON held, so values
// are JSON values (read through JavaScript truthiness) and keys are strings.
// `JSON.parse` (None when it throws) and `JSON.stringify` are parameters.

module HudVisibility {
  import opened Wrappers
  import opened Json
  import Js
  import MemoryStorage

  type State = map<string, Json>

  const StorageKey: string := "hud:panels:v1"

  /** Every panel id the HUD knows. */
  const PanelIds: seq<string> := [
    "start-simulation", "map-creator", "fleet-creator", "broker-setup",
    "state-importer", "simulation-controls", "camera-help", "net-events"
  ]

  /** The panels the HUD menu lists. */
  const HudPanels: seq<string> := ["simulation-controls", "camera-help", "net-events"]

  const Defaults: State := map[
    "start-simulation" := JBool(true),
    "map-creator" := JBool(true),
    "fleet-creator" := JBool(true),
    "broker-setup" := JBool(true),
    "state-importer" := JBool(true),
    "simulation-controls" := JBool(true),
    "camera-help" := JBool(true),
    "net-events" := JBool(false)
  ]

  lemma DefaultVisibility()
    ensures Defaults.Keys == set id | id in PanelIds
    ensures forall id :: id in Defaults ==> Defaults[id] == JBool(id != "net-events")
    ensures |HudPanels| == 3 && forall id :: id in HudPanels ==> id in Defaults
  {
  }

  /** Every default panel has an entry. */
  predicate HasAllPanels(s: State)
  {
    forall id :: id in Defaults ==> id in s
  }

  /** A non-empty run of decimal digits, the form of an array index key. */
  predicate IsNumeral(k: string)
  {
    k != [] && forall i :: 0 <= i < |k| ==> '0' <= k[i] <= '9'
  }

  /** `{...items}` for an array: one entry per index, keyed by its numeral. */
  function IndexKeys(items: seq<Json>): (r: State)
    ensures forall k :: k in r ==> IsNumeral(k)
    ensures |r.Keys| <= |items|
    ensures forall i | 0 <= i < |items| :: Js.Decimal(i) in r && r[Js.Decimal(i)] == items[i]
  {
    if items == [] then map[]
    else
      var n := |items| - 1;
      var prev := IndexKeys(items[..n]);
      Js.DecimalNew(n);
      assert forall i | 0 <= i < n :: prev[Js.Decimal(i)] == items[i];
      prev[Js.Decimal(n) := items[n]]
  }

  /** The own enumerable properties that spreading a parsed JSON value contributes. */
  function Spread(v: Json): (r: State)
    ensures v.JObj? ==> r == v.fields
    ensures !v.JObj? ==> forall k :: k in r ==> IsNumeral(k)
  {
    match v
    case JObj(fields) => fields
    case JArr(items) => IndexKeys(items)
    case JStr(s) => IndexKeys(seq(|s|, i requires 0 <= i < |s| => JStr([s[i]])))
    case _ => map[]
  }

  /**
   * `readPersistedVisibility`: the defaults when nothing (or the empty
   * string) is stored or the stored text does not parse; otherwise the
   * defaults overlaid with the parsed value's own properties.
   */
  function Rehydrate(raw: Option<string>, parse: string -> Option<Json>): (r: State)
    ensures HasAllPanels(r)
  {
    if !TruthyString(raw) then Defaults
    else match parse(raw.value)
      case None => Defaults
      case Some(v) => Defaults + Spread(v)
  }

  lemma RehydrateWithoutStorage(raw: Option<string>, parse: string -> Option<Json>)
    requires !TruthyString(raw) || parse(raw.value).None?
    ensures Rehydrate(raw, parse) == Defaults
  {
  }

  /** A stored key wins; a panel absent from storage keeps its default. */
  lemma RehydrateOverlay(raw: string, parse: string -> Option<Json>, stored: State, k: string)
    requires raw != "" && parse(raw) == Some(JObj(stored))
    ensures k in Rehydrate(Some(raw), parse) <==> k in stored || k in Defaults
    ensures k in stored ==> Rehydrate(Some(raw), parse)[k] == stored[k]
    ensures k !in stored && k in Defaults ==> Rehydrate(Some(raw), parse)[k] == Defaults[k]
  {
  }

  /** A stored value that is not an object leaves every panel at its default. */
  lemma RehydrateNonObject(raw: string, parse: string -> Option<Json>, id: string)
    requires raw != "" && parse(raw).Some? && !parse(raw).value.JObj?
    requires id in Defaults
    ensures Rehydrate(Some(raw), parse)[id] == Defaults[id]
  {
    var spread := Spread(parse(raw).value);
    assert id[0] !in "0123456789";
    assert !IsNumeral(id);
    assert id !in spread;
  }

  /** `isVisible`: the truthiness of the entry; an absent panel is hidden. */
  predicate Visible(s: State, id: string)
  {
    TruthyOpt(Get(s, id))
  }

  /**
   * The `setVisible` updater: the identical record when the entry already
   * is that boolean, else the record with only that entry replaced.
   */
  function SetVisibleUpdate(prev: State, id: string, visible: bool): (r: State)
    ensures id in r && r[id] == JBool(visible)
    ensures r.Keys == prev.Keys + {id}
    ensures forall k :: k in prev && k != id ==> r[k] == prev[k]
    ensures Get(prev, id) == Some(JBool(visible)) ==> r == prev
  {
    if Get(prev, id) == Some(JBool(visible)) then prev else prev[id := JBool(visible)]
  }

  /** The `toggle` updater: the entry becomes the negation of its truthiness. */
  function ToggleUpdate(prev: State, id: string): (r: State)
    ensures id in r && r[id] == JBool(!Visible(prev, id))
    ensures r.Keys == prev.Keys + {id}
    ensures forall k :: k in prev && k != id ==> r[k] == prev[k]
  {
    prev[id := JBool(!Visible(prev, id))]
  }

  lemma SetVisibleIdempotent(s: State, id: string, visible: bool)
    ensures SetVisibleUpdate(SetVisibleUpdate(s, id, visible), id, visible)
         == SetVisibleUpdate(s, id, visible)
    ensures Visible(SetVisibleUpdate(s, id, visible), id) == visible
  {
  }

  /** Toggling twice restores visibility, and the record itself when the entry was a boolean. */
  lemma ToggleTwice(s: State, id: string)
    ensures Visible(ToggleUpdate(s, id), id) == !Visible(s, id)
    ensures Visible(ToggleUpdate(ToggleUpdate(s, id), id), id) == Visible(s, id)
    ensures id in s && s[id].JBool? ==> ToggleUpdate(ToggleUpdate(s, id), id) == s
  {
  }

  lemma UpdatesKeepPanels(s: State, id: string, visible: bool)
    requires HasAllPanels(s)
    ensures HasAllPanels(SetVisibleUpdate(s, id, visible))
    ensures HasAllPanels(ToggleUpdate(s, id))
  {
  }

  /**
   * What is persisted reloads as the same record, provided `JSON.parse`
   * undoes `JSON.stringify` on it (which yields at least `{}`, never "").
   */
  lemma PersistRoundTrip(s: State, parse: string -> Option<Json>, stringify: Json -> string)
    requires HasAllPanels(s)
    requires stringify(JObj(s)) != ""
    requires parse(stringify(JObj(s))) == Some(JObj(s))
    ensures Rehydrate(Some(stringify(JObj(s))), parse) == s
  {
    assert Defaults + s == s;
  }

  /** The provider: the state cell, and its persistence into storage. */
  class Provider {
    var state: State
    const storage: MemoryStorage.MemoryStorage
    const parse: string -> Option<Json>
    const stringify: Json -> string

    /** The record has every panel, and storage holds its serialization. */
    ghost predicate Valid()
      reads this, storage
    {
      HasAllPanels(state) && storage.Valid()
      && storage.GetItem(StorageKey) == Some(stringify(JObj(state)))
    }

    /** Mounting: rehydrate from storage, then persist the result. */
    constructor (storage: MemoryStorage.MemoryStorage, parse: string -> Option<Json>,
                 stringify: Json -> string)
      requires storage.Valid()
      modifies storage
      ensures this.storage == storage && this.parse == parse && this.stringify == stringify
      ensures state == Rehydrate(old(storage.GetItem(StorageKey)), parse)
      ensures storage.store == old(storage.store)[StorageKey := stringify(JObj(state))]
      ensures Valid()
    {
      this.storage := storage;
      this.parse := parse;
      this.stringify := stringify;
      state := Rehydrate(storage.GetItem(StorageKey), parse);
      new;
      storage.SetItem(StorageKey, stringify(JObj(state)));
    }

    function IsVisible(id: string): (r: bool)
      reads this
      ensures r <==> Visible(state, id)
    {
      Visible(state, id)
    }

    /** Applies the updater; storage is rewritten only when the record changed. */
    method SetVisible(id: string, visible: bool) returns (changed: bool)
      requires Valid()
      modifies this, storage
      ensures Valid()
      ensures state == SetVisibleUpdate(old(state), id, visible)
      ensures changed <==> Get(old(state), id) != Some(JBool(visible))
      ensures changed ==> storage.store == old(storage.store)[StorageKey := stringify(JObj(state))]
      ensures !changed ==> storage.store == old(storage.store) && storage.order == old(storage.order)
    {
      changed := Get(state, id) != Some(JBool(visible));
      state := SetVisibleUpdate(state, id, visible);
      UpdatesKeepPanels(old(state), id, visible);
      if changed {
        storage.SetItem(StorageKey, stringify(JObj(state)));
      }
    }

    /** Applies the updater, which always yields a new record, and persists it. */
    method Toggle(id: string)
      requires Valid()
      modifies this, storage
      ensures Valid()
      ensures state == ToggleUpdate(old(state), id)
      ensures storage.store == old(storage.store)[StorageKey := stringify(JObj(state))]
    {
      UpdatesKeepPanels(state, id, true);
      state := ToggleUpdate(state, id);
      storage.SetItem(StorageKey, stringify(JObj(state)));
    }
  }
}
