// An in-memory `Storage` (the Web Storage interface) backed by an
// insertion-ordered map, as the test environment installs in place of the
// browser's `localStorage` and `sessionStorage`.
//
// A JavaScript `Map` is modelled by two fields: `store`, the key/value
// lookup, and `order`, the keys in first-insertion order (what
// `Map.prototype.keys` iterates).

module MemoryStorage {
  import opened Wrappers

  /** No key occurs twice. */
  predicate DistinctKeys(s: seq<string>)
  {
    forall i, j :: 0 <= i < j < |s| ==> s[i] != s[j]
  }

  /** `s` with every occurrence of `k` removed, the rest in order. */
  function Without(s: seq<string>, k: string): (r: seq<string>)
    ensures forall x :: x in r <==> x in s && x != k
    ensures k !in s ==> r == s
    ensures |r| <= |s|
  {
    if s == [] then []
    else (if s[0] == k then [] else [s[0]]) + Without(s[1..], k)
  }

  lemma {:induction false} WithoutKeepsDistinct(s: seq<string>, k: string)
    requires DistinctKeys(s)
    ensures DistinctKeys(Without(s, k))
  {
    if s != [] {
      WithoutKeepsDistinct(s[1..], k);
      var rest := Without(s[1..], k);
      assert s[0] !in s[1..] by {
        forall i | 0 <= i < |s[1..]| ensures s[1..][i] != s[0] {
          assert s[1..][i] == s[i + 1];
        }
      }
      assert s[0] !in rest;
    }
  }

  /** A sequence without repetitions has as many elements as its set. */
  lemma {:induction false} DistinctCardinality(s: seq<string>)
    requires DistinctKeys(s)
    ensures |set x | x in s| == |s|
  {
    if s != [] {
      var tail := s[1..];
      assert DistinctKeys(tail) by {
        forall i, j | 0 <= i < j < |tail| ensures tail[i] != tail[j] {
          assert tail[i] == s[i + 1] && tail[j] == s[j + 1];
        }
      }
      DistinctCardinality(tail);
      assert s[0] !in tail by {
        forall i | 0 <= i < |tail| ensures tail[i] != s[0] {
          assert tail[i] == s[i + 1];
        }
      }
      assert (set x | x in s) == (set x | x in tail) + {s[0]} by {
        assert s == [s[0]] + tail;
      }
    }
  }

  class MemoryStorage {
    var store: map<string, string>
    var order: seq<string>

    /** `order` lists every stored key exactly once. */
    ghost predicate Valid()
      reads this
    {
      DistinctKeys(order) && (forall k :: k in store <==> k in order)
    }

    constructor ()
      ensures Valid() && store == map[] && order == []
    {
      store := map[];
      order := [];
    }

    /** `length`: the number of distinct keys stored. */
    function Length(): (n: nat)
      reads this
      requires Valid()
      ensures n == |order|
    {
      DistinctCardinality(order);
      assert store.Keys == set x | x in order;
      |store|
    }

    method Clear()
      requires Valid()
      modifies this
      ensures Valid() && store == map[] && order == []
    {
      store := map[];
      order := [];
    }

    /** `getItem`: null (None) for an absent key, else the stored value. */
    function GetItem(key: string): (r: Option<string>)
      reads this
      ensures r.None? <==> key !in store
      ensures r.Some? ==> r.value == store[key]
    {
      if key in store then Some(store[key]) else None
    }

    /**
     * `key(index)`: the index-th key in first-insertion order, or null when
     * the index is out of range.
     */
    function Key(index: int): (r: Option<string>)
      reads this
      requires Valid()
      ensures r.Some? <==> 0 <= index < Length()
      ensures r.Some? ==> r.value in store && r.value == order[index]
    {
      if 0 <= index < |order| then Some(order[index]) else None
    }

    method RemoveItem(key: string)
      requires Valid()
      modifies this
      ensures Valid()
      ensures store == old(store) - {key}
      ensures order == Without(old(order), key)
      ensures key !in old(store) ==> store == old(store) && order == old(order)
    {
      WithoutKeepsDistinct(order, key);
      store := store - {key};
      order := Without(order, key);
    }

    /** `setItem`: a new key goes to the end of the order; an old one stays put. */
    method SetItem(key: string, value: string)
      requires Valid()
      modifies this
      ensures Valid()
      ensures store == old(store)[key := value]
      ensures order == if key in old(store) then old(order) else old(order) + [key]
    {
      if key !in store {
        order := order + [key];
      }
      store := store[key := value];
    }
  }

  /** The two global storage properties the test environment provides. */
  datatype StorageName = LocalStorage | SessionStorage

  /** A value found on the global object under a storage name. */
  datatype Slot =
    | Falsy                        // null, undefined-valued, false, 0, ""
    | Foreign(hasClear: bool)      // some truthy object; whether `clear` is a function
    | Memory(storage: MemoryStorage)

  /** The guard of `ensureStorage`: the current value is kept iff it has `clear`. */
  predicate Usable(slot: Option<Slot>)
  {
    match slot
    case None => false
    case Some(Falsy) => false
    case Some(Foreign(hasClear)) => hasClear
    case Some(Memory(_)) => true
  }

  /** The global object, reduced to its storage properties (absent = undefined). */
  class GlobalScope {
    var slots: map<StorageName, Slot>

    constructor (initial: map<StorageName, Slot>)
      ensures slots == initial
    {
      slots := initial;
    }

    function Current(name: StorageName): (r: Option<Slot>)
      reads this
      ensures r.Some? <==> name in slots
      ensures r.Some? ==> r.value == slots[name]
    {
      if name in slots then Some(slots[name]) else None
    }

    /**
     * `ensureStorage(name)`: installs a fresh, empty MemoryStorage under
     * `name` exactly when the current value is missing, falsy or lacks a
     * `clear` function; the other storage property is untouched.
     */
    method EnsureStorage(name: StorageName)
      modifies this
      ensures Usable(old(Current(name))) ==> slots == old(slots)
      ensures !Usable(old(Current(name))) ==>
        name in slots && slots[name].Memory? &&
        fresh(slots[name].storage) && slots[name].storage.Valid() &&
        slots[name].storage.store == map[] &&
        slots == old(slots)[name := slots[name]]
      ensures Usable(Current(name))
    {
      if !Usable(Current(name)) {
        var storage := new MemoryStorage();
        slots := slots[name := Memory(storage)];
      }
    }
  }
}
