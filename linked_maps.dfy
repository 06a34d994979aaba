/**
 * The `LinkedHashMap<String, String>` the facet importer fills: a map that
 * remembers the order in which its keys were first put. Putting a key that
 * is already there replaces its value and keeps its place.
 */
module LinkedMaps {

  /** A linked map's value: its keys in insertion order and its mappings. */
  datatype LinkedMap = LinkedMap(keys: seq<string>, values: map<string, string>)
  {
    /** Every key is listed once, and exactly the mapped keys are listed. */
    predicate Valid()
    {
      && (forall i, j :: 0 <= i < j < |keys| ==> keys[i] != keys[j])
      && values.Keys == set k | k in keys
    }

    /** `put(key, value)`. */
    function Put(key: string, value: string): (r: LinkedMap)
      ensures key in r.values && r.values[key] == value
      ensures forall k :: k != key ==> (k in r.values <==> k in values)
      ensures forall k :: k != key && k in values ==> r.values[k] == values[k]
      ensures key in values ==> r.keys == keys
      ensures key !in values ==> r.keys == keys + [key]
      ensures Valid() ==> r.Valid()
    {
      LinkedMap(if key in values then keys else keys + [key], values[key := value])
    }
  }

  /** A new, empty map. */
  const EMPTY: LinkedMap := LinkedMap([], map[])

  /** The map after putting each of `entries`, first entry first. */
  function PutAll(m: LinkedMap, entries: seq<(string, string)>): LinkedMap
    decreases |entries|
  {
    if entries == [] then m else PutAll(m.Put(entries[0].0, entries[0].1), entries[1..])
  }

  /** Putting one more entry after a run of puts is one more put: what a loop over the entries keeps. */
  lemma {:induction false} PutAllSnoc(m: LinkedMap, entries: seq<(string, string)>, key: string, value: string)
    ensures PutAll(m, entries + [(key, value)]) == PutAll(m, entries).Put(key, value)
    decreases |entries|
  {
    if entries == [] {
      assert [] + [(key, value)] == [(key, value)];
    } else {
      assert (entries + [(key, value)])[1..] == entries[1..] + [(key, value)];
      PutAllSnoc(m.Put(entries[0].0, entries[0].1), entries[1..], key, value);
    }
  }

  /** A run of puts split in two is the first part's puts followed by the second part's. */
  lemma {:induction false} PutAllAppend(m: LinkedMap, first: seq<(string, string)>, second: seq<(string, string)>)
    ensures PutAll(m, first + second) == PutAll(PutAll(m, first), second)
    decreases |first|
  {
    if first == [] {
      assert [] + second == second;
    } else {
      assert (first + second)[0] == first[0];
      assert (first + second)[1..] == first[1..] + second;
      PutAllAppend(m.Put(first[0].0, first[0].1), first[1..], second);
    }
  }

  /** The last put of a key decides its value: a later put overwrites an earlier one. */
  lemma PutAllLastWins(m: LinkedMap, entries: seq<(string, string)>, i: nat)
    requires i < |entries|
    requires forall j :: i < j < |entries| ==> entries[j].0 != entries[i].0
    ensures entries[i].0 in PutAll(m, entries).values
    ensures PutAll(m, entries).values[entries[i].0] == entries[i].1
  {
    var key, value := entries[i].0, entries[i].1;
    assert entries == entries[..i] + [(key, value)] + entries[i + 1..];
    PutAllAppend(m, entries[..i] + [(key, value)], entries[i + 1..]);
    PutAllSnoc(m, entries[..i], key, value);
    var rest := entries[i + 1..];
    forall j | 0 <= j < |rest|
      ensures rest[j].0 != key
    {
      assert rest[j] == entries[i + 1 + j];
    }
    PutAllUntouched(PutAll(m, entries[..i]).Put(key, value), rest, key);
  }

  /** Puts keep a valid map valid. */
  lemma {:induction false} PutAllValid(m: LinkedMap, entries: seq<(string, string)>)
    requires m.Valid()
    ensures PutAll(m, entries).Valid()
    decreases |entries|
  {
    if entries != [] {
      PutAllValid(m.Put(entries[0].0, entries[0].1), entries[1..]);
    }
  }

  /** Puts never reorder or drop keys already there: the old key order is a prefix of the new one. */
  lemma {:induction false} PutAllKeepsKeyOrder(m: LinkedMap, entries: seq<(string, string)>)
    ensures m.keys <= PutAll(m, entries).keys
    decreases |entries|
  {
    if entries != [] {
      PutAllKeepsKeyOrder(m.Put(entries[0].0, entries[0].1), entries[1..]);
    }
  }

  /** A key that no entry puts keeps its mapping, or its absence. */
  lemma {:induction false} PutAllUntouched(m: LinkedMap, entries: seq<(string, string)>, key: string)
    requires forall i :: 0 <= i < |entries| ==> entries[i].0 != key
    ensures key in PutAll(m, entries).values <==> key in m.values
    ensures key in m.values ==> PutAll(m, entries).values[key] == m.values[key]
    decreases |entries|
  {
    if entries != [] {
      PutAllUntouched(m.Put(entries[0].0, entries[0].1), entries[1..], key);
    }
  }

  /**
   * A key that some entry puts ends up mapped, and when every entry putting
   * it carries the same value, mapped to that value.
   */
  lemma {:induction false} PutAllAgreeingKey(m: LinkedMap, entries: seq<(string, string)>, key: string, value: string)
    requires exists i :: 0 <= i < |entries| && entries[i].0 == key
    requires forall i :: 0 <= i < |entries| && entries[i].0 == key ==> entries[i].1 == value
    ensures key in PutAll(m, entries).values && PutAll(m, entries).values[key] == value
    decreases |entries|
  {
    var m' := m.Put(entries[0].0, entries[0].1);
    if exists i :: 1 <= i < |entries| && entries[i].0 == key {
      var i :| 1 <= i < |entries| && entries[i].0 == key;
      assert entries[1..][i - 1] == entries[i];
      forall j | 0 <= j < |entries[1..]| && entries[1..][j].0 == key
        ensures entries[1..][j].1 == value
      {
        assert entries[1..][j] == entries[j + 1];
      }
      PutAllAgreeingKey(m', entries[1..], key, value);
    } else {
      assert entries[0].0 == key;
      forall j | 0 <= j < |entries[1..]|
        ensures entries[1..][j].0 != key
      {
        assert entries[1..][j] == entries[j + 1];
      }
      PutAllUntouched(m', entries[1..], key);
    }
  }

  /**
   * `java.util.LinkedHashMap<String, String>`, as the importer uses it: a
   * new empty map and `put`.
   */
  class ResourceMap {
    var keys: seq<string>
    var values: map<string, string>

    /** The map's current value. */
    function Contents(): LinkedMap
      reads this
    {
      LinkedMap(keys, values)
    }

    constructor ()
      ensures Contents() == EMPTY
    {
      keys := [];
      values := map[];
    }

    method Put(key: string, value: string)
      modifies this
      ensures Contents() == old(Contents()).Put(key, value)
    {
      if key !in values {
        keys := keys + [key];
      }
      values := values[key := value];
    }
  }
}
