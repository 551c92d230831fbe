/** A Swift `Dictionary` keyed by strings, kept as its entries in iteration
    order. Swift leaves that order unspecified, so every property proved about
    the operations that walk a dictionary holds for every order. */
module Dictionaries {

  predicate UniqueKeys<V>(entries: seq<(string, V)>) {
    forall i, j :: 0 <= i < j < |entries| ==> entries[i].0 != entries[j].0
  }

  /** The entries of a dictionary; a key occurs at most once. */
  datatype Dict<V> = Dict(entries: seq<(string, V)>)

  type Dictionary<V> = d: Dict<V> | UniqueKeys(d.entries) witness Dict([])

  predicate IsEmpty<V>(d: Dictionary<V>) {
    |d.entries| == 0
  }

  /** Stores each entry, in iteration order, into `m`: what a loop of
      subscript assignments (or `setValue(_:forHTTPHeaderField:)`) does. */
  function StoreAll<V>(m: map<string, V>, entries: seq<(string, V)>): (r: map<string, V>)
    ensures r.Keys == m.Keys + set i | 0 <= i < |entries| :: entries[i].0
  {
    if |entries| == 0 then m
    else
      var last := entries[|entries| - 1];
      StoreAll(m, entries[..|entries| - 1])[last.0 := last.1]
  }

  /** The dictionary as a map from key to value. */
  function ToMap<V>(d: Dictionary<V>): map<string, V> {
    StoreAll(map[], d.entries)
  }

  /** With distinct keys, storing the entries one after another loses none of
      them: each key maps to its own entry's value, whatever the order. */
  lemma {:induction false} StoreAllDistinct<V>(m: map<string, V>, entries: seq<(string, V)>)
    requires UniqueKeys(entries)
    ensures forall i :: 0 <= i < |entries| ==> StoreAll(m, entries)[entries[i].0] == entries[i].1
    ensures forall k :: k in m && (forall i :: 0 <= i < |entries| ==> entries[i].0 != k) ==>
      StoreAll(m, entries)[k] == m[k]
  {
    if |entries| > 0 {
      var prefix := entries[..|entries| - 1];
      assert UniqueKeys(prefix) by {
        forall i, j | 0 <= i < j < |prefix| ensures prefix[i].0 != prefix[j].0 {
          assert prefix[i] == entries[i] && prefix[j] == entries[j];
        }
      }
      StoreAllDistinct(m, prefix);
      forall i | 0 <= i < |entries| - 1
        ensures StoreAll(m, entries)[entries[i].0] == entries[i].1
      {
        assert prefix[i] == entries[i];
        assert entries[i].0 != entries[|entries| - 1].0;
      }
      forall k | k in m && (forall i :: 0 <= i < |entries| ==> entries[i].0 != k)
        ensures StoreAll(m, entries)[k] == m[k]
      {
        forall i | 0 <= i < |prefix| ensures prefix[i].0 != k {
          assert prefix[i] == entries[i];
        }
        assert entries[|entries| - 1].0 != k;
      }
    }
  }

  /** The map view of a dictionary has exactly its entries: the same keys,
      each with its own value, and as many keys as entries. */
  lemma ToMapEntries<V>(d: Dictionary<V>)
    ensures ToMap(d).Keys == set i | 0 <= i < |d.entries| :: d.entries[i].0
    ensures forall i :: 0 <= i < |d.entries| ==> ToMap(d)[d.entries[i].0] == d.entries[i].1
    ensures |ToMap(d)| == |d.entries|
  {
    StoreAllDistinct(map[], d.entries);
    KeyCount(d.entries);
  }

  /** Distinct keys: the key set is as large as the entry list. */
  lemma {:induction false} KeyCount<V>(entries: seq<(string, V)>)
    requires UniqueKeys(entries)
    ensures |set i | 0 <= i < |entries| :: entries[i].0| == |entries|
  {
    if |entries| > 0 {
      var prefix := entries[..|entries| - 1];
      assert UniqueKeys(prefix) by {
        forall i, j | 0 <= i < j < |prefix| ensures prefix[i].0 != prefix[j].0 {
          assert prefix[i] == entries[i] && prefix[j] == entries[j];
        }
      }
      KeyCount(prefix);
      var before := set i | 0 <= i < |prefix| :: prefix[i].0;
      var after := set i | 0 <= i < |entries| :: entries[i].0;
      var last := entries[|entries| - 1].0;
      assert after == before + {last} by {
        forall k | k in after ensures k in before + {last} {
          var i :| 0 <= i < |entries| && entries[i].0 == k;
          if i < |prefix| {
            assert prefix[i] == entries[i];
          }
        }
        forall k | k in before ensures k in after {
          var i :| 0 <= i < |prefix| && prefix[i].0 == k;
          assert prefix[i] == entries[i];
        }
      }
      assert last !in before by {
        forall i | 0 <= i < |prefix| ensures prefix[i].0 != last {
          assert prefix[i] == entries[i];
        }
      }
    }
  }
}
