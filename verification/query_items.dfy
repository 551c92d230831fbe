/** Turning a parameter dictionary into URL query items. */
module QueryItems {
  import opened Dictionaries
  import opened Urls

  /** One query item per entry, folded in the dictionary's iteration order:
      the name is the key and the value is `describe` of the value, standing
      for Swift's string interpolation of an arbitrary value. */
  function UrlQueryItems<V>(d: Dictionary<V>, describe: V -> string): (items: seq<QueryItem>)
    ensures |items| == |d.entries|
    ensures forall i :: 0 <= i < |items| ==>
      items[i] == QueryItem(d.entries[i].0, describe(d.entries[i].1))
  {
    Collect(d.entries, describe)
  }

  /** The left fold behind `UrlQueryItems`: items so far, then the next one. */
  function Collect<V>(entries: seq<(string, V)>, describe: V -> string): (items: seq<QueryItem>)
    ensures |items| == |entries|
    ensures forall i :: 0 <= i < |items| ==>
      items[i] == QueryItem(entries[i].0, describe(entries[i].1))
  {
    if |entries| == 0 then []
    else
      var last := entries[|entries| - 1];
      Collect(entries[..|entries| - 1], describe) + [QueryItem(last.0, describe(last.1))]
  }

  /** An empty dictionary gives no items; otherwise there are as many items
      as the dictionary has keys. */
  lemma QueryItemCount<V>(d: Dictionary<V>, describe: V -> string)
    ensures IsEmpty(d) <==> UrlQueryItems(d, describe) == []
    ensures |UrlQueryItems(d, describe)| == |ToMap(d)|
  {
    ToMapEntries(d);
  }

  /** Order-free statement of the result: as a multiset, the items are exactly
      the pairs (key, string form of its value), each once. */
  lemma QueryItemsAsMultiset<V>(d: Dictionary<V>, describe: V -> string)
    ensures forall q :: multiset(UrlQueryItems(d, describe))[q] ==
                        (if q.name in ToMap(d) && q.value == describe(ToMap(d)[q.name]) then 1 else 0)
  {
    CollectMultiset(d.entries, describe);
  }

  lemma {:induction false} CollectMultiset<V>(entries: seq<(string, V)>, describe: V -> string)
    requires UniqueKeys(entries)
    ensures var m := StoreAll(map[], entries);
            forall q :: multiset(Collect(entries, describe))[q] ==
                        (if q.name in m && q.value == describe(m[q.name]) then 1 else 0)
  {
    if |entries| > 0 {
      var prefix := entries[..|entries| - 1];
      var last := entries[|entries| - 1];
      assert UniqueKeys(prefix) by {
        forall i, j | 0 <= i < j < |prefix| ensures prefix[i].0 != prefix[j].0 {
          assert prefix[i] == entries[i] && prefix[j] == entries[j];
        }
      }
      CollectMultiset(prefix, describe);
      var before := StoreAll(map[], prefix);
      assert last.0 !in before by {
        forall i | 0 <= i < |prefix| ensures prefix[i].0 != last.0 {
          assert prefix[i] == entries[i];
        }
      }
      assert Collect(entries, describe) ==
        Collect(prefix, describe) + [QueryItem(last.0, describe(last.1))];
    }
  }

  /** Each key of the dictionary names exactly one item. */
  lemma EachKeyOnce<V>(d: Dictionary<V>, describe: V -> string, k: string)
    requires k in ToMap(d)
    ensures QueryItem(k, describe(ToMap(d)[k])) in UrlQueryItems(d, describe)
    ensures forall i, j :: 0 <= i < j < |UrlQueryItems(d, describe)| ==>
      UrlQueryItems(d, describe)[i].name != UrlQueryItems(d, describe)[j].name
  {
    QueryItemsAsMultiset(d, describe);
    assert multiset(UrlQueryItems(d, describe))[QueryItem(k, describe(ToMap(d)[k]))] == 1;
  }

  /** Two dictionaries with the same contents give the same items up to
      order, whatever their iteration orders. */
  lemma QueryItemsOrderIndependent<V>(d: Dictionary<V>, e: Dictionary<V>, describe: V -> string)
    requires ToMap(d) == ToMap(e)
    ensures multiset(UrlQueryItems(d, describe)) == multiset(UrlQueryItems(e, describe))
  {
    QueryItemsAsMultiset(d, describe);
    QueryItemsAsMultiset(e, describe);
  }
}
