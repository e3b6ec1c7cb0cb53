/**
 * The second half of `_compute_by_field` (src/nl2graph/analysis/reporting.py):
 * the groups, each already under the printed form of its value, sorted
 * by that text and copied into the output dictionary with their
 * statistics. Stated for any group and statistics type.
 */
module Groups {
  import opened Wrappers
  import opened Strs
  import opened OrderedMaps

  /** An entry of the sorted loop: `str` of a group's value, and the group. */
  type Item<P> = (string, P)

  /** `grouped.items()`, each value already under its name (`str` in the source), in the order the groups were created. */
  function Items<K(==, !new), P>(g: OrderedMap<K, P>, name: K -> string): (items: seq<Item<P>>)
    requires Valid(g)
    ensures |items| == |g.keys|
    ensures forall i :: 0 <= i < |items| ==> items[i] == (name(g.keys[i]), g.values[g.keys[i]])
  {
    seq(|g.keys|, i requires 0 <= i < |g.keys| => (name(g.keys[i]), g.values[g.keys[i]]))
  }

  /** The sort key: `str` of the group's value. */
  function ItemKey<P>(item: Item<P>): string
  {
    item.0
  }

  /** The output dictionary after the second loop has visited `items`: each group's statistics under its key. */
  function Outputs<P, S>(items: seq<Item<P>>, stats: P -> S): (out: OrderedMap<string, S>)
    ensures Valid(out)
    decreases |items|
  {
    if items == [] then Empty()
    else
      var n := |items| - 1;
      Put(Outputs(items[..n], stats), items[n].0, stats(items[n].1))
  }

  /**
   * The output dictionary of the second loop when computing a group's
   * statistics can raise: the first error, or every group's statistics
   * under its key.
   */
  function Collect<P, S, E>(items: seq<Item<P>>, stats: P -> Result<S, E>): (r: Result<OrderedMap<string, S>, E>)
    ensures r.Ok? <==> forall i :: 0 <= i < |items| ==> stats(items[i].1).Ok?
    decreases |items|
  {
    if items == [] then Ok(Empty())
    else
      var n := |items| - 1;
      assert forall i :: 0 <= i < n ==> items[..n][i] == items[i];
      match Collect(items[..n], stats)
      case Err(e) => Err(e)
      case Ok(out) =>
        match stats(items[n].1)
        case Err(e) => Err(e)
        case Ok(s) => Ok(Put(out, items[n].0, s))
  }

  /** When no group raises, the loop writes every group's statistics. */
  lemma {:induction false} CollectOk<P, S, E>(items: seq<Item<P>>, stats: P -> Result<S, E>, value: P -> S)
    requires forall i :: 0 <= i < |items| ==> stats(items[i].1) == Ok(value(items[i].1))
    ensures Collect(items, stats) == Ok(Outputs(items, value))
    decreases |items|
  {
    if items != [] {
      var n := |items| - 1;
      assert forall i :: 0 <= i < n ==> items[..n][i] == items[i];
      CollectOk(items[..n], stats, value);
    }
  }

  /** The first group that raises decides the error. */
  lemma {:induction false} CollectFirstError<P, S, E>(items: seq<Item<P>>, stats: P -> Result<S, E>, i: nat)
    requires i < |items| && stats(items[i].1).Err?
    requires forall j :: 0 <= j < i ==> stats(items[j].1).Ok?
    ensures Collect(items, stats) == Err(stats(items[i].1).error)
    decreases |items|
  {
    var n := |items| - 1;
    var init := items[..n];
    if i < n {
      assert init[i] == items[i];
      forall j | 0 <= j < i
        ensures stats(init[j].1).Ok?
      {
        assert init[j] == items[j];
      }
      CollectFirstError(init, stats, i);
    } else {
      forall j | 0 <= j < n
        ensures stats(init[j].1).Ok?
      {
        assert init[j] == items[j];
      }
    }
  }

  /** Every item's key is an output key. */
  lemma {:induction false} OutputsHas<P, S>(items: seq<Item<P>>, stats: P -> S, i: nat)
    requires i < |items|
    ensures items[i].0 in Outputs(items, stats).values
    decreases |items|
  {
    var n := |items| - 1;
    if i < n {
      assert items[..n][i] == items[i];
      OutputsHas(items[..n], stats, i);
    }
  }

  /** Every output key is some item's key. */
  lemma {:induction false} OutputsFrom<P, S>(items: seq<Item<P>>, stats: P -> S, s: string)
    requires s in Outputs(items, stats).values
    ensures exists i :: 0 <= i < |items| && items[i].0 == s
    decreases |items|
  {
    var n := |items| - 1;
    if s != items[n].0 {
      OutputsFrom(items[..n], stats, s);
      var i :| 0 <= i < n && items[..n][i].0 == s;
      assert items[i] == items[..n][i];
    }
  }

  /** In a list sorted by key, an item sharing the last item's key forces the one before the last to share it too. */
  lemma SortedSameKey<P>(items: seq<Item<P>>, j: nat)
    requires SortedBy(items, ItemKey)
    requires j + 1 < |items| && items[j].0 == items[|items| - 1].0
    ensures items[|items| - 2].0 == items[|items| - 1].0
  {
    var n := |items| - 1;
    var k := items[n].0;
    assert LessEq(ItemKey(items[j]), ItemKey(items[n - 1])) by {
      if j < n - 1 {
        assert LessEq(ItemKey(items[j]), ItemKey(items[n - 1]));
      }
    }
    assert LessEq(ItemKey(items[n - 1]), ItemKey(items[n]));
    if items[n - 1].0 != k {
      LessAsymmetric(items[n - 1].0, k);
    }
  }

  /** Writing a key not below the last one, and repeating none but the last, keeps the keys strictly increasing and ending with the key written. */
  lemma PutKeepsSorted<S>(out: OrderedMap<string, S>, k: string, v: S)
    requires Valid(out) && StrictlySorted(out.keys)
    requires out.keys != [] ==> LessEq(out.keys[|out.keys| - 1], k)
    requires k in out.values ==> out.keys != [] && out.keys[|out.keys| - 1] == k
    ensures StrictlySorted(Put(out, k, v).keys)
    ensures |Put(out, k, v).keys| > 0 && Put(out, k, v).keys[|Put(out, k, v).keys| - 1] == k
  {
    if k !in out.values {
      if out.keys != [] {
        assert out.keys[|out.keys| - 1] in out.keys;
      }
      AppendSorted(out.keys, k);
    }
  }

  /** Over items sorted by key, the output lists each key once, in strictly increasing order. */
  lemma {:induction false} OutputsSorted<P, S>(items: seq<Item<P>>, stats: P -> S)
    requires SortedBy(items, ItemKey)
    ensures StrictlySorted(Outputs(items, stats).keys)
    ensures items != [] ==> Outputs(items, stats).keys != [] && Outputs(items, stats).keys[|Outputs(items, stats).keys| - 1] == items[|items| - 1].0
    decreases |items|
  {
    if items != [] {
      var n := |items| - 1;
      var init := items[..n];
      SortedByPrefix(items, ItemKey, n);
      OutputsSorted(init, stats);
      var k := items[n].0;
      if n > 0 {
        assert init[n - 1] == items[n - 1];
        assert LessEq(ItemKey(items[n - 1]), ItemKey(items[n]));
      }
      if k in Outputs(init, stats).values {
        OutputsFrom(init, stats, k);
        var j :| 0 <= j < n && init[j].0 == k;
        assert init[j] == items[j];
        SortedSameKey(items, j);
      }
      PutKeepsSorted(Outputs(init, stats), k, stats(items[n].1));
    }
  }

  /** An item equal to every item sharing its key gives its own group's statistics. */
  lemma {:induction false} OutputsValue<P, S>(items: seq<Item<P>>, stats: P -> S, i: nat)
    requires i < |items|
    requires forall j :: 0 <= j < |items| && items[j].0 == items[i].0 ==> items[j] == items[i]
    ensures items[i].0 in Outputs(items, stats).values && Outputs(items, stats).values[items[i].0] == stats(items[i].1)
    decreases |items|
  {
    var n := |items| - 1;
    if items[n].0 != items[i].0 {
      var init := items[..n];
      assert init[i] == items[i];
      forall j | 0 <= j < n && init[j].0 == init[i].0
        ensures init[j] == init[i]
      {
        assert init[j] == items[j];
      }
      OutputsValue(init, stats, i);
    }
  }

  /** Sorting the items keeps the same items. */
  lemma SortedSame<P>(items: seq<Item<P>>, x: Item<P>)
    ensures x in SortBy(items, ItemKey) <==> x in items
  {
    var sorted := SortBy(items, ItemKey);
    assert x in sorted <==> x in multiset(sorted);
    assert x in items <==> x in multiset(items);
  }

  /** Over the sorted items of a map, the loop raises exactly when the statistics of some value raise. */
  lemma SortedCollectOk<K(!new), P, S, E>(g: OrderedMap<K, P>, name: K -> string, stats: P -> Result<S, E>)
    requires Valid(g)
    ensures Collect(SortBy(Items(g, name), ItemKey), stats).Ok? <==> forall k :: k in g.values ==> stats(g.values[k]).Ok?
  {
    var items := Items(g, name);
    var sorted := SortBy(items, ItemKey);
    if forall k :: k in g.values ==> stats(g.values[k]).Ok? {
      forall i | 0 <= i < |sorted|
        ensures stats(sorted[i].1).Ok?
      {
        SortedItemValue(g, name, i);
      }
    }
    if Collect(sorted, stats).Ok? {
      forall k | k in g.values
        ensures stats(g.values[k]).Ok?
      {
        var idx :| 0 <= idx < |g.keys| && g.keys[idx] == k;
        SortedSame(items, items[idx]);
        var i :| 0 <= i < |sorted| && sorted[i] == items[idx];
      }
    }
  }

  /** Every output key over the sorted items of a map names one of its keys. */
  lemma SortedItemsFrom<K(!new), P, S>(g: OrderedMap<K, P>, name: K -> string, stats: P -> S, s: string)
    requires Valid(g)
    requires s in Outputs(SortBy(Items(g, name), ItemKey), stats).values
    ensures exists v :: v in g.values && name(v) == s
  {
    var items := Items(g, name);
    var sorted := SortBy(items, ItemKey);
    OutputsFrom(sorted, stats, s);
    var i :| 0 <= i < |sorted| && sorted[i].0 == s;
    SortedSame(items, sorted[i]);
    var k :| 0 <= k < |items| && items[k] == sorted[i];
    assert g.keys[k] in g.values;
  }

  /** Every sorted item holds the value of some key of the map. */
  lemma SortedItemValue<K(!new), P>(g: OrderedMap<K, P>, name: K -> string, j: nat)
    requires Valid(g) && j < |SortBy(Items(g, name), ItemKey)|
    ensures exists v :: v in g.values && SortBy(Items(g, name), ItemKey)[j].1 == g.values[v]
  {
    var items := Items(g, name);
    var sorted := SortBy(items, ItemKey);
    SortedSame(items, sorted[j]);
    var k :| 0 <= k < |items| && items[k] == sorted[j];
    assert g.keys[k] in g.values;
  }

  /** The name of every key of a map is an output key over its sorted items. */
  lemma SortedItemsHas<K(!new), P, S>(g: OrderedMap<K, P>, name: K -> string, stats: P -> S, v: K)
    requires Valid(g) && v in g.values
    ensures name(v) in Outputs(SortBy(Items(g, name), ItemKey), stats).values
  {
    var items := Items(g, name);
    var sorted := SortBy(items, ItemKey);
    var k :| 0 <= k < |g.keys| && g.keys[k] == v;
    SortedSame(items, items[k]);
    var i :| 0 <= i < |sorted| && sorted[i] == items[k];
    OutputsHas(sorted, stats, i);
  }

  /** A key of a map that no other key prints like gives its own value's statistics. */
  lemma SortedItemsValue<K(!new), P, S>(g: OrderedMap<K, P>, name: K -> string, stats: P -> S, v: K)
    requires Valid(g) && v in g.values
    requires forall w :: w in g.values && name(w) == name(v) ==> w == v
    ensures name(v) in Outputs(SortBy(Items(g, name), ItemKey), stats).values
    ensures Outputs(SortBy(Items(g, name), ItemKey), stats).values[name(v)] == stats(g.values[v])
  {
    var items := Items(g, name);
    var sorted := SortBy(items, ItemKey);
    var k :| 0 <= k < |g.keys| && g.keys[k] == v;
    SortedSame(items, items[k]);
    var i :| 0 <= i < |sorted| && sorted[i] == items[k];
    SortedNameOnce(g, name, v, i);
    OutputsValue(sorted, stats, i);
  }

  /** A name that only `v` has labels one sorted item, `v`'s. */
  lemma SortedNameOnce<K(!new), P>(g: OrderedMap<K, P>, name: K -> string, v: K, i: nat)
    requires Valid(g) && v in g.values
    requires forall w :: w in g.values && name(w) == name(v) ==> w == v
    requires i < |SortBy(Items(g, name), ItemKey)| && SortBy(Items(g, name), ItemKey)[i] == (name(v), g.values[v])
    ensures forall j :: 0 <= j < |SortBy(Items(g, name), ItemKey)| && SortBy(Items(g, name), ItemKey)[j].0 == name(v) ==>
      SortBy(Items(g, name), ItemKey)[j] == SortBy(Items(g, name), ItemKey)[i]
  {
    var items := Items(g, name);
    var sorted := SortBy(items, ItemKey);
    forall j | 0 <= j < |sorted| && sorted[j].0 == name(v)
      ensures sorted[j] == sorted[i]
    {
      SortedSame(items, sorted[j]);
      var kj :| 0 <= kj < |items| && items[kj] == sorted[j];
      assert g.keys[kj] in g.values;
    }
  }

  /** The dictionary a loop builds by assigning `f(k)` to each key `k` of `keys` in turn. */
  function Keyed<K(!new), V>(keys: seq<K>, f: K -> V): (m: OrderedMap<K, V>)
    ensures Valid(m)
    decreases |keys|
  {
    if keys == [] then Empty()
    else
      var n := |keys| - 1;
      Put(Keyed(keys[..n], f), keys[n], f(keys[n]))
  }

  /** The dictionary of the same loop when computing `f(k)` can raise: the first error, or every key's value. */
  function KeyedOrError<K(!new), V, E>(keys: seq<K>, f: K -> Result<V, E>): (r: Result<OrderedMap<K, V>, E>)
    ensures r.Ok? <==> forall i :: 0 <= i < |keys| ==> f(keys[i]).Ok?
    decreases |keys|
  {
    if keys == [] then Ok(Empty())
    else
      var n := |keys| - 1;
      assert forall i :: 0 <= i < n ==> keys[..n][i] == keys[i];
      match KeyedOrError(keys[..n], f)
      case Err(e) => Err(e)
      case Ok(m) =>
        match f(keys[n])
        case Err(e) => Err(e)
        case Ok(v) => Ok(Put(m, keys[n], v))
  }

  /** When no key raises, the loop assigns every key its value. */
  lemma {:induction false} KeyedOrErrorOk<K(!new), V, E>(keys: seq<K>, f: K -> Result<V, E>, value: K -> V)
    requires forall i :: 0 <= i < |keys| ==> f(keys[i]) == Ok(value(keys[i]))
    ensures KeyedOrError(keys, f) == Ok(Keyed(keys, value))
    decreases |keys|
  {
    if keys != [] {
      var n := |keys| - 1;
      assert forall i :: 0 <= i < n ==> keys[..n][i] == keys[i];
      KeyedOrErrorOk(keys[..n], f, value);
    }
  }

  /** Once the keys before `i` succeed, the error of key `i` is the error of the whole loop. */
  lemma {:induction false} KeyedFirstError<K(!new), V, E>(keys: seq<K>, f: K -> Result<V, E>, i: nat)
    requires i < |keys| && KeyedOrError(keys[..i], f).Ok? && f(keys[i]).Err?
    ensures KeyedOrError(keys, f) == Err(f(keys[i]).error)
    decreases |keys|
  {
    var n := |keys| - 1;
    if i < n {
      assert keys[..n][..i] == keys[..i] && keys[..n][i] == keys[i];
      KeyedFirstError(keys[..n], f, i);
    } else {
      assert keys[..n] == keys[..i];
    }
  }

  /** Each key assigned is present once, with `f` of itself; nothing else is. */
  lemma {:induction false} KeyedEntry<K(!new), V>(keys: seq<K>, f: K -> V, k: K)
    ensures k in Keyed(keys, f).values <==> k in keys
    ensures k in keys ==> Keyed(keys, f).values[k] == f(k)
    decreases |keys|
  {
    if keys != [] {
      var n := |keys| - 1;
      KeyedEntry(keys[..n], f, k);
      assert keys == keys[..n] + [keys[n]];
    }
  }

  /** Assigning distinct keys keeps them in the order assigned. */
  lemma {:induction false} KeyedKeys<K(!new), V>(keys: seq<K>, f: K -> V)
    requires forall i, j :: 0 <= i < j < |keys| ==> keys[i] != keys[j]
    ensures Keyed(keys, f).keys == keys
    decreases |keys|
  {
    if keys != [] {
      var n := |keys| - 1;
      var init := keys[..n];
      assert forall i :: 0 <= i < n ==> init[i] == keys[i];
      KeyedKeys(init, f);
      KeyedEntry(init, f, keys[n]);
      assert keys[n] !in init;
      assert keys == init + [keys[n]];
    }
  }
}
