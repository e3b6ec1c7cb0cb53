/**
 * A dictionary that remembers the order in which its keys were first
 * inserted, as Python's `dict` does: assigning to a present key replaces
 * its value and keeps its position, assigning to a new key appends it.
 * The registries and caches of the services are such dictionaries, and
 * their `ls_*` listings are their key order.
 */
module OrderedMaps {
  import opened Wrappers

  datatype OrderedMap<K(==, !new), V> = OrderedMap(keys: seq<K>, values: map<K, V>)

  /** The keys are distinct and are exactly the keys of the value map. */
  ghost predicate Valid<K(!new), V>(m: OrderedMap<K, V>) {
    && (forall i, j :: 0 <= i < j < |m.keys| ==> m.keys[i] != m.keys[j])
    && (forall k :: k in m.values <==> k in m.keys)
  }

  function Empty<K(!new), V>(): (m: OrderedMap<K, V>)
    ensures Valid(m) && m.keys == [] && m.values == map[]
  {
    OrderedMap([], map[])
  }

  /** `d[k] = v`. */
  function Put<K(!new), V>(m: OrderedMap<K, V>, k: K, v: V): (r: OrderedMap<K, V>)
    ensures Valid(m) ==> Valid(r)
    ensures r.values == m.values[k := v]
    ensures k in m.values ==> r.keys == m.keys
    ensures k !in m.values ==> r.keys == m.keys + [k]
  {
    if k in m.values then OrderedMap(m.keys, m.values[k := v])
    else OrderedMap(m.keys + [k], m.values[k := v])
  }

  /** `d.get(k)`. */
  function Get<K(!new), V>(m: OrderedMap<K, V>, k: K): (r: Option<V>)
    ensures r.Some? <==> k in m.values
    ensures r.Some? ==> r.value == m.values[k]
  {
    if k in m.values then Some(m.values[k]) else None
  }

  /** Reading after a write gives the value written; every other key reads as before. */
  lemma PutGet<K(!new), V>(m: OrderedMap<K, V>, k: K, v: V, k': K)
    ensures Get(Put(m, k, v), k') == if k' == k then Some(v) else Get(m, k')
  {
  }

  /** The map without its last key, as a valid map. */
  function DropLast<K(!new), V>(m: OrderedMap<K, V>): (rest: OrderedMap<K, V>)
    requires Valid(m) && m.keys != []
    ensures Valid(rest) && |rest.keys| == |m.keys| - 1
    ensures m.keys[|m.keys| - 1] !in rest.values
    ensures m.values.Keys == rest.values.Keys + {m.keys[|m.keys| - 1]}
  {
    var last := m.keys[|m.keys| - 1];
    var rest := OrderedMap(m.keys[..|m.keys| - 1], m.values - {last});
    assert forall i :: 0 <= i < |rest.keys| ==> rest.keys[i] == m.keys[i];
    assert forall k :: k in rest.keys ==> k in m.keys && k != last;
    assert forall k :: k in m.keys && k != last ==> k in rest.keys by {
      forall k | k in m.keys && k != last
        ensures k in rest.keys
      {
        var i :| 0 <= i < |m.keys| && m.keys[i] == k;
        assert rest.keys[i] == k;
      }
    }
    assert last in m.values && rest.values.Keys == m.values.Keys - {last};
    rest
  }

  /** A valid map lists each of its keys once, so its length is its number of entries. */
  lemma {:induction false} CountIsSize<K(!new), V>(m: OrderedMap<K, V>)
    requires Valid(m)
    ensures |m.keys| == |m.values.Keys|
    decreases |m.keys|
  {
    if m.keys != [] {
      CountIsSize(DropLast(m));
    } else {
      assert m.values.Keys == {};
    }
  }
}
