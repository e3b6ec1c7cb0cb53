/**
 * The vocabulary helpers of the sequence-to-sequence trainer
 * (src/nl2graph/seq2seq/train/utils.py): the initial token-to-index
 * vocabulary and the inversion of a dictionary, as Python builds them,
 * with insertion order.
 */
module Vocab {
  import opened OrderedMaps

  /** The dict built by inserting the pairs in order: a repeated key keeps its place and takes the later value. */
  function FromPairs<K(!new), V>(ps: seq<(K, V)>): (m: OrderedMap<K, V>)
    ensures Valid(m)
    decreases |ps|
  {
    if ps == [] then Empty()
    else
      var n := |ps| - 1;
      Put(FromPairs(ps[..n]), ps[n].0, ps[n].1)
  }

  /** `d.items()`. */
  function Pairs<K(!new), V>(d: OrderedMap<K, V>): (ps: seq<(K, V)>)
    requires Valid(d)
    ensures |ps| == |d.keys|
    ensures forall i :: 0 <= i < |ps| ==> ps[i].0 == d.keys[i] && ps[i].1 == d.values[d.keys[i]]
  {
    seq(|d.keys|, i requires 0 <= i < |d.keys| => (d.keys[i], d.values[d.keys[i]]))
  }

  /** Each pair turned round. */
  function Swap<K, V>(ps: seq<(K, V)>): (qs: seq<(V, K)>)
    ensures |qs| == |ps|
    ensures forall i :: 0 <= i < |ps| ==> qs[i] == (ps[i].1, ps[i].0)
  {
    seq(|ps|, i requires 0 <= i < |ps| => (ps[i].1, ps[i].0))
  }

  /** No two pairs share a first component. */
  predicate DistinctFirsts<K(==), V>(ps: seq<(K, V)>)
  {
    forall i, j :: 0 <= i < j < |ps| ==> ps[i].0 != ps[j].0
  }

  /** `invert_dict`: `{v: k for k, v in d.items()}`. */
  function InvertDict<K(!new), V(!new)>(d: OrderedMap<K, V>): (r: OrderedMap<V, K>)
    requires Valid(d)
    ensures Valid(r)
  {
    FromPairs(Swap(Pairs(d)))
  }

  /** `init_vocab`: the four special tokens, in this order, with indices 0 to 3. */
  function InitVocab(): (v: OrderedMap<string, int>)
    ensures Valid(v)
    ensures forall k :: k in v.values ==> 0 <= v.values[k] < |v.keys|
  {
    OrderedMap(["<PAD>", "<UNK>", "<START>", "<END>"], map["<PAD>" := 0, "<UNK>" := 1, "<START>" := 2, "<END>" := 3])
  }

  /** A key is present iff some pair has it. */
  lemma {:induction false} FromPairsHas<K(!new), V>(ps: seq<(K, V)>, k: K)
    ensures k in FromPairs(ps).values <==> exists i :: 0 <= i < |ps| && ps[i].0 == k
    decreases |ps|
  {
    if ps != [] {
      var n := |ps| - 1;
      var init := ps[..n];
      FromPairsHas(init, k);
      if exists i :: 0 <= i < n && init[i].0 == k {
        var i :| 0 <= i < n && init[i].0 == k;
        assert ps[i].0 == k;
      }
      if exists i :: 0 <= i < |ps| && ps[i].0 == k {
        var i :| 0 <= i < |ps| && ps[i].0 == k;
        if i < n {
          assert init[i].0 == k;
        }
      }
    }
  }

  /** A key takes the value of the last pair that has it. */
  lemma {:induction false} FromPairsLast<K(!new), V>(ps: seq<(K, V)>, k: K, i: nat)
    requires i < |ps| && ps[i].0 == k
    requires forall j :: i < j < |ps| ==> ps[j].0 != k
    ensures k in FromPairs(ps).values && FromPairs(ps).values[k] == ps[i].1
    decreases |ps|
  {
    var n := |ps| - 1;
    if i < n {
      var init := ps[..n];
      assert init[i] == ps[i];
      assert forall j :: i < j < n ==> init[j] == ps[j];
      FromPairsLast(init, k, i);
    }
  }

  /** A key no pair has is absent. */
  lemma FromPairsMissing<K(!new), V>(ps: seq<(K, V)>, k: K)
    requires forall i :: 0 <= i < |ps| ==> ps[i].0 != k
    ensures k !in FromPairs(ps).values
  {
    FromPairsHas(ps, k);
  }

  /** With distinct first components the dict lists the keys in pair order. */
  lemma {:induction false} FromPairsOrder<K(!new), V>(ps: seq<(K, V)>)
    requires DistinctFirsts(ps)
    ensures |FromPairs(ps).keys| == |ps|
    ensures forall i :: 0 <= i < |ps| ==> FromPairs(ps).keys[i] == ps[i].0
    decreases |ps|
  {
    if ps != [] {
      var n := |ps| - 1;
      var init := ps[..n];
      assert DistinctFirsts(init) by {
        forall i, j | 0 <= i < j < |init| ensures init[i].0 != init[j].0 {
          assert init[i] == ps[i] && init[j] == ps[j];
        }
      }
      FromPairsOrder(init);
      FromPairsMissing(init, ps[n].0);
    }
  }

  /** With distinct first components every pair's key maps to the pair's value. */
  lemma FromPairsDistinct<K(!new), V>(ps: seq<(K, V)>)
    requires DistinctFirsts(ps)
    ensures |FromPairs(ps).keys| == |ps|
    ensures forall i :: 0 <= i < |ps| ==> FromPairs(ps).keys[i] == ps[i].0
    ensures forall i :: 0 <= i < |ps| ==> ps[i].0 in FromPairs(ps).values && FromPairs(ps).values[ps[i].0] == ps[i].1
  {
    FromPairsOrder(ps);
    forall i | 0 <= i < |ps|
      ensures ps[i].0 in FromPairs(ps).values && FromPairs(ps).values[ps[i].0] == ps[i].1
    {
      FromPairsLast(ps, ps[i].0, i);
    }
  }

  /** A dict is rebuilt by inserting its own items. */
  lemma FromOwnPairs<K(!new), V>(d: OrderedMap<K, V>)
    requires Valid(d)
    ensures FromPairs(Pairs(d)) == d
  {
    var ps := Pairs(d);
    assert DistinctFirsts(ps);
    FromPairsDistinct(ps);
    var r := FromPairs(ps);
    assert r.keys == d.keys;
    forall k
      ensures k in r.values <==> k in d.values
    {
      FromPairsHas(ps, k);
      if k in d.values {
        var i :| 0 <= i < |d.keys| && d.keys[i] == k;
        assert ps[i].0 == k;
      }
    }
    forall k | k in d.values
      ensures r.values[k] == d.values[k]
    {
      var i :| 0 <= i < |d.keys| && d.keys[i] == k;
      assert ps[i].0 == k;
    }
  }

  /** The items of a dict built from pairs with distinct first components are those pairs. */
  lemma PairsOfDistinct<K(!new), V>(ps: seq<(K, V)>)
    requires DistinctFirsts(ps)
    ensures Pairs(FromPairs(ps)) == ps
  {
    FromPairsDistinct(ps);
  }

  /** The keys of the inverted dict are exactly the values of the dict. */
  lemma InvertKeys<K(!new), V(!new)>(d: OrderedMap<K, V>, v: V)
    requires Valid(d)
    ensures v in InvertDict(d).values <==> exists k :: k in d.values && d.values[k] == v
  {
    var qs := Swap(Pairs(d));
    FromPairsHas(qs, v);
    if exists k :: k in d.values && d.values[k] == v {
      var k :| k in d.values && d.values[k] == v;
      var i :| 0 <= i < |d.keys| && d.keys[i] == k;
      assert qs[i].0 == v;
    }
  }

  /** A value maps back to the last key, in insertion order, that has it. */
  lemma InvertLastWins<K(!new), V(!new)>(d: OrderedMap<K, V>, v: V, i: nat)
    requires Valid(d)
    requires i < |d.keys| && d.values[d.keys[i]] == v
    requires forall j :: i < j < |d.keys| ==> d.values[d.keys[j]] != v
    ensures v in InvertDict(d).values && InvertDict(d).values[v] == d.keys[i]
  {
    FromPairsLast(Swap(Pairs(d)), v, i);
  }

  /** No two keys share a value. */
  predicate Injective<K(!new), V(==)>(d: OrderedMap<K, V>)
    requires Valid(d)
  {
    forall i, j :: 0 <= i < j < |d.keys| ==> d.values[d.keys[i]] != d.values[d.keys[j]]
  }

  /** Inverting an injective dict twice gives it back, order included. */
  lemma InvertInvolution<K(!new), V(!new)>(d: OrderedMap<K, V>)
    requires Valid(d) && Injective(d)
    ensures InvertDict(InvertDict(d)) == d
  {
    var qs := Swap(Pairs(d));
    assert DistinctFirsts(qs);
    PairsOfDistinct(qs);
    assert Swap(qs) == Pairs(d);
    FromOwnPairs(d);
  }

  /** The initial vocabulary gives each token its own index. */
  lemma InitVocabInjective()
    ensures Injective(InitVocab())
  {
    var v := InitVocab();
    forall i, j | 0 <= i < j < |v.keys|
      ensures v.values[v.keys[i]] != v.values[v.keys[j]]
    {
      assert v.values[v.keys[i]] == i && v.values[v.keys[j]] == j;
    }
  }

  /** The inverse of an injective dict lists its values in key order and maps each back to its key. */
  lemma InvertInjective<K(!new), V(!new)>(d: OrderedMap<K, V>)
    requires Valid(d) && Injective(d)
    ensures |InvertDict(d).keys| == |d.keys|
    ensures forall i :: 0 <= i < |d.keys| ==> InvertDict(d).keys[i] == d.values[d.keys[i]]
    ensures forall i :: 0 <= i < |d.keys| ==>
      d.values[d.keys[i]] in InvertDict(d).values && InvertDict(d).values[d.values[d.keys[i]]] == d.keys[i]
  {
    var qs := Swap(Pairs(d));
    assert DistinctFirsts(qs);
    FromPairsDistinct(qs);
  }

  /** The i-th special token has index i. */
  lemma InitVocabIndex(i: nat)
    requires i < 4
    ensures i < |InitVocab().keys| && InitVocab().values[InitVocab().keys[i]] == i
  {
  }

  /** The index-to-token table inverting the initial vocabulary lists the indices in order. */
  lemma InitVocabInvertedKeys()
    ensures InvertDict(InitVocab()).keys == [0, 1, 2, 3]
  {
    var v := InitVocab();
    InitVocabInjective();
    InvertInjective(v);
    forall i | 0 <= i < 4
      ensures InvertDict(v).keys[i] == i
    {
      InitVocabIndex(i);
    }
  }

  /** The index-to-token table inverting the initial vocabulary: index i gives the i-th special token. */
  lemma InitVocabInverted(i: nat)
    requires i < 4
    ensures i in InvertDict(InitVocab()).values && InvertDict(InitVocab()).values[i] == InitVocab().keys[i]
  {
    InitVocabInjective();
    InvertInjective(InitVocab());
    InitVocabIndex(i);
  }
}
