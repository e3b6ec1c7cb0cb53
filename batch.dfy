/**
 * A stage runner's write loop over a list of pending records: each record
 * rewrites its own row from that row's current contents. The worker-pool
 * branches save in completion order, which is modelled as the same loop
 * over an arbitrary permutation of the pending list.
 */
module Batch {
  import opened Wrappers
  import opened DataEntity
  import opened Repository

  /** `dst.get` for one key, as the row's stage values. */
  function Lookup(rows: Rows, k: ResultKey): Option<Stages>
  {
    if k in rows then Some(rows[k]) else None
  }

  /** The row a record starts from; a missing row reads as all stages empty. */
  function Current(prior: Option<Stages>): Stages
  {
    if prior.Some? then prior.value else Stages(None, None, None)
  }

  /** The new row a stage computes for a record from its current row. */
  type Update = (Record, Option<Stages>) -> Stages

  /** The `if_exists` policy shared by every stage runner. */
  datatype IfExists = Skip | Override

  /** The order in which a worker pool's futures complete: some permutation of what was submitted. */
  type Schedule = seq<Record> -> seq<Record>

  ghost predicate ValidSchedule(schedule: Schedule) {
    forall xs :: multiset(schedule(xs)) == multiset(xs)
  }

  /** The order the records are saved in: the worker pool's completion order when `workers > 1`. */
  function Order(pending: seq<Record>, workers: int, schedule: Schedule): seq<Record>
  {
    if workers > 1 then schedule(pending) else pending
  }

  /** Each record appears once, and no two records share an id. */
  ghost predicate DistinctIds(xs: seq<Record>) {
    && (forall x :: multiset(xs)[x] <= 1)
    && (forall x, y :: x in xs && y in xs && x.id == y.id ==> x == y)
  }

  /** The keys a batch writes. */
  function KeysOf(xs: seq<Record>, cfg: RunConfig): set<ResultKey>
  {
    set x | x in xs :: KeyOf(x.id, cfg)
  }

  /** The loop: records in list order, each row rewritten from its value at that moment. */
  function Apply(rows: Rows, cfg: RunConfig, xs: seq<Record>, f: Update): Rows
    decreases |xs|
  {
    if xs == [] then rows
    else
      var k := KeyOf(xs[0].id, cfg);
      Apply(rows[k := f(xs[0], Lookup(rows, k))], cfg, xs[1..], f)
  }

  /** The loop writes exactly the batch's keys: others keep their rows, and the key set grows by the batch's keys. */
  lemma {:induction false} ApplyFrame(rows: Rows, cfg: RunConfig, xs: seq<Record>, f: Update)
    ensures Apply(rows, cfg, xs, f).Keys == rows.Keys + KeysOf(xs, cfg)
    ensures forall k :: k in rows && k !in KeysOf(xs, cfg) ==> Apply(rows, cfg, xs, f)[k] == rows[k]
    decreases |xs|
  {
    if xs != [] {
      var k := KeyOf(xs[0].id, cfg);
      var next := rows[k := f(xs[0], Lookup(rows, k))];
      ApplyFrame(next, cfg, xs[1..], f);
      assert xs == [xs[0]] + xs[1..];
      assert KeysOf(xs, cfg) == {k} + KeysOf(xs[1..], cfg);
    }
  }

  lemma DistinctTail(xs: seq<Record>)
    requires xs != [] && DistinctIds(xs)
    ensures DistinctIds(xs[1..]) && xs[0] !in xs[1..]
  {
    var rest := xs[1..];
    assert xs == [xs[0]] + rest;
    assert multiset(xs) == multiset{xs[0]} + multiset(rest);
    assert multiset(xs)[xs[0]] == 1 + multiset(rest)[xs[0]];
    assert xs[0] !in multiset(rest);
    forall x
      ensures multiset(rest)[x] <= 1
    {
      assert multiset(xs)[x] == multiset{xs[0]}[x] + multiset(rest)[x];
    }
    forall x, y | x in rest && y in rest && x.id == y.id
      ensures x == y
    {
      assert x in xs && y in xs;
    }
  }

  /**
   * With distinct ids the loop's result has a closed form: every record's
   * row is its update applied to the row as it was before the batch.
   */
  lemma {:induction false} ApplyClosedForm(rows: Rows, cfg: RunConfig, xs: seq<Record>, f: Update)
    requires DistinctIds(xs)
    ensures forall x :: x in xs ==> KeyOf(x.id, cfg) in Apply(rows, cfg, xs, f)
    ensures forall x :: x in xs ==> Apply(rows, cfg, xs, f)[KeyOf(x.id, cfg)] == f(x, Lookup(rows, KeyOf(x.id, cfg)))
    decreases |xs|
  {
    ApplyFrame(rows, cfg, xs, f);
    if xs != [] {
      var k := KeyOf(xs[0].id, cfg);
      var next := rows[k := f(xs[0], Lookup(rows, k))];
      DistinctTail(xs);
      ApplyClosedForm(next, cfg, xs[1..], f);
      ApplyFrame(next, cfg, xs[1..], f);
      assert k !in KeysOf(xs[1..], cfg);
      forall x | x in xs
        ensures Apply(rows, cfg, xs, f)[KeyOf(x.id, cfg)] == f(x, Lookup(rows, KeyOf(x.id, cfg)))
      {
        if x != xs[0] {
          assert x in xs[1..];
          assert KeyOf(x.id, cfg) != k;
        }
      }
    }
  }

  /** Two batches holding the same records, each once and with distinct ids, leave the same rows whatever their order. */
  lemma ApplyPermutation(rows: Rows, cfg: RunConfig, xs: seq<Record>, ys: seq<Record>, f: Update)
    requires DistinctIds(xs) && multiset(xs) == multiset(ys)
    ensures DistinctIds(ys)
    ensures Apply(rows, cfg, xs, f) == Apply(rows, cfg, ys, f)
  {
    assert forall x :: x in xs <==> x in ys by {
      forall x
        ensures x in xs <==> x in ys
      {
        assert x in xs <==> x in multiset(xs);
        assert x in ys <==> x in multiset(ys);
      }
    }
    var a := Apply(rows, cfg, xs, f);
    var b := Apply(rows, cfg, ys, f);
    ApplyFrame(rows, cfg, xs, f);
    ApplyFrame(rows, cfg, ys, f);
    ApplyClosedForm(rows, cfg, xs, f);
    ApplyClosedForm(rows, cfg, ys, f);
    assert KeysOf(xs, cfg) == KeysOf(ys, cfg);
    forall k | k in a
      ensures a[k] == b[k]
    {
      if k in KeysOf(xs, cfg) {
        var x :| x in xs && KeyOf(x.id, cfg) == k;
      }
    }
    assert a == b;
  }

  /** A sub-list of a duplicate-free batch is duplicate-free. */
  lemma DistinctSub(xs: seq<Record>, ys: seq<Record>)
    requires DistinctIds(xs)
    requires forall y :: multiset(ys)[y] <= multiset(xs)[y]
    ensures DistinctIds(ys)
  {
    forall y | y in ys
      ensures y in xs
    {
      assert y in multiset(ys);
    }
  }

  /** A stage's pending-list comprehension: the records, in order, whose current row passes `keep`. */
  function Where(rows: Rows, cfg: RunConfig, xs: seq<Record>, keep: Option<Stages> -> bool): (r: seq<Record>)
    ensures |r| <= |xs|
  {
    if xs == [] then []
    else
      (if keep(Lookup(rows, KeyOf(xs[0].id, cfg))) then [xs[0]] else []) + Where(rows, cfg, xs[1..], keep)
  }

  /** One step of a loop that builds `Where` record by record. */
  lemma WhereStep(rows: Rows, cfg: RunConfig, xs: seq<Record>, keep: Option<Stages> -> bool, i: nat, acc: seq<Record>, piece: seq<Record>)
    requires i < |xs|
    requires acc + Where(rows, cfg, xs[i..], keep) == Where(rows, cfg, xs, keep)
    requires piece == if keep(Lookup(rows, KeyOf(xs[i].id, cfg))) then [xs[i]] else []
    ensures (acc + piece) + Where(rows, cfg, xs[i + 1..], keep) == Where(rows, cfg, xs, keep)
  {
    assert xs[i..][1..] == xs[i + 1..];
    AppendAssoc(acc, piece, Where(rows, cfg, xs[i + 1..], keep));
  }

  /** A record is selected exactly when it is in the list and its row passes the test. */
  lemma {:induction false} WhereMembership(rows: Rows, cfg: RunConfig, xs: seq<Record>, keep: Option<Stages> -> bool, x: Record)
    ensures x in Where(rows, cfg, xs, keep) <==> x in xs && keep(Lookup(rows, KeyOf(x.id, cfg)))
  {
    if xs != [] {
      WhereMembership(rows, cfg, xs[1..], keep, x);
      assert xs == [xs[0]] + xs[1..];
    }
  }

  /** The selection takes each record at most as often as the list holds it. */
  lemma {:induction false} WhereSub(rows: Rows, cfg: RunConfig, xs: seq<Record>, keep: Option<Stages> -> bool)
    ensures forall y :: multiset(Where(rows, cfg, xs, keep))[y] <= multiset(xs)[y]
  {
    if xs != [] {
      WhereSub(rows, cfg, xs[1..], keep);
      assert xs == [xs[0]] + xs[1..];
      var head: seq<Record> := if keep(Lookup(rows, KeyOf(xs[0].id, cfg))) then [xs[0]] else [];
      assert multiset(Where(rows, cfg, xs, keep)) == multiset(head) + multiset(Where(rows, cfg, xs[1..], keep));
      assert multiset(xs) == multiset([xs[0]]) + multiset(xs[1..]);
    }
  }

  /** Selecting from a duplicate-free list gives a duplicate-free list. */
  lemma WhereDistinct(rows: Rows, cfg: RunConfig, xs: seq<Record>, keep: Option<Stages> -> bool)
    requires DistinctIds(xs)
    ensures DistinctIds(Where(rows, cfg, xs, keep))
  {
    WhereSub(rows, cfg, xs, keep);
    DistinctSub(xs, Where(rows, cfg, xs, keep));
  }

  /** When no row passes the test the selection is empty. */
  lemma WhereNone(rows: Rows, cfg: RunConfig, xs: seq<Record>, keep: Option<Stages> -> bool)
    requires forall x :: x in xs ==> !keep(Lookup(rows, KeyOf(x.id, cfg)))
    ensures Where(rows, cfg, xs, keep) == []
  {
    if Where(rows, cfg, xs, keep) != [] {
      var x := Where(rows, cfg, xs, keep)[0];
      WhereMembership(rows, cfg, xs, keep, x);
    }
  }

  /** Lists holding the same records write the same keys. */
  lemma KeysOfSameElements(xs: seq<Record>, ys: seq<Record>, cfg: RunConfig)
    requires multiset(xs) == multiset(ys)
    ensures KeysOf(xs, cfg) == KeysOf(ys, cfg)
  {
    forall x
      ensures x in xs <==> x in ys
    {
      assert x in xs <==> x in multiset(xs);
      assert x in ys <==> x in multiset(ys);
    }
  }
}
