/**
 * Answer-set metrics: answers are normalised to a set of stripped,
 * lower-cased strings and compared by exact match and by precision,
 * recall and F1. Ratios are exact rationals (`real`).
 */
module Metrics {
  import opened Json
  import opened Strs

  /** `str(ans).strip().lower()` for one answer. */
  function NormalizeOne(a: Json): string
  {
    Lower(Strip(Render(a)))
  }

  /** The set `normalize_answers` builds: every non-None answer, normalised. */
  function Normalized(answers: seq<Json>): (r: set<string>)
    ensures |r| <= |answers|
  {
    if answers == [] then {}
    else
      var rest := Normalized(answers[1..]);
      if answers[0].JNull? then rest else {NormalizeOne(answers[0])} + rest
  }

  /** A string is in the normalised set exactly when some non-None answer normalises to it. */
  lemma {:induction false} NormalizedMembership(answers: seq<Json>, s: string)
    ensures s in Normalized(answers) <==> exists a :: a in answers && !a.JNull? && NormalizeOne(a) == s
  {
    if answers != [] {
      var rest := answers[1..];
      NormalizedMembership(rest, s);
      if s in Normalized(answers) {
        if !answers[0].JNull? && s == NormalizeOne(answers[0]) {
          assert answers[0] in answers;
        } else {
          var a :| a in rest && !a.JNull? && NormalizeOne(a) == s;
          assert a in answers;
        }
      }
      if exists a :: a in answers && !a.JNull? && NormalizeOne(a) == s {
        var a :| a in answers && !a.JNull? && NormalizeOne(a) == s;
        if a != answers[0] {
          assert a in rest;
        }
      }
    }
  }

  /** A single non-None answer normalises to a one-element set. */
  lemma NormalizedSingle(a: Json)
    requires !a.JNull?
    ensures Normalized([a]) == {NormalizeOne(a)}
  {
  }

  /** `Metrics.normalize_answers`: the set-building loop. */
  method NormalizeAnswers(answers: seq<Json>) returns (normalized: set<string>)
    ensures normalized == Normalized(answers)
  {
    normalized := {};
    var i := 0;
    while i < |answers|
      invariant 0 <= i <= |answers|
      invariant normalized + Normalized(answers[i..]) == Normalized(answers)
    {
      assert answers[i..][1..] == answers[i + 1..];
      if !answers[i].JNull? {
        normalized := normalized + {NormalizeOne(answers[i])};
      }
      i := i + 1;
    }
  }

  /** A normalised answer is already normal: normalising it again changes nothing. */
  lemma NormalizeIdempotent(a: Json)
    ensures NormalizeOne(JStr(NormalizeOne(a))) == NormalizeOne(a)
  {
    var t := Strip(Render(a));
    var n := Lower(t);
    StripClean(Render(a));
    if n != [] {
      LowerCharKeepsSpace(t[0]);
      LowerCharKeepsSpace(t[|t| - 1]);
    }
    StripOfClean(n);
    LowerIdempotent(t);
  }

  /** Normalisation ignores letter case. */
  lemma NormalizeIgnoresCase(s: string)
    ensures NormalizeOne(JStr(Lower(s))) == NormalizeOne(JStr(s))
  {
    StripLower(s);
    LowerIdempotent(Strip(s));
  }

  /** `Metrics.exact_match`: 1.0 exactly when the two sets are equal, else 0.0. */
  function ExactMatch(gold: set<string>, pred: set<string>): (r: real)
    ensures r == 1.0 || r == 0.0
    ensures r == 1.0 <==> gold == pred
  {
    if gold == pred then 1.0 else 0.0
  }

  /** The intersection is no larger than either side. */
  lemma IntersectionSize(a: set<string>, b: set<string>)
    ensures |a * b| <= |a| && |a * b| <= |b|
    ensures |a * b| == |a| ==> a <= b
  {
    assert |a| == |a * b| + |a - b| by {
      assert a == (a * b) + (a - b);
      assert (a * b) * (a - b) == {};
    }
    assert |b| == |a * b| + |b - a| by {
      assert b == (a * b) + (b - a);
      assert (a * b) * (b - a) == {};
    }
    if |a * b| == |a| {
      assert a - b == {};
      forall x | x in a
        ensures x in b
      {
        assert x !in a - b;
      }
    }
  }

  /** A ratio of counts with numerator at most the denominator lies in [0, 1]. */
  lemma RatioBounds(n: nat, d: nat)
    requires 0 < d && n <= d
    ensures 0.0 <= n as real / d as real <= 1.0
  {
  }

  /** A quotient of a non-negative number by a larger positive one lies in [0, 1]. */
  lemma QuotientBounds(q: real, d: real)
    requires 0.0 <= q <= d && 0.0 < d
    ensures 0.0 <= q / d <= 1.0
  {
  }

  /** When `p` and `r` lie in [0, 1] and are not both 0, so does `2pr / (p + r)`. */
  lemma HarmonicBounds(p: real, r: real)
    requires 0.0 <= p <= 1.0 && 0.0 <= r <= 1.0 && p + r != 0.0
    ensures 0.0 <= 2.0 * p * r / (p + r) <= 1.0
  {
    ProductNonNegative(p, 1.0 - r);
    ProductNonNegative(1.0 - p, r);
    ProductNonNegative(p, r);
    assert p * (1.0 - r) == p - p * r;
    assert (1.0 - p) * r == r - p * r;
    assert 2.0 * p * r == 2.0 * (p * r);
    QuotientBounds(2.0 * p * r, p + r);
  }

  lemma ProductNonNegative(x: real, y: real)
    requires 0.0 <= x && 0.0 <= y
    ensures 0.0 <= x * y
  {
  }

  /** `Metrics.precision_recall_f1`: (precision, recall, F1) of `pred` against `gold`. */
  function PrecisionRecallF1(gold: set<string>, pred: set<string>): (r: (real, real, real))
    ensures 0.0 <= r.0 <= 1.0 && 0.0 <= r.1 <= 1.0 && 0.0 <= r.2 <= 1.0
    ensures pred == {} || gold == {} ==> r == (0.0, 0.0, 0.0)
    ensures pred != {} && gold != {} ==>
      r.0 == |gold * pred| as real / |pred| as real && r.1 == |gold * pred| as real / |gold| as real
    ensures r.0 + r.1 == 0.0 ==> r.2 == 0.0
    ensures r.0 + r.1 != 0.0 ==> r.2 == 2.0 * r.0 * r.1 / (r.0 + r.1)
  {
    if pred == {} then (0.0, 0.0, 0.0)
    else if gold == {} then (0.0, 0.0, 0.0)
    else
      var tp := |gold * pred|;
      IntersectionSize(gold, pred);
      RatioBounds(tp, |pred|);
      RatioBounds(tp, |gold|);
      var precision := tp as real / |pred| as real;
      var recall := tp as real / |gold| as real;
      if precision + recall == 0.0 then (precision, recall, 0.0)
      else
        HarmonicBounds(precision, recall);
        (precision, recall, 2.0 * precision * recall / (precision + recall))
  }

  /**
   * F1 is also `2 |gold ∩ pred| / (|gold| + |pred|)`, the Dice coefficient
   * of the two sets. This holds over exact reals; Python's float F1 can
   * differ from the Dice value in the last place.
   */
  lemma F1IsDice(gold: set<string>, pred: set<string>)
    requires gold != {} && pred != {}
    ensures PrecisionRecallF1(gold, pred).2 == 2.0 * |gold * pred| as real / (|gold| as real + |pred| as real)
  {
    var t := |gold * pred| as real;
    var g := |gold| as real;
    var q := |pred| as real;
    var p := t / q;
    var r := t / g;
    if t != 0.0 {
      assert p + r == t * (g + q) / (g * q);
      assert p * r == t * t / (g * q);
      assert 2.0 * p * r / (p + r) == 2.0 * t / (g + q);
    }
  }

  /** Precision, recall and F1 are all 1 exactly when the (non-empty) sets are equal. */
  lemma PerfectIffEqual(gold: set<string>, pred: set<string>)
    requires gold != {} && pred != {}
    ensures PrecisionRecallF1(gold, pred) == (1.0, 1.0, 1.0) <==> gold == pred
  {
    var t := |gold * pred|;
    IntersectionSize(gold, pred);
    IntersectionSize(pred, gold);
    assert pred * gold == gold * pred;
    if gold == pred {
      assert gold * pred == gold;
    }
    if PrecisionRecallF1(gold, pred) == (1.0, 1.0, 1.0) {
      assert t as real / |pred| as real == 1.0;
      assert t == |pred|;
      assert t as real / |gold| as real == 1.0;
      assert t == |gold|;
    }
  }

  /** Disjoint non-empty sets score 0 on every measure. */
  lemma DisjointScoresZero(gold: set<string>, pred: set<string>)
    requires gold * pred == {}
    ensures PrecisionRecallF1(gold, pred) == (0.0, 0.0, 0.0)
  {
  }

  /** Two of three gold answers predicted, nothing else: precision 1, recall 2/3, F1 4/5. */
  lemma PartialMatchExample(a: string, b: string, c: string)
    requires a != b && b != c && a != c
    ensures ExactMatch({a, b, c}, {a, b}) == 0.0
    ensures PrecisionRecallF1({a, b, c}, {a, b}) == (1.0, 2.0 / 3.0, 4.0 / 5.0)
  {
    var gold := {a, b, c};
    var pred := {a, b};
    assert gold * pred == pred;
    assert |pred| == 2;
    assert |gold| == 3;
    assert c in gold && c !in pred;
    F1IsDice(gold, pred);
  }

  /** `Metrics.accuracy`: `correct / total`, or 0 when there is nothing to divide by. */
  function Accuracy(correct: int, total: int): (r: real)
    ensures total > 0 ==> r * total as real == correct as real
    ensures total <= 0 ==> r == 0.0
    ensures 0 <= correct <= total ==> 0.0 <= r <= 1.0
  {
    if total > 0 then correct as real / total as real else 0.0
  }

  /** `Metrics.string_match`: equality after `strip().lower()`. */
  predicate StringMatch(pred: string, target: string)
  {
    Lower(Strip(pred)) == Lower(Strip(target))
  }

  /** `string_match` ignores letter case and surrounding whitespace, and is an equivalence. */
  lemma StringMatchLaws(a: string, b: string, c: string)
    ensures StringMatch(a, a)
    ensures StringMatch(a, b) ==> StringMatch(b, a)
    ensures StringMatch(a, b) && StringMatch(b, c) ==> StringMatch(a, c)
    ensures StringMatch(Strip(a), a)
  {
    StripIdempotent(a);
  }
}
