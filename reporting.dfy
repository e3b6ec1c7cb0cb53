/**
 * `Reporting` (src/nl2graph/analysis/reporting.py): the summary
 * statistics of (record, result) pairs, the same statistics per value of
 * chosen record fields, and the error analysis of the results.
 *
 * The counting rules shared with the older report
 * (src/nl2graph/analytics/report.py) are stated once, over the
 * execution and evaluation outputs a pair carries (`Outcome`).
 */
module Reporting {
  import opened Wrappers
  import opened Json
  import opened Strs
  import opened OrderedMaps
  import opened Groups
  import DataEntity
  import Analysis
  import Metrics

  /** The two stage outputs the accuracy statistics read. */
  datatype Outcome = Outcome(exec: Option<DataEntity.ExecutionResult>, eval: Option<DataEntity.EvaluationResult>)

  /** `not result.exec or not result.exec.success`: counted as an error and skipped. */
  predicate IsError(o: Outcome)
  {
    o.exec.None? || !o.exec.value.success
  }

  /** A successful execution with an evaluation: its metrics enter the sums. */
  predicate IsScored(o: Outcome)
  {
    !IsError(o) && o.eval.Some?
  }

  /** A scored outcome whose exact match is 1.0. */
  predicate IsCorrect(o: Outcome)
  {
    IsScored(o) && o.eval.value.exactMatch == Some(1.0)
  }

  /** The number of errors among `xs`. */
  function ErrorCount<T>(xs: seq<T>, view: T -> Outcome): (n: nat)
    ensures n <= |xs|
    decreases |xs|
  {
    if xs == [] then 0
    else ErrorCount(xs[..|xs| - 1], view) + if IsError(view(xs[|xs| - 1])) then 1 else 0
  }

  /** The number of scored outcomes among `xs`; none of them is an error. */
  function ScoredCount<T>(xs: seq<T>, view: T -> Outcome): (n: nat)
    ensures n + ErrorCount(xs, view) <= |xs|
    decreases |xs|
  {
    if xs == [] then 0
    else ScoredCount(xs[..|xs| - 1], view) + if IsScored(view(xs[|xs| - 1])) then 1 else 0
  }

  /** The number of correct outcomes among `xs`; each is scored. */
  function CorrectCount<T>(xs: seq<T>, view: T -> Outcome): (n: nat)
    ensures n <= ScoredCount(xs, view)
    decreases |xs|
  {
    if xs == [] then 0
    else CorrectCount(xs[..|xs| - 1], view) + if IsCorrect(view(xs[|xs| - 1])) then 1 else 0
  }

  /** `x or 0.0`. */
  function OrZero(x: Option<real>): real
  {
    if x.Some? then x.value else 0.0
  }

  /** Every scored outcome's `metric` lies in [0, 1] when present. */
  predicate UnitScores<T>(xs: seq<T>, view: T -> Outcome, metric: DataEntity.EvaluationResult -> Option<real>)
  {
    forall i :: 0 <= i < |xs| && IsScored(view(xs[i])) ==> 0.0 <= OrZero(metric(view(xs[i]).eval.value)) <= 1.0
  }

  /** The sum of `metric` over the scored outcomes, None counting as 0. */
  function Sum<T>(xs: seq<T>, view: T -> Outcome, metric: DataEntity.EvaluationResult -> Option<real>): (s: real)
    ensures UnitScores(xs, view, metric) ==> 0.0 <= s <= ScoredCount(xs, view) as real
    decreases |xs|
  {
    if xs == [] then 0.0
    else
      var n := |xs| - 1;
      var o := view(xs[n]);
      assert UnitScores(xs, view, metric) ==> UnitScores(xs[..n], view, metric) by {
        assert forall i :: 0 <= i < n ==> xs[..n][i] == xs[i];
      }
      Sum(xs[..n], view, metric) + if IsScored(o) then OrZero(metric(o.eval.value)) else 0.0
  }

  function F1(e: DataEntity.EvaluationResult): Option<real> { e.f1 }
  function Precision(e: DataEntity.EvaluationResult): Option<real> { e.precision }
  function Recall(e: DataEntity.EvaluationResult): Option<real> { e.recall }

  /** `x / n if n > 0 else 0.0`. */
  function Ratio(x: real, n: int): (r: real)
    ensures n > 0 ==> r == x / n as real
    ensures n <= 0 ==> r == 0.0
    ensures n > 0 && 0.0 <= x <= n as real ==> 0.0 <= r <= 1.0
  {
    if n > 0 then
      assert 0.0 <= x <= n as real ==> 0.0 <= x / n as real <= 1.0 by {
        if 0.0 <= x <= n as real {
          Metrics.QuotientBounds(x, n as real);
        }
      }
      x / n as real
    else 0.0
  }

  /** A pair of the report: a source record and its stored result. */
  type Pair = (DataEntity.Record, DataEntity.Result)

  function PairOutcome(p: Pair): Outcome
  {
    Outcome(p.1.exec, p.1.eval)
  }

  /** `result.gen and result.gen.stats`: a generation with a non-empty statistics dict. */
  predicate HasStats(r: DataEntity.Result)
  {
    r.gen.Some? && r.gen.value.stats.Some? && r.gen.value.stats.value != map[]
  }

  /**
   * Why `generate` raises instead of returning a report: a `+=` of a
   * statistic that is not a number (`AddTypeError`), a token total with a
   * fractional part for an `int` field of `GroupStats` (`IntValidation`,
   * naming the field), or a list or dict field value used as a key of
   * `grouped` (`Unhashable`, naming its type).
   */
  datatype ReportError = AddTypeError | IntValidation(field: string) | Unhashable(typeName: string)

  /** `stats.get(key, 0)` can be added to a number: it is absent or a number, a bool counting as 0 or 1. */
  predicate Addable(d: Dict, key: string)
  {
    key !in d || Num(d[key]).Some?
  }

  /** `stats.get(key, 0)` as a number; only addable entries reach the statistics. */
  function Stat(d: Dict, key: string): real
  {
    if key in d && Num(d[key]).Some? then Num(d[key]).value else 0.0
  }

  /** The keys of the token statistics. */
  const InputTokens := "input_tokens"
  const OutputTokens := "output_tokens"
  const CachedTokens := "cached_tokens"

  /** Every addition of the loop succeeds: the duration and the token counts, when present, are numbers. */
  predicate NumericStats(r: DataEntity.Result)
  {
    HasStats(r) ==>
      var d := r.gen.value.stats.value;
      Addable(d, "duration") && Addable(d, InputTokens) && Addable(d, OutputTokens) && Addable(d, CachedTokens)
  }

  predicate AllNumeric(pairs: seq<Pair>)
  {
    forall p :: p in pairs ==> NumericStats(p.1)
  }

  /** The number of results with statistics. */
  function GenCount(pairs: seq<Pair>): (n: nat)
    ensures n <= |pairs|
    decreases |pairs|
  {
    if pairs == [] then 0
    else GenCount(pairs[..|pairs| - 1]) + if HasStats(pairs[|pairs| - 1].1) then 1 else 0
  }

  /** The total duration over the results with statistics. */
  function TotalDuration(pairs: seq<Pair>): real
    decreases |pairs|
  {
    if pairs == [] then 0.0
    else
      var r := pairs[|pairs| - 1].1;
      TotalDuration(pairs[..|pairs| - 1]) + if HasStats(r) then Stat(r.gen.value.stats.value, "duration") else 0.0
  }

  /** The total of one token count over the results with statistics; a float count makes it a float. */
  function TotalTokens(pairs: seq<Pair>, key: string): real
    decreases |pairs|
  {
    if pairs == [] then 0.0
    else
      var r := pairs[|pairs| - 1].1;
      TotalTokens(pairs[..|pairs| - 1], key) + if HasStats(r) then Stat(r.gen.value.stats.value, key) else 0.0
  }

  /** A number an `int` field accepts: one without a fractional part. */
  predicate Integral(x: real)
  {
    x.Floor as real == x
  }

  /** The three token totals fit the `int` fields of `GroupStats`. */
  predicate WholeTokens(pairs: seq<Pair>)
  {
    Integral(TotalTokens(pairs, InputTokens)) && Integral(TotalTokens(pairs, OutputTokens))
    && Integral(TotalTokens(pairs, CachedTokens))
  }

  /** `GroupStats`. */
  datatype GroupStats = GroupStats(
    count: nat, errorCount: nat, accuracy: real, avgF1: real, avgPrecision: real, avgRecall: real,
    totalDuration: real, avgDuration: real,
    totalInputTokens: int, totalOutputTokens: int, totalCachedTokens: int,
    avgInputTokens: real, avgOutputTokens: real, avgCachedTokens: real)

  /** `GroupStats()`: every field 0. */
  const ZeroStats := GroupStats(0, 0, 0.0, 0.0, 0.0, 0.0, 0.0, 0.0, 0, 0, 0, 0.0, 0.0, 0.0)

  /**
   * The `GroupStats` of the pairs once the loop has finished: accuracy and
   * averages over the non-error pairs, token and duration averages over
   * the pairs with statistics.
   */
  function Summary(pairs: seq<Pair>): (g: GroupStats)
    ensures g.count == |pairs| && g.errorCount == ErrorCount(pairs, PairOutcome)
  {
    Assembled(|pairs|, ErrorCount(pairs, PairOutcome), CorrectCount(pairs, PairOutcome),
              Sum(pairs, PairOutcome, F1), Sum(pairs, PairOutcome, Precision), Sum(pairs, PairOutcome, Recall),
              TotalDuration(pairs), TotalTokens(pairs, InputTokens), TotalTokens(pairs, OutputTokens),
              TotalTokens(pairs, CachedTokens), GenCount(pairs))
  }

  /** The `GroupStats` built from the loop's counters and sums; a whole token total becomes an `int`. */
  function Assembled(total: nat, errors: nat, correct: nat, f1: real, precision: real, recall: real,
                     duration: real, input: real, output: real, cached: real, gens: nat): GroupStats
  {
    var valid := total - errors;
    GroupStats(
      total, errors, Ratio(correct as real, valid),
      Ratio(f1, valid), Ratio(precision, valid), Ratio(recall, valid),
      duration, Ratio(duration, gens),
      input.Floor, output.Floor, cached.Floor,
      Ratio(input, gens), Ratio(output, gens), Ratio(cached, gens))
  }

  /**
   * What `_compute_stats` returns or raises: the `TypeError` of the first
   * statistic that is not a number, else the validation error of the first
   * fractional token total, else the statistics.
   */
  function StatsOf(pairs: seq<Pair>): (r: Result<GroupStats, ReportError>)
    ensures r.Ok? ==> AllNumeric(pairs) && WholeTokens(pairs) && r.value.count == |pairs|
    ensures r.Ok? ==> r.value.totalInputTokens as real == TotalTokens(pairs, InputTokens)
    ensures r.Ok? ==> r.value.totalOutputTokens as real == TotalTokens(pairs, OutputTokens)
    ensures r.Ok? ==> r.value.totalCachedTokens as real == TotalTokens(pairs, CachedTokens)
  {
    if !AllNumeric(pairs) then Err(AddTypeError)
    else if !Integral(TotalTokens(pairs, InputTokens)) then Err(IntValidation("total_input_tokens"))
    else if !Integral(TotalTokens(pairs, OutputTokens)) then Err(IntValidation("total_output_tokens"))
    else if !Integral(TotalTokens(pairs, CachedTokens)) then Err(IntValidation("total_cached_tokens"))
    else Ok(Summary(pairs))
  }

  /** `stats.get(key, 0)` is an integer: absent, an `int` or a bool. */
  predicate IntegerStat(d: Dict, key: string)
  {
    key !in d || d[key].JInt? || d[key].JBool?
  }

  /** Every token count of the pairs with statistics is an integer. */
  predicate IntegerTokens(pairs: seq<Pair>)
  {
    forall p :: p in pairs && HasStats(p.1) ==>
      var d := p.1.gen.value.stats.value;
      IntegerStat(d, InputTokens) && IntegerStat(d, OutputTokens) && IntegerStat(d, CachedTokens)
  }

  /** Integer token counts add up to a whole total. */
  lemma {:induction false} IntegerTotal(pairs: seq<Pair>, key: string)
    requires forall p :: p in pairs && HasStats(p.1) ==> IntegerStat(p.1.gen.value.stats.value, key)
    ensures Integral(TotalTokens(pairs, key))
    decreases |pairs|
  {
    if pairs != [] {
      var n := |pairs| - 1;
      var r := pairs[n].1;
      IntegerTotal(pairs[..n], key);
      var m := TotalTokens(pairs[..n], key).Floor;
      var c := if HasStats(r) && key in r.gen.value.stats.value then
          match r.gen.value.stats.value[key] case JInt(i) => i case JBool(b) => (if b then 1 else 0) case _ => 0
        else 0;
      assert (if HasStats(r) then Stat(r.gen.value.stats.value, key) else 0.0) == c as real;
      assert TotalTokens(pairs, key) == (m + c) as real;
    }
  }

  /** Numeric statistics with integer token counts always give statistics, never an error. */
  lemma IntegerTokensAccepted(pairs: seq<Pair>)
    requires AllNumeric(pairs) && IntegerTokens(pairs)
    ensures StatsOf(pairs) == Ok(Summary(pairs))
  {
    IntegerTotal(pairs, InputTokens);
    IntegerTotal(pairs, OutputTokens);
    IntegerTotal(pairs, CachedTokens);
  }

  /** A statistic that is not a number raises the `TypeError`; numeric ones with a fractional input total fail validation. */
  lemma StatsErrors(pairs: seq<Pair>, i: nat)
    requires i < |pairs|
    ensures !NumericStats(pairs[i].1) ==> StatsOf(pairs) == Err(AddTypeError)
    ensures AllNumeric(pairs) && !Integral(TotalTokens(pairs, InputTokens)) ==>
      StatsOf(pairs) == Err(IntValidation("total_input_tokens"))
  {
    assert pairs[i] in pairs;
  }

  /** The number of non-error pairs, the denominator of accuracy and the metric averages. */
  function ValidCount(pairs: seq<Pair>): (n: nat)
    ensures CorrectCount(pairs, PairOutcome) <= ScoredCount(pairs, PairOutcome) <= n
  {
    |pairs| - ErrorCount(pairs, PairOutcome)
  }

  /** Accuracy is the share of correct pairs among the valid ones, 0 when none is valid. */
  lemma AccuracyBounds(pairs: seq<Pair>)
    ensures 0.0 <= Summary(pairs).accuracy <= 1.0
    ensures ValidCount(pairs) > 0 ==> Summary(pairs).accuracy == CorrectCount(pairs, PairOutcome) as real / ValidCount(pairs) as real
    ensures ValidCount(pairs) == 0 ==> Summary(pairs).accuracy == 0.0
  {
    var valid := ValidCount(pairs);
    var correct := CorrectCount(pairs, PairOutcome);
    assert valid == |pairs| - ErrorCount(pairs, PairOutcome);
    assert Summary(pairs).accuracy == Ratio(correct as real, valid);
    assert correct as real <= valid as real;
  }

  /** Each metric average lies in [0, 1] when the metrics do, and is 0 when no pair is valid. */
  lemma AverageBounds(pairs: seq<Pair>)
    ensures UnitScores(pairs, PairOutcome, F1) ==> 0.0 <= Summary(pairs).avgF1 <= 1.0
    ensures UnitScores(pairs, PairOutcome, Precision) ==> 0.0 <= Summary(pairs).avgPrecision <= 1.0
    ensures UnitScores(pairs, PairOutcome, Recall) ==> 0.0 <= Summary(pairs).avgRecall <= 1.0
    ensures ValidCount(pairs) == 0 ==> Summary(pairs).avgF1 == 0.0 && Summary(pairs).avgPrecision == 0.0 && Summary(pairs).avgRecall == 0.0
  {
    assert ValidCount(pairs) == |pairs| - ErrorCount(pairs, PairOutcome);
  }

  /** The generation averages divide the totals by the number of pairs with statistics, 0 when there is none. */
  lemma GenerationAverages(pairs: seq<Pair>)
    ensures GenCount(pairs) > 0 ==> Summary(pairs).avgDuration == TotalDuration(pairs) / GenCount(pairs) as real
    ensures GenCount(pairs) > 0 ==>
      Summary(pairs).avgInputTokens == TotalTokens(pairs, InputTokens) / GenCount(pairs) as real
    ensures GenCount(pairs) == 0 ==>
      && Summary(pairs).avgDuration == 0.0 && Summary(pairs).avgInputTokens == 0.0
      && Summary(pairs).avgOutputTokens == 0.0 && Summary(pairs).avgCachedTokens == 0.0
  {
  }

  /** No pairs: everything 0. */
  lemma EmptyStats()
    ensures StatsOf([]) == Ok(ZeroStats)
  {
    assert Integral(0.0);
  }

  /** The counters and sums of the `_compute_stats` loop, other than the pair count. */
  datatype Tally = Tally(
    errors: nat, correct: nat, f1: real, precision: real, recall: real,
    duration: real, input: real, output: real, cached: real, gens: nat)

  const NoTally := Tally(0, 0, 0.0, 0.0, 0.0, 0.0, 0.0, 0.0, 0.0, 0)

  /** One iteration: the generation statistics when present, then the error count or the metrics. */
  function TallyStep(t: Tally, p: Pair): Tally
  {
    var r := p.1;
    var t1 := if HasStats(r) then
        var d := r.gen.value.stats.value;
        t.(duration := t.duration + Stat(d, "duration"), input := t.input + Stat(d, InputTokens),
           output := t.output + Stat(d, OutputTokens), cached := t.cached + Stat(d, CachedTokens),
           gens := t.gens + 1)
      else t;
    var o := PairOutcome(p);
    if IsError(o) then t1.(errors := t1.errors + 1)
    else if o.eval.None? then t1
    else
      var v := o.eval.value;
      t1.(correct := if v.exactMatch == Some(1.0) then t1.correct + 1 else t1.correct,
          f1 := t1.f1 + OrZero(v.f1), precision := t1.precision + OrZero(v.precision),
          recall := t1.recall + OrZero(v.recall))
  }

  /** The counters and sums after the loop has visited `pairs`. */
  function TallyOf(pairs: seq<Pair>): Tally
    decreases |pairs|
  {
    if pairs == [] then NoTally else TallyStep(TallyOf(pairs[..|pairs| - 1]), pairs[|pairs| - 1])
  }

  /** The single pass counts the errors and correct pairs and sums the metrics as their own definitions do. */
  lemma {:induction false} TallyOutcomes(pairs: seq<Pair>)
    ensures TallyOf(pairs).errors == ErrorCount(pairs, PairOutcome)
    ensures TallyOf(pairs).correct == CorrectCount(pairs, PairOutcome)
    ensures TallyOf(pairs).f1 == Sum(pairs, PairOutcome, F1)
    ensures TallyOf(pairs).precision == Sum(pairs, PairOutcome, Precision)
    ensures TallyOf(pairs).recall == Sum(pairs, PairOutcome, Recall)
    decreases |pairs|
  {
    if pairs != [] {
      TallyOutcomes(pairs[..|pairs| - 1]);
    }
  }

  /** The single pass totals the generation statistics as their own definitions do. */
  lemma {:induction false} TallyGenerations(pairs: seq<Pair>)
    ensures TallyOf(pairs).duration == TotalDuration(pairs)
    ensures TallyOf(pairs).input == TotalTokens(pairs, InputTokens)
    ensures TallyOf(pairs).output == TotalTokens(pairs, OutputTokens)
    ensures TallyOf(pairs).cached == TotalTokens(pairs, CachedTokens)
    ensures TallyOf(pairs).gens == GenCount(pairs)
    decreases |pairs|
  {
    if pairs != [] {
      TallyGenerations(pairs[..|pairs| - 1]);
    }
  }

  /** One iteration of the `_compute_stats` loop: None for the `TypeError` of a statistic that is not a number. */
  method TallyPair(t: Tally, p: Pair) returns (u: Option<Tally>)
    ensures u.Some? <==> NumericStats(p.1)
    ensures u.Some? ==> u.value == TallyStep(t, p)
  {
    var result := p.1;
    var next := t;
    if HasStats(result) {
      var stats := result.gen.value.stats.value;
      if !(Addable(stats, "duration") && Addable(stats, InputTokens) && Addable(stats, OutputTokens) && Addable(stats, CachedTokens)) {
        return None;
      }
      next := next.(duration := next.duration + Stat(stats, "duration"), input := next.input + Stat(stats, InputTokens),
                    output := next.output + Stat(stats, OutputTokens), cached := next.cached + Stat(stats, CachedTokens),
                    gens := next.gens + 1);
    }
    if result.exec.None? || !result.exec.value.success {
      next := next.(errors := next.errors + 1);
    } else if result.eval.Some? {
      var v := result.eval.value;
      if v.exactMatch == Some(1.0) {
        next := next.(correct := next.correct + 1);
      }
      next := next.(f1 := next.f1 + OrZero(v.f1), precision := next.precision + OrZero(v.precision),
                    recall := next.recall + OrZero(v.recall));
    }
    u := Some(next);
  }

  /** After the loop: `GroupStats` validates the token totals, then the counters and sums are assembled. */
  method CheckedStats(pairs: seq<Pair>, total: nat, t: Tally) returns (r: Result<GroupStats, ReportError>)
    requires AllNumeric(pairs) && total == |pairs| && t == TallyOf(pairs)
    ensures r == StatsOf(pairs)
  {
    TallyOutcomes(pairs);
    TallyGenerations(pairs);
    if !Integral(t.input) {
      return Err(IntValidation("total_input_tokens"));
    }
    if !Integral(t.output) {
      return Err(IntValidation("total_output_tokens"));
    }
    if !Integral(t.cached) {
      return Err(IntValidation("total_cached_tokens"));
    }
    r := Ok(Assembled(total, t.errors, t.correct, t.f1, t.precision, t.recall,
                      t.duration, t.input, t.output, t.cached, t.gens));
  }

  /**
   * `_compute_stats`: one pass over the pairs, accumulating counters and
   * sums, then the validation of the token totals by `GroupStats`.
   */
  method ComputeStats(pairs: seq<Pair>) returns (r: Result<GroupStats, ReportError>)
    ensures r == StatsOf(pairs)
  {
    var total := 0;
    var tally := NoTally;
    var i := 0;
    while i < |pairs|
      invariant 0 <= i <= |pairs| && total == i
      invariant AllNumeric(pairs[..i])
      invariant tally == TallyOf(pairs[..i])
    {
      assert pairs[..i + 1] == pairs[..i] + [pairs[i]];
      assert pairs[..i + 1][..i] == pairs[..i];
      total := total + 1;
      var next := TallyPair(tally, pairs[i]);
      if next.None? {
        assert pairs[i] in pairs;
        return Err(AddTypeError);
      }
      tally := next.value;
      i := i + 1;
    }
    assert pairs[..|pairs|] == pairs;
    r := CheckedStats(pairs, total, tally);
  }

  /** The value a pair is grouped under: `record.get_field(field)`, None when absent. */
  function FieldOf(p: Pair, field: string): Json
  {
    DataEntity.GetField(p.0, field, JNull)
  }

  /**
   * What a key of `grouped` is up to: values equal under Python's `==`
   * hash alike, so `1`, `1.0` and `True` are one key.
   */
  datatype HashKey = NullKey | NumberKey(x: real) | TextKey(s: string)

  /** The key `grouped[value]` looks up; None for a list or a dict, which cannot be hashed. */
  function HashOf(v: Json): (k: Option<HashKey>)
    ensures k.None? <==> v.JArr? || v.JObj?
    ensures k == Some(NullKey) <==> v.JNull?
  {
    match v
    case JNull => Some(NullKey)
    case JStr(s) => Some(TextKey(s))
    case JArr(_) => None
    case JObj(_) => None
    case _ => Some(NumberKey(Num(v).value))
  }

  /** Two hashable values are the same key of `grouped` exactly when they are `==` in Python. */
  lemma HashOfPyEq(a: Json, b: Json)
    requires HashOf(a).Some? && HashOf(b).Some?
    ensures HashOf(a) == HashOf(b) <==> PyEq(a, b)
  {
  }

  /** `type(v).__name__`. */
  function TypeName(v: Json): string
  {
    match v
    case JNull => "NoneType"
    case JBool(_) => "bool"
    case JInt(_) => "int"
    case JReal(_) => "float"
    case JStr(_) => "str"
    case JArr(_) => "list"
    case JObj(_) => "dict"
  }

  /** When every pair has the key `k`, they are all members of `k` and no other key has members. */
  lemma {:induction false} MembersOfOneKey(pairs: seq<Pair>, field: string, k: HashKey, k': HashKey)
    requires forall i :: 0 <= i < |pairs| ==> HashOf(FieldOf(pairs[i], field)) == Some(k)
    ensures Members(pairs, field, k) == pairs
    ensures k' != k ==> Members(pairs, field, k') == []
    decreases |pairs|
  {
    if pairs != [] {
      var n := |pairs| - 1;
      var init := pairs[..n];
      assert pairs == init + [pairs[n]];
      forall i | 0 <= i < n
        ensures HashOf(FieldOf(init[i], field)) == Some(k)
      {
        assert init[i] == pairs[i];
      }
      MembersOfOneKey(init, field, k, k');
      assert HashOf(FieldOf(pairs[n], field)) == Some(k);
      assert Members(pairs, field, k) == init + [pairs[n]];
    }
  }

  /** Pairs whose values are `1`, `1.0` and `True` form one group, whose key object is the first of them, `1`. */
  lemma EqualValuesShareAGroup(a: Pair, b: Pair, c: Pair, field: string)
    requires FieldOf(a, field) == JInt(1) && FieldOf(b, field) == JReal(1.0) && FieldOf(c, field) == JBool(true)
    ensures Grouped([a, b, c], field).Ok?
    ensures Grouped([a, b, c], field).value.values.Keys == {NumberKey(1.0)}
    ensures Grouped([a, b, c], field).value.values[NumberKey(1.0)] == [a, b, c]
    ensures Representative([a, b, c], field, NumberKey(1.0)) == JInt(1)
  {
    var ps := [a, b, c];
    var k := NumberKey(1.0);
    MembersOfOneKey(ps, field, k, k);
    forall k' | k' in Grouped(ps, field).value.values
      ensures k' == k
    {
      MembersOfOneKey(ps, field, k, k');
    }
  }

  /** Grouping on `answer`, a list, raises. */
  lemma ListValueRaises(result: DataEntity.Result)
    ensures Grouped([(DataEntity.Record("a", "", [], map[]), result)], "answer") == Err(Unhashable("list"))
  {
    GroupedFirstError([(DataEntity.Record("a", "", [], map[]), result)], "answer", 0);
  }

  /** Every field value of the pairs can be hashed. */
  predicate AllHashable(pairs: seq<Pair>, field: string)
  {
    forall p :: p in pairs ==> HashOf(FieldOf(p, field)).Some?
  }

  /** The pairs whose field value is the key `k`, in order. */
  function Members(pairs: seq<Pair>, field: string, k: HashKey): (ms: seq<Pair>)
    ensures forall p :: p in ms ==> p in pairs && HashOf(FieldOf(p, field)) == Some(k)
    ensures |ms| <= |pairs|
    decreases |pairs|
  {
    if pairs == [] then []
    else
      var p := pairs[|pairs| - 1];
      Members(pairs[..|pairs| - 1], field, k) + if HashOf(FieldOf(p, field)) == Some(k) then [p] else []
  }

  /**
   * The `grouped` dictionary after the first loop of `_compute_by_field`,
   * or the `TypeError` of the first unhashable value: one group per key
   * other than None, in order of first appearance, holding the pairs with
   * that key in order.
   */
  function Grouped(pairs: seq<Pair>, field: string): (g: Result<OrderedMap<HashKey, seq<Pair>>, ReportError>)
    ensures g.Ok? <==> AllHashable(pairs, field)
    ensures g.Ok? ==> Valid(g.value)
    ensures g.Ok? ==> forall k :: k in g.value.values <==> k != NullKey && Members(pairs, field, k) != []
    ensures g.Ok? ==> forall k :: k in g.value.values ==> g.value.values[k] == Members(pairs, field, k)
    decreases |pairs|
  {
    if pairs == [] then Ok(Empty())
    else
      var n := |pairs| - 1;
      var v := FieldOf(pairs[n], field);
      assert pairs == pairs[..n] + [pairs[n]];
      match Grouped(pairs[..n], field)
      case Err(e) => Err(e)
      case Ok(g) =>
        match HashOf(v)
        case None => Err(Unhashable(TypeName(v)))
        case Some(k) =>
          if k == NullKey then Ok(g)
          else Ok(Put(g, k, (if k in g.values then g.values[k] else []) + [pairs[n]]))
  }

  /** The first unhashable value decides the error. */
  lemma {:induction false} GroupedFirstError(pairs: seq<Pair>, field: string, i: nat)
    requires i < |pairs| && HashOf(FieldOf(pairs[i], field)).None?
    requires forall j :: 0 <= j < i ==> HashOf(FieldOf(pairs[j], field)).Some?
    ensures Grouped(pairs, field) == Err(Unhashable(TypeName(FieldOf(pairs[i], field))))
    decreases |pairs|
  {
    var n := |pairs| - 1;
    var init := pairs[..n];
    if i < n {
      assert init[i] == pairs[i];
      forall j | 0 <= j < i
        ensures HashOf(FieldOf(init[j], field)).Some?
      {
        assert init[j] == pairs[j];
      }
      GroupedFirstError(init, field, i);
    } else {
      forall p | p in init
        ensures HashOf(FieldOf(p, field)).Some?
      {
        var j :| 0 <= j < n && init[j] == p;
        assert init[j] == pairs[j];
      }
    }
  }

  /** The key object `grouped` keeps for `k`: the value of the pair that created the group. */
  function Representative(pairs: seq<Pair>, field: string, k: HashKey): Json
  {
    var ms := Members(pairs, field, k);
    if ms == [] then JNull else FieldOf(ms[0], field)
  }

  /** `str` of a group's key object. */
  function KeyName(pairs: seq<Pair>, field: string): HashKey -> string
  {
    k => Render(Representative(pairs, field, k))
  }

  /** The key object of a group has the group's key, so it is `==` to the value of every member. */
  lemma RepresentativeEq(pairs: seq<Pair>, field: string, k: HashKey, p: Pair)
    requires p in Members(pairs, field, k)
    ensures HashOf(Representative(pairs, field, k)) == Some(k)
    ensures PyEq(Representative(pairs, field, k), FieldOf(p, field))
  {
    var ms := Members(pairs, field, k);
    assert ms[0] in ms;
    HashOfPyEq(Representative(pairs, field, k), FieldOf(p, field));
  }

  /** What `_compute_by_field` returns or raises. */
  function ByField(pairs: seq<Pair>, field: string): Result<OrderedMap<string, GroupStats>, ReportError>
  {
    match Grouped(pairs, field)
    case Err(e) => Err(e)
    case Ok(g) => Collect(SortBy(Items(g, KeyName(pairs, field)), ItemKey), StatsOf)
  }

  /** A property holds of every group exactly when it holds of the members of every key other than None. */
  lemma EveryGroup(pairs: seq<Pair>, field: string, g: OrderedMap<HashKey, seq<Pair>>, ok: seq<Pair> -> bool)
    requires forall k :: k in g.values <==> k != NullKey && Members(pairs, field, k) != []
    requires forall k :: k in g.values ==> g.values[k] == Members(pairs, field, k)
    ensures (forall k :: k in g.values ==> ok(g.values[k])) <==>
      forall k :: k != NullKey && Members(pairs, field, k) != [] ==> ok(Members(pairs, field, k))
  {
    if forall k :: k in g.values ==> ok(g.values[k]) {
      forall k | k != NullKey && Members(pairs, field, k) != []
        ensures ok(Members(pairs, field, k))
      {
        assert k in g.values && g.values[k] == Members(pairs, field, k);
      }
    } else {
      var k :| k in g.values && !ok(g.values[k]);
      assert g.values[k] == Members(pairs, field, k);
    }
  }

  /** `_compute_by_field` raises exactly when a value is unhashable or some group's statistics raise. */
  lemma ByFieldOk(pairs: seq<Pair>, field: string)
    ensures ByField(pairs, field).Ok? <==>
      AllHashable(pairs, field)
      && forall k :: k != NullKey && Members(pairs, field, k) != [] ==> StatsOf(Members(pairs, field, k)).Ok?
  {
    if AllHashable(pairs, field) {
      var g := Grouped(pairs, field).value;
      SortedCollectOk(g, KeyName(pairs, field), StatsOf);
      EveryGroup(pairs, field, g, ms => StatsOf(ms).Ok?);
    }
  }

  /** Hashable values with numeric statistics and integer token counts never make `_compute_by_field` raise. */
  lemma ByFieldAccepted(pairs: seq<Pair>, field: string)
    requires AllHashable(pairs, field) && AllNumeric(pairs) && IntegerTokens(pairs)
    ensures ByField(pairs, field).Ok?
  {
    forall k | k != NullKey && Members(pairs, field, k) != []
      ensures StatsOf(Members(pairs, field, k)).Ok?
    {
      IntegerTokensAccepted(Members(pairs, field, k));
    }
    ByFieldOk(pairs, field);
  }

  /** Every sorted group is the members of one key, and its statistics are their summary. */
  lemma SortedGroupsSummary(pairs: seq<Pair>, field: string)
    requires ByField(pairs, field).Ok?
    ensures var sorted := SortBy(Items(Grouped(pairs, field).value, KeyName(pairs, field)), ItemKey);
      ByField(pairs, field) == Ok(Outputs(sorted, Summary))
  {
    var g := Grouped(pairs, field).value;
    var name := KeyName(pairs, field);
    var sorted := SortBy(Items(g, name), ItemKey);
    forall i | 0 <= i < |sorted|
      ensures StatsOf(sorted[i].1) == Ok(Summary(sorted[i].1))
    {
      SortedItemValue(g, name, i);
    }
    CollectOk(sorted, StatsOf, Summary);
  }

  /** The key order of `_compute_by_field`: sorted, each key once. */
  lemma ByFieldSorted(pairs: seq<Pair>, field: string)
    requires ByField(pairs, field).Ok?
    ensures StrictlySorted(ByField(pairs, field).value.keys)
  {
    SortedGroupsSummary(pairs, field);
    OutputsSorted(SortBy(Items(Grouped(pairs, field).value, KeyName(pairs, field)), ItemKey), Summary);
  }

  /** The keys of `_compute_by_field` are `str` of the key objects of the groups. */
  lemma ByFieldKeys(pairs: seq<Pair>, field: string, s: string)
    requires ByField(pairs, field).Ok?
    ensures s in ByField(pairs, field).value.values <==>
      exists k :: k != NullKey && Members(pairs, field, k) != [] && Render(Representative(pairs, field, k)) == s
  {
    var g := Grouped(pairs, field).value;
    var name := KeyName(pairs, field);
    SortedGroupsSummary(pairs, field);
    if s in ByField(pairs, field).value.values {
      SortedItemsFrom(g, name, Summary, s);
      var k :| k in g.values && name(k) == s;
      assert k != NullKey && Members(pairs, field, k) != [];
    }
    if exists k :: k != NullKey && Members(pairs, field, k) != [] && Render(Representative(pairs, field, k)) == s {
      var k :| k != NullKey && Members(pairs, field, k) != [] && Render(Representative(pairs, field, k)) == s;
      SortedItemsHas(g, name, Summary, k);
    }
  }

  /**
   * When no other group's key object prints like that of `k`, the entry
   * under its text holds the statistics of exactly the pairs with key `k`.
   */
  lemma ByFieldValue(pairs: seq<Pair>, field: string, k: HashKey)
    requires ByField(pairs, field).Ok?
    requires k != NullKey && Members(pairs, field, k) != []
    requires forall w :: w != NullKey && Members(pairs, field, w) != [] && KeyName(pairs, field)(w) == KeyName(pairs, field)(k) ==> w == k
    ensures Render(Representative(pairs, field, k)) in ByField(pairs, field).value.values
    ensures ByField(pairs, field).value.values[Render(Representative(pairs, field, k))] == Summary(Members(pairs, field, k))
  {
    SortedGroupsSummary(pairs, field);
    SortedItemsValue(Grouped(pairs, field).value, KeyName(pairs, field), Summary, k);
  }

  /** The first loop of `_compute_by_field`: each pair other than those with value None joins its key's group. */
  method GroupPairs(pairs: seq<Pair>, field: string) returns (grouped: Result<OrderedMap<HashKey, seq<Pair>>, ReportError>)
    ensures grouped == Grouped(pairs, field)
  {
    var g := Empty();
    var i := 0;
    while i < |pairs|
      invariant 0 <= i <= |pairs|
      invariant Grouped(pairs[..i], field) == Ok(g)
    {
      assert pairs[..i + 1][..i] == pairs[..i];
      var value := FieldOf(pairs[i], field);
      if value.JArr? || value.JObj? {
        forall j | 0 <= j < i
          ensures HashOf(FieldOf(pairs[j], field)).Some?
        {
          assert pairs[..i][j] == pairs[j];
        }
        GroupedFirstError(pairs, field, i);
        return Err(Unhashable(TypeName(value)));
      }
      if value != JNull {
        var key := HashOf(value).value;
        var group := if key in g.values then g.values[key] else [];
        g := Put(g, key, group + [pairs[i]]);
      }
      i := i + 1;
    }
    assert pairs[..|pairs|] == pairs;
    grouped := Ok(g);
  }

  /** The second loop of `_compute_by_field`: each sorted group's statistics under its key, until one raises. */
  method StatsPerGroup(sorted: seq<Item<seq<Pair>>>) returns (out: Result<OrderedMap<string, GroupStats>, ReportError>)
    ensures out == Collect(sorted, StatsOf)
  {
    var acc := Empty();
    var j := 0;
    while j < |sorted|
      invariant 0 <= j <= |sorted|
      invariant Collect(sorted[..j], StatsOf) == Ok(acc)
    {
      assert sorted[..j + 1][..j] == sorted[..j] && sorted[..j + 1][j] == sorted[j];
      var stats := ComputeStats(sorted[j].1);
      if stats.Err? {
        forall k | 0 <= k < j
          ensures StatsOf(sorted[k].1).Ok?
        {
          assert sorted[..j][k] == sorted[k];
        }
        CollectFirstError(sorted, StatsOf, j);
        return Err(stats.error);
      }
      acc := Put(acc, sorted[j].0, stats.value);
      j := j + 1;
    }
    assert sorted[..|sorted|] == sorted;
    out := Ok(acc);
  }

  /**
   * `_compute_by_field`: the pairs grouped by field value, the groups
   * sorted by the text of their key, and each group's statistics.
   */
  method ComputeByField(pairs: seq<Pair>, field: string) returns (out: Result<OrderedMap<string, GroupStats>, ReportError>)
    ensures out == ByField(pairs, field)
  {
    var grouped := GroupPairs(pairs, field);
    if grouped.Err? {
      return Err(grouped.error);
    }
    var sorted := SortBy(Items(grouped.value, KeyName(pairs, field)), ItemKey);
    out := StatsPerGroup(sorted);
  }

  /** `ErrorAnalysis`. */
  datatype ErrorAnalysis = ErrorAnalysis(totalErrors: nat, missingRelations: seq<string>, errorTypes: map<string, nat>)

  /** The results of the pairs, in order. */
  function ResultsOf(pairs: seq<Pair>): (results: seq<DataEntity.Result>)
    ensures |results| == |pairs| && forall i :: 0 <= i < |pairs| ==> results[i] == pairs[i].1
  {
    seq(|pairs|, i requires 0 <= i < |pairs| => pairs[i].1)
  }

  /**
   * `_compute_errors`: the number of failed executions, the relationship
   * types their messages name, and their categories; the categories
   * account for every failure.
   */
  method ComputeErrors(results: seq<DataEntity.Result>, secondary: Analysis.Secondary) returns (e: ErrorAnalysis)
    ensures e.totalErrors == Analysis.FailedCount(results)
    ensures e.missingRelations == SortedSet(Analysis.MissingSet(results, secondary))
    ensures e.errorTypes == Analysis.Counted(results)
    ensures Analysis.Total(e.errorTypes) == e.totalErrors
  {
    var errorCount := 0;
    var i := 0;
    while i < |results|
      invariant 0 <= i <= |results|
      invariant errorCount == Analysis.FailedCount(results[..i])
    {
      assert results[..i + 1][..i] == results[..i];
      if results[i].exec.Some? && !results[i].exec.value.success {
        errorCount := errorCount + 1;
      }
      i := i + 1;
    }
    assert results[..|results|] == results;
    var missing := Analysis.ExtractMissingRelations(results, secondary);
    var types := Analysis.CategorizeErrors(results);
    Analysis.CountsSumToFailures(results);
    e := ErrorAnalysis(errorCount, missing, types);
  }

  /** A failed execution is also an error of the statistics, which besides count the pairs never executed. */
  lemma {:induction false} FailuresAreErrors(pairs: seq<Pair>)
    ensures Analysis.FailedCount(ResultsOf(pairs)) <= ErrorCount(pairs, PairOutcome)
    decreases |pairs|
  {
    if pairs != [] {
      var n := |pairs| - 1;
      assert ResultsOf(pairs)[..n] == ResultsOf(pairs[..n]);
      FailuresAreErrors(pairs[..n]);
    }
  }

  /** `_compute_by_field` of each field. */
  function ByFieldOf(pairs: seq<Pair>): string -> Result<OrderedMap<string, GroupStats>, ReportError>
  {
    field => ByField(pairs, field)
  }

  /** `by_field` after the loop of `generate` has visited `fields`, or the error of the first field that raises. */
  function FieldsOf(pairs: seq<Pair>, fields: seq<string>): Result<OrderedMap<string, OrderedMap<string, GroupStats>>, ReportError>
  {
    KeyedOrError(fields, ByFieldOf(pairs))
  }

  /** The statistics of each group of a field, none for a field that raises. */
  function GroupsOf(pairs: seq<Pair>): string -> OrderedMap<string, GroupStats>
  {
    field => match ByField(pairs, field) case Ok(groups) => groups case Err(_) => Empty()
  }

  /** `generate` raises for its fields exactly when one of them raises; otherwise `by_field` assigns each field its groups in turn. */
  lemma FieldsKeyed(pairs: seq<Pair>, fields: seq<string>)
    ensures FieldsOf(pairs, fields).Ok? <==> forall i :: 0 <= i < |fields| ==> ByField(pairs, fields[i]).Ok?
    ensures FieldsOf(pairs, fields).Ok? ==> FieldsOf(pairs, fields) == Ok(Keyed(fields, GroupsOf(pairs)))
  {
    if FieldsOf(pairs, fields).Ok? {
      KeyedOrErrorOk(fields, ByFieldOf(pairs), GroupsOf(pairs));
    }
  }

  /** The `by_field` dictionary of `generate` has one entry per requested field, holding that field's groups. */
  lemma ByFieldsEntry(pairs: seq<Pair>, fields: seq<string>, field: string)
    requires FieldsOf(pairs, fields).Ok?
    ensures field in FieldsOf(pairs, fields).value.values <==> field in fields
    ensures field in fields ==> ByField(pairs, field) == Ok(FieldsOf(pairs, fields).value.values[field])
  {
    FieldsKeyed(pairs, fields);
    KeyedEntry(fields, GroupsOf(pairs), field);
  }

  /** `group_by or []`. */
  function Fields(groupBy: Option<seq<string>>): seq<string>
  {
    if groupBy.Some? then groupBy.value else []
  }

  /** `Report`; the metadata dictionary, always empty here, is left out. */
  datatype Report = Report(
    runId: string, total: nat, summary: GroupStats,
    byField: OrderedMap<string, OrderedMap<string, GroupStats>>, errors: ErrorAnalysis)

  /** The loop of `generate`: the groups of each requested field, under the field's name, until one raises. */
  method ComputeFields(pairs: seq<Pair>, fields: seq<string>)
    returns (byField: Result<OrderedMap<string, OrderedMap<string, GroupStats>>, ReportError>)
    ensures byField == FieldsOf(pairs, fields)
  {
    var acc := Empty();
    var i := 0;
    while i < |fields|
      invariant 0 <= i <= |fields|
      invariant FieldsOf(pairs, fields[..i]) == Ok(acc)
    {
      assert fields[..i + 1][..i] == fields[..i];
      var groups := ComputeByField(pairs, fields[i]);
      if groups.Err? {
        KeyedFirstError(fields, ByFieldOf(pairs), i);
        return Err(groups.error);
      }
      acc := Put(acc, fields[i], groups.value);
      i := i + 1;
    }
    assert fields[..|fields|] == fields;
    byField := Ok(acc);
  }

  /**
   * `generate`: the summary of all pairs, the groups of each requested
   * field, and the error analysis of the results; the summary's error, or
   * the first field's, is raised instead.
   */
  method Generate(pairs: seq<Pair>, configId: string, groupBy: Option<seq<string>>, secondary: Analysis.Secondary)
    returns (report: Result<Report, ReportError>)
    ensures report.Ok? <==> StatsOf(pairs).Ok? && FieldsOf(pairs, Fields(groupBy)).Ok?
    ensures StatsOf(pairs).Err? ==> report == Err(StatsOf(pairs).error)
    ensures StatsOf(pairs).Ok? && FieldsOf(pairs, Fields(groupBy)).Err? ==> report == Err(FieldsOf(pairs, Fields(groupBy)).error)
    ensures report.Ok? ==> report.value.runId == configId && report.value.total == |pairs|
    ensures report.Ok? ==> report.value.summary == Summary(pairs)
    ensures report.Ok? ==> report.value.byField == Keyed(Fields(groupBy), GroupsOf(pairs))
    ensures report.Ok? ==> report.value.errors.totalErrors == Analysis.FailedCount(ResultsOf(pairs))
    ensures report.Ok? ==> report.value.errors.missingRelations == SortedSet(Analysis.MissingSet(ResultsOf(pairs), secondary))
    ensures report.Ok? ==> report.value.errors.errorTypes == Analysis.Counted(ResultsOf(pairs))
  {
    var summary := ComputeStats(pairs);
    if summary.Err? {
      return Err(summary.error);
    }
    var byField := ComputeFields(pairs, Fields(groupBy));
    if byField.Err? {
      return Err(byField.error);
    }
    FieldsKeyed(pairs, Fields(groupBy));
    var errors := ComputeErrors(ResultsOf(pairs), secondary);
    report := Ok(Report(configId, |pairs|, summary.value, byField.value, errors));
  }
}
