/**
 * `Analysis` (src/nl2graph/analysis/analysis.py): what the failed
 * executions of a batch of results say. Each failure is put in one error
 * category by a case-insensitive, first-match keyword test, the
 * categories are counted, and the relationship types the database
 * reported as unknown are collected, sorted and without repetition.
 *
 * Of the four missing-relation patterns only the first,
 * `Unknown relationship type '<X>'`, is written out; the captures of the
 * other three are the parameter `secondary`.
 */
module Analysis {
  import opened Wrappers
  import opened Strs
  import DataEntity
  type Result = DataEntity.Result

  /** The categories `_classify_error` returns. */
  datatype ErrorKind =
    | Timeout | Connection | Syntax | MissingRelationship | MissingLabel | MissingProperty | NoQuery | Other

  /** The category's name, the key `categorize_errors` counts it under. */
  function KindName(k: ErrorKind): string
  {
    match k
    case Timeout => "timeout"
    case Connection => "connection"
    case Syntax => "syntax"
    case MissingRelationship => "missing_relationship"
    case MissingLabel => "missing_label"
    case MissingProperty => "missing_property"
    case NoQuery => "no_query"
    case Other => "other"
  }

  /** Distinct categories have distinct names. */
  lemma KindNameInjective(a: ErrorKind, b: ErrorKind)
    requires KindName(a) == KindName(b)
    ensures a == b
  {
  }

  /** Keywords of the relationship test. */
  predicate MentionsRelationship(e: string)
  {
    Contains(e, "relationship") || Contains(e, "rel_type")
  }

  /** Keywords of the label test. */
  predicate MentionsLabel(e: string)
  {
    Contains(e, "label") || Contains(e, "node")
  }

  /**
   * `_classify_error`: the first keyword of the lower-cased message, in
   * the order timeout, connection, syntax, relationship, label, property,
   * "no query"; `other` when none occurs.
   */
  function ClassifyError(error: string): (k: ErrorKind)
    ensures var e := Lower(error);
      && (k == Timeout <==> Contains(e, "timeout"))
      && (k == Connection <==> !Contains(e, "timeout") && Contains(e, "connection"))
      && (k == Syntax <==> !Contains(e, "timeout") && !Contains(e, "connection") && Contains(e, "syntax"))
      && (k == MissingRelationship <==>
            !Contains(e, "timeout") && !Contains(e, "connection") && !Contains(e, "syntax") && MentionsRelationship(e))
      && (k == MissingLabel <==>
            !Contains(e, "timeout") && !Contains(e, "connection") && !Contains(e, "syntax") && !MentionsRelationship(e)
            && MentionsLabel(e))
      && (k == MissingProperty <==>
            !Contains(e, "timeout") && !Contains(e, "connection") && !Contains(e, "syntax") && !MentionsRelationship(e)
            && !MentionsLabel(e) && Contains(e, "property"))
      && (k == NoQuery <==>
            !Contains(e, "timeout") && !Contains(e, "connection") && !Contains(e, "syntax") && !MentionsRelationship(e)
            && !MentionsLabel(e) && !Contains(e, "property") && Contains(e, "no query"))
      && (k == Other <==>
            !Contains(e, "timeout") && !Contains(e, "connection") && !Contains(e, "syntax") && !MentionsRelationship(e)
            && !MentionsLabel(e) && !Contains(e, "property") && !Contains(e, "no query"))
  {
    var e := Lower(error);
    if Contains(e, "timeout") then Timeout
    else if Contains(e, "connection") then Connection
    else if Contains(e, "syntax") then Syntax
    else if MentionsRelationship(e) then MissingRelationship
    else if MentionsLabel(e) then MissingLabel
    else if Contains(e, "property") then MissingProperty
    else if Contains(e, "no query") then NoQuery
    else Other
  }

  /** The category does not depend on the case of the message. */
  lemma ClassifyIgnoresCase(error: string)
    ensures ClassifyError(Lower(error)) == ClassifyError(error)
  {
    LowerIdempotent(error);
  }

  /** A message naming both a timeout and a connection is a timeout. */
  lemma TimeoutBeforeConnection(error: string)
    requires Contains(Lower(error), "timeout") && Contains(Lower(error), "connection")
    ensures ClassifyError(error) == Timeout
  {
  }

  /** The results the analysis looks at: an execution is present and failed. */
  predicate Failed(r: Result)
  {
    r.exec.Some? && !r.exec.value.success
  }

  /** `result.exec.error or ""`. */
  function ErrorText(r: Result): string
    requires r.exec.Some?
  {
    if r.exec.value.error.Some? then r.exec.value.error.value else ""
  }

  /** The number of failed results. */
  function FailedCount(results: seq<Result>): (n: nat)
    ensures n <= |results|
    decreases |results|
  {
    if results == [] then 0
    else FailedCount(results[..|results| - 1]) + if Failed(results[|results| - 1]) then 1 else 0
  }

  /** The number of failed results in category `k`. */
  function KindCount(results: seq<Result>, k: ErrorKind): (n: nat)
    ensures n <= FailedCount(results)
    decreases |results|
  {
    if results == [] then 0
    else
      var last := results[|results| - 1];
      KindCount(results[..|results| - 1], k) + if Failed(last) && ClassifyError(ErrorText(last)) == k then 1 else 0
  }

  /** `counter[key]`: 0 for a key never counted. */
  function Get(m: map<string, nat>, key: string): nat
  {
    if key in m then m[key] else 0
  }

  /** The `Counter` after the loop of `categorize_errors` has visited `results`. */
  function Counted(results: seq<Result>): map<string, nat>
    decreases |results|
  {
    if results == [] then map[]
    else
      var m := Counted(results[..|results| - 1]);
      var last := results[|results| - 1];
      if !Failed(last) then m
      else
        var key := KindName(ClassifyError(ErrorText(last)));
        m[key := Get(m, key) + 1]
  }

  /** The counts of all categories added up. */
  function Total(m: map<string, nat>): nat
  {
    Get(m, "timeout") + Get(m, "connection") + Get(m, "syntax") + Get(m, "missing_relationship")
    + Get(m, "missing_label") + Get(m, "missing_property") + Get(m, "no_query") + Get(m, "other")
  }

  /** `categorize_errors`: one count per category that occurs. */
  method CategorizeErrors(results: seq<Result>) returns (categories: map<string, nat>)
    ensures categories == Counted(results)
  {
    categories := map[];
    var i := 0;
    while i < |results|
      invariant 0 <= i <= |results|
      invariant categories == Counted(results[..i])
    {
      assert results[..i + 1][..i] == results[..i];
      var result := results[i];
      if Failed(result) {
        var category := KindName(ClassifyError(ErrorText(result)));
        categories := categories[category := Get(categories, category) + 1];
      }
      i := i + 1;
    }
    assert results[..|results|] == results;
  }

  /**
   * Each category's entry is the number of failed results in it, a
   * category occurs iff some failed result is in it, and nothing else is
   * counted.
   */
  lemma {:induction false} CountedByKind(results: seq<Result>)
    ensures forall k :: Get(Counted(results), KindName(k)) == KindCount(results, k)
    ensures forall k :: KindName(k) in Counted(results) <==> KindCount(results, k) > 0
    ensures forall key :: key in Counted(results) ==> exists k :: KindName(k) == key
    decreases |results|
  {
    if results != [] {
      CountedByKind(results[..|results| - 1]);
      forall k, k' | KindName(k) == KindName(k')
        ensures k == k'
      {
        KindNameInjective(k, k');
      }
    }
  }

  /** The counts add up to the number of failed results. */
  lemma {:induction false} CountsSumToFailures(results: seq<Result>)
    ensures Total(Counted(results)) == FailedCount(results)
    decreases |results|
  {
    if results != [] {
      var last := results[|results| - 1];
      CountsSumToFailures(results[..|results| - 1]);
      if Failed(last) {
        TotalBump(Counted(results[..|results| - 1]), ClassifyError(ErrorText(last)));
      }
    }
  }

  /** Counting one more at a key adds one to that key's count and leaves every other key's. */
  lemma GetBump(m: map<string, nat>, key: string, o: string)
    ensures Get(m[key := Get(m, key) + 1], o) == if o == key then Get(m, key) + 1 else Get(m, o)
  {
  }

  /** Counting one more result of a category adds one to the total. */
  lemma TotalBump(m: map<string, nat>, k: ErrorKind)
    ensures Total(m[KindName(k) := Get(m, KindName(k)) + 1]) == Total(m) + 1
  {
    var key := KindName(k);
    GetBump(m, key, "timeout");
    GetBump(m, key, "connection");
    GetBump(m, key, "syntax");
    GetBump(m, key, "missing_relationship");
    GetBump(m, key, "missing_label");
    GetBump(m, key, "missing_property");
    GetBump(m, key, "no_query");
    GetBump(m, key, "other");
    // The eight names have eight different lengths, so exactly one of them is the key.
    assert |key| in {7, 10, 6, 20, 13, 16, 8, 5};
  }

  /** The text `Unknown relationship type '` in lower case: the pattern matches it case-insensitively. */
  const UnknownRelPrefix := "unknown relationship type '"

  /** The end of the `[^']+` run that starts at `j`: the next quote, or the end of the text. */
  function QuoteFrom(e: string, j: nat): (k: nat)
    requires j <= |e|
    ensures j <= k <= |e|
    ensures k < |e| ==> e[k] == '\''
    ensures forall i :: j <= i < k ==> e[i] != '\''
    decreases |e| - j
  {
    if j == |e| || e[j] == '\'' then j else QuoteFrom(e, j + 1)
  }

  /** At position `i` the message reads the prefix with ASCII letters in either case, then `x`, then a closing quote; `x` is non-empty and quote-free. */
  predicate Captures(e: string, i: nat, x: string)
  {
    var j := i + |UnknownRelPrefix|;
    && j + |x| < |e|
    && Lower(e[i..j]) == UnknownRelPrefix
    && e[j..j + |x|] == x
    && e[j + |x|] == '\''
    && x != [] && '\'' !in x
  }

  /** The capture of `Unknown relationship type '([^']+)'` matched at position `i`, if it matches there. */
  function MatchAt(e: string, i: nat): (r: Option<string>)
    ensures r.Some? ==> Captures(e, i, r.value)
  {
    var j := i + |UnknownRelPrefix|;
    if j <= |e| && Lower(e[i..j]) == UnknownRelPrefix then
      var k := QuoteFrom(e, j);
      if j < k < |e| then Some(e[j..k]) else None
    else None
  }

  /** `re.search`: the first position at or after `from` where the pattern matches. */
  function SearchFrom(e: string, from: nat): (p: Option<nat>)
    ensures p.Some? ==> from <= p.value <= |e| && MatchAt(e, p.value).Some?
    decreases |e| - from
  {
    if from > |e| then None
    else if MatchAt(e, from).Some? then Some(from)
    else SearchFrom(e, from + 1)
  }

  /** The search finds the first match: the pattern matches nowhere between `from` and the position found, nor anywhere when none is found. */
  lemma {:induction false} SearchFromFirst(e: string, from: nat, i: nat)
    requires from <= i
    requires SearchFrom(e, from).None? || i < SearchFrom(e, from).value
    ensures MatchAt(e, i).None?
    decreases |e| - from
  {
    if from <= |e| && i > from {
      SearchFromFirst(e, from + 1, i);
    }
  }

  /** The relationship type of the first `Unknown relationship type '<X>'` in the message. */
  function UnknownRelation(e: string): (r: Option<string>)
    ensures r.Some? ==> exists i :: MatchAt(e, i) == r
  {
    var p := SearchFrom(e, 0);
    if p.Some? then MatchAt(e, p.value) else None
  }

  /** The captures of the other three patterns on a message. */
  type Secondary = string -> set<string>

  /** The relationship types one error message yields. */
  function Found(e: string, secondary: Secondary): set<string>
  {
    (if UnknownRelation(e).Some? then {UnknownRelation(e).value} else {}) + secondary(e)
  }

  /** The set after the loop of `extract_missing_relations` has visited `results`. */
  function MissingSet(results: seq<Result>, secondary: Secondary): set<string>
    decreases |results|
  {
    if results == [] then {}
    else
      var last := results[|results| - 1];
      MissingSet(results[..|results| - 1], secondary)
      + if Failed(last) then Found(ErrorText(last), secondary) else {}
  }

  /** A relationship type is reported iff some failed result's message yields it. */
  lemma {:induction false} MissingSetMembers(results: seq<Result>, secondary: Secondary)
    ensures forall x :: x in MissingSet(results, secondary) <==>
      exists i :: 0 <= i < |results| && Failed(results[i]) && x in Found(ErrorText(results[i]), secondary)
    decreases |results|
  {
    if results != [] {
      var n := |results| - 1;
      var init := results[..n];
      MissingSetMembers(init, secondary);
      forall x | x in MissingSet(results, secondary)
        ensures exists i :: 0 <= i < |results| && Failed(results[i]) && x in Found(ErrorText(results[i]), secondary)
      {
        if x in MissingSet(init, secondary) {
          var i :| 0 <= i < n && Failed(init[i]) && x in Found(ErrorText(init[i]), secondary);
          assert results[i] == init[i];
        }
      }
      forall x | exists i :: 0 <= i < |results| && Failed(results[i]) && x in Found(ErrorText(results[i]), secondary)
        ensures x in MissingSet(results, secondary)
      {
        var i :| 0 <= i < |results| && Failed(results[i]) && x in Found(ErrorText(results[i]), secondary);
        if i < n {
          assert init[i] == results[i];
        }
      }
    }
  }

  /**
   * `extract_missing_relations`: the relationship types named by failed
   * executions, sorted and each once; successful or absent executions are
   * ignored.
   */
  method ExtractMissingRelations(results: seq<Result>, secondary: Secondary) returns (missing: seq<string>)
    ensures missing == SortedSet(MissingSet(results, secondary))
    ensures StrictlySorted(missing)
    ensures forall x :: x in missing <==> x in MissingSet(results, secondary)
  {
    var found: set<string> := {};
    var i := 0;
    while i < |results|
      invariant 0 <= i <= |results|
      invariant found == MissingSet(results[..i], secondary)
    {
      assert results[..i + 1][..i] == results[..i];
      var result := results[i];
      if Failed(result) {
        found := found + Found(ErrorText(result), secondary);
      }
      i := i + 1;
    }
    assert results[..|results|] == results;
    missing := SortedSet(found);
  }

  /** Without failed executions nothing is reported. */
  lemma {:induction false} NoFailureNoMissing(results: seq<Result>, secondary: Secondary)
    requires forall i :: 0 <= i < |results| ==> !Failed(results[i])
    ensures MissingSet(results, secondary) == {}
    ensures SortedSet(MissingSet(results, secondary)) == []
    decreases |results|
  {
    if results != [] {
      var n := |results| - 1;
      assert forall i :: 0 <= i < n ==> results[..n][i] == results[i];
      NoFailureNoMissing(results[..n], secondary);
    }
  }
}
