/**
 * `Neo4jConnector` of the execution package
 * (src/nl2graph/execution/connectors/neo4j.py): the query rewrites named
 * by the `sanity` setting, the one rewrite there is (lower-casing
 * relationship types), the timeout and database defaults, and the shaping
 * of driver records into rows. The driver session is a parameter: given
 * the database, the query and the timeout in milliseconds it returns the
 * column names and records, or the error it raises.
 */
module Neo4jExecution {
  import opened Wrappers
  import opened Strs
  import opened Json
  import opened QueryResults

  // ---------------------------------------------------------------------
  // `_lowercase_relationships`: `re.sub(r':\s*([A-Z_]+)(?=\s*[\]\{])', …)`
  // ---------------------------------------------------------------------

  /** `[A-Z_]`. */
  predicate IsRunChar(c: char) {
    'A' <= c <= 'Z' || c == '_'
  }

  /** `[\]\{]`. */
  predicate IsClose(c: char) {
    c == ']' || c == '{'
  }

  /** The character classes the greedy runs of the pattern range over. */
  datatype CharClass = Spaces | Capitals | NonColons

  predicate InClass(k: CharClass, c: char) {
    match k
    case Spaces => IsSpace(c)
    case Capitals => IsRunChar(c)
    case NonColons => c != ':'
  }

  /** Where a greedy run of `k` characters from index `i` ends. */
  function Scan(s: string, k: CharClass, i: nat): (n: nat)
    requires i <= |s|
    ensures i <= n <= |s|
    ensures n < |s| ==> !InClass(k, s[n])
    decreases |s| - i
  {
    if i < |s| && InClass(k, s[i]) then Scan(s, k, i + 1) else i
  }

  /** Every character the run covers is in its class. */
  lemma {:induction false} ScanAll(s: string, k: CharClass, i: nat)
    requires i <= |s|
    ensures forall j :: i <= j < Scan(s, k, i) ==> InClass(k, s[j])
    decreases |s| - i
  {
    if i < |s| && InClass(k, s[i]) {
      ScanAll(s, k, i + 1);
    }
  }

  /** A run that starts in `y` of `x + y` is the run in `y`, shifted by `|x|`. */
  lemma {:induction false} ScanShift(x: string, y: string, k: CharClass, j: nat)
    requires j <= |y|
    ensures Scan(x + y, k, |x| + j) == |x| + Scan(y, k, j)
    decreases |y| - j
  {
    if j < |y| {
      assert (x + y)[|x| + j] == y[j];
      if InClass(k, y[j]) {
        ScanShift(x, y, k, j + 1);
      }
    }
  }

  /** A run that starts right after `x` is the run at the start of `y`. */
  lemma ScanAt(x: string, y: string, k: CharClass)
    ensures Scan(x + y, k, |x|) == |x| + Scan(y, k, 0)
  {
    ScanShift(x, y, k, 0);
  }

  /** A run over a concatenation stops in the first part unless it covers the rest of it. */
  lemma {:induction false} ScanAppend(x: string, y: string, k: CharClass, i: nat)
    requires i <= |x|
    ensures Scan(x + y, k, i) == if Scan(x, k, i) < |x| then Scan(x, k, i) else |x| + Scan(y, k, 0)
    decreases |x| - i
  {
    if i == |x| {
      ScanAt(x, y, k);
    } else {
      assert (x + y)[i] == x[i];
      if InClass(k, x[i]) {
        ScanAppend(x, y, k, i + 1);
      }
    }
  }

  /** A run that covers the rest of `x` and cannot step into `y` ends at `|x|`. */
  lemma ScanExact(x: string, y: string, k: CharClass, i: nat)
    requires i <= |x|
    requires forall j :: i <= j < |x| ==> InClass(k, x[j])
    requires y == [] || !InClass(k, y[0])
    ensures Scan(x + y, k, i) == |x|
  {
    ScanAppend(x, y, k, i);
  }

  /** A run of a class without the colon ends before the first colon. */
  lemma ScanStops(x: string, w: string, k: CharClass, i: nat)
    requires i <= |x| && ':' !in x && (w == [] || w[0] == ':') && !InClass(k, ':')
    ensures Scan(x + w, k, i) == Scan(x, k, i)
  {
    ScanAppend(x, w, k, i);
  }

  /** Where the capture group starts in the text after a colon: after `\s*`. */
  function RunStart(t: string): (a: nat)
    ensures a <= |t|
  {
    Scan(t, Spaces, 0)
  }

  /** Where the capture group `([A-Z_]+)` ends, which is where the match ends. */
  function RunEnd(t: string): (b: nat)
    ensures RunStart(t) <= b <= |t|
  {
    Scan(t, Capitals, RunStart(t))
  }

  /** Where the lookahead expects `]` or `{`: after the second `\s*`. */
  function CloseAt(t: string): (c: nat)
    ensures RunEnd(t) <= c <= |t|
  {
    Scan(t, Spaces, RunEnd(t))
  }

  /**
   * The pattern matches at a colon followed by `t`. Spaces and `[A-Z_]` are
   * disjoint and neither contains `]` or `{`, so backtracking never helps:
   * the greedy runs are the only candidates.
   */
  predicate MatchBody(t: string) {
    RunStart(t) < RunEnd(t) && CloseAt(t) < |t| && IsClose(t[CloseAt(t)])
  }

  /**
   * `_lowercase_relationships`: scanning left to right, each match is
   * replaced by a colon and its capture lower-cased, and the scan resumes
   * after the capture; every other character is copied.
   */
  function LowercaseRelationships(s: string): (r: string)
    ensures s != [] && s[0] == ':' ==> r != [] && r[0] == ':'
    decreases |s|
  {
    if s == [] then []
    else if s[0] == ':' && MatchBody(s[1..]) then
      var t := s[1..];
      ":" + Lower(t[RunStart(t)..RunEnd(t)]) + LowercaseRelationships(t[RunEnd(t)..])
    else [s[0]] + LowercaseRelationships(s[1..])
  }

  /** A colon where the pattern matches is followed by the lowered capture. */
  lemma ColonMatch(t: string)
    requires MatchBody(t)
    ensures LowercaseRelationships(":" + t)
      == ":" + (Lower(t[RunStart(t)..RunEnd(t)]) + LowercaseRelationships(t[RunEnd(t)..]))
  {
    assert (":" + t)[0] == ':' && (":" + t)[1..] == t;
    var l, r := Lower(t[RunStart(t)..RunEnd(t)]), LowercaseRelationships(t[RunEnd(t)..]);
    assert ":" + l + r == ":" + (l + r);
  }

  /** A colon where the pattern does not match is copied. */
  lemma ColonNoMatch(t: string)
    requires !MatchBody(t)
    ensures LowercaseRelationships(":" + t) == ":" + LowercaseRelationships(t)
  {
    assert (":" + t)[0] == ':' && (":" + t)[1..] == t;
  }

  /** Text without a colon is copied through. */
  lemma {:induction false} CopyPrefix(p: string, w: string)
    requires ':' !in p
    ensures LowercaseRelationships(p + w) == p + LowercaseRelationships(w)
    decreases |p|
  {
    if p == [] {
      assert p + w == w;
    } else {
      HeadSplit(p, w);
      assert ':' !in p[1..];
      CopyPrefix(p[1..], w);
      CopyChar(p[0], p[1..] + w);
      HeadSplit(p, LowercaseRelationships(w));
    }
  }

  lemma HeadSplit(p: string, x: string)
    requires p != []
    ensures p + x == [p[0]] + (p[1..] + x)
  {
    assert p == [p[0]] + p[1..];
  }

  /** A character other than a colon is copied. */
  lemma CopyChar(c: char, t: string)
    requires c != ':'
    ensures LowercaseRelationships([c] + t) == [c] + LowercaseRelationships(t)
  {
    assert ([c] + t)[0] == c && ([c] + t)[1..] == t;
  }

  /** A match never reaches past the next colon: only the colon-free prefix of the text after a colon decides it. */
  lemma MatchPrefix(p: string, w: string)
    requires ':' !in p
    requires w == [] || w[0] == ':'
    ensures MatchBody(p + w) == MatchBody(p)
  {
    var t := p + w;
    assert !InClass(Spaces, ':') && !InClass(Capitals, ':');
    ScanStops(p, w, Spaces, 0);
    ScanStops(p, w, Capitals, RunStart(p));
    ScanStops(p, w, Spaces, RunEnd(p));
    var c := CloseAt(p);
    assert CloseAt(t) == c;
    if c < |p| {
      assert t[c] == p[c];
    } else {
      assert c < |t| ==> t[c] == w[0];
    }
  }

  /** The text up to its first colon, and the rest, which is empty or starts with that colon. */
  lemma ColonSplit(t: string) returns (p: string, w: string)
    ensures t == p + w && ':' !in p && (w == [] || w[0] == ':')
  {
    var n := Scan(t, NonColons, 0);
    ScanAll(t, NonColons, 0);
    p, w := t[..n], t[n..];
    assert t == p + w;
    forall i | 0 <= i < |p|
      ensures p[i] != ':'
    {
      assert p[i] == t[i] && InClass(NonColons, t[i]);
    }
  }

  /** The text after a match: spaces, then the bracket, then anything. */
  lemma AfterMatch(t: string) returns (q: string, w: string)
    requires MatchBody(t)
    ensures t[RunEnd(t)..] == q + w && |q| > 0
    ensures forall i :: 0 <= i < |q| - 1 ==> IsSpace(q[i])
    ensures IsClose(q[|q| - 1])
  {
    var b, c := RunEnd(t), CloseAt(t);
    ScanAll(t, Spaces, b);
    q, w := t[b..c + 1], t[c + 1..];
    assert t[b..] == q + w;
    forall i | 0 <= i < |q| - 1
      ensures IsSpace(q[i])
    {
      assert q[i] == t[b + i] && InClass(Spaces, t[b + i]);
    }
    assert q[|q| - 1] == t[c];
  }

  /** Spaces, then a bracket, hold no colon. */
  lemma ColonFreeTail(q: string)
    requires |q| > 0 && (forall i :: 0 <= i < |q| - 1 ==> IsSpace(q[i])) && IsClose(q[|q| - 1])
    ensures ':' !in q
  {
  }

  /** A lowered capture that reaches a lower-case letter is no capture any more: no match starts at its colon. */
  lemma NoMatchAfterLetter(l: string, r: string)
    requires l != [] && forall i :: 0 <= i < |l| ==> l[i] == '_' || 'a' <= l[i] <= 'z'
    requires Scan(l, Capitals, 0) < |l|
    ensures !MatchBody(l + r)
  {
    var t := l + r;
    var k := Scan(l, Capitals, 0);
    assert t[0] == l[0];
    assert RunStart(t) == 0;
    ScanAppend(l, r, Capitals, 0);
    assert RunEnd(t) == k;
    assert t[k] == l[k];
    assert CloseAt(t) == k;
  }

  /** `\s*` over spaces followed by a bracket stops at the bracket. */
  lemma SpacesThenClose(q: string, w: string)
    requires |q| > 0 && (forall i :: 0 <= i < |q| - 1 ==> IsSpace(q[i])) && IsClose(q[|q| - 1])
    ensures Scan(q + w, Spaces, 0) == |q| - 1 && (q + w)[|q| - 1] == q[|q| - 1]
  {
    var m := |q| - 1;
    assert q + w == q[..m] + ([q[m]] + w);
    ScanExact(q[..m], [q[m]] + w, Spaces, 0);
  }

  /** A lowered capture of underscores only still matches, with the same spaces and bracket after it. */
  lemma MatchAfterUnderscores(l: string, q: string, w: string)
    requires l != [] && Scan(l, Capitals, 0) == |l|
    requires |q| > 0 && (forall i :: 0 <= i < |q| - 1 ==> IsSpace(q[i])) && IsClose(q[|q| - 1])
    ensures MatchBody(l + (q + w))
    ensures RunStart(l + (q + w)) == 0 && RunEnd(l + (q + w)) == |l|
  {
    var r := q + w;
    var t := l + r;
    ScanAll(l, Capitals, 0);
    assert t[0] == l[0] && InClass(Capitals, l[0]);
    assert RunStart(t) == 0;
    assert r[0] == q[0];
    ScanAppend(l, r, Capitals, 0);
    assert RunEnd(t) == |l|;
    ScanAt(l, r, Spaces);
    SpacesThenClose(q, w);
    assert t[|l| + |q| - 1] == r[|q| - 1];
  }

  /** A lowered capture that holds a letter is copied, colon included. */
  lemma RewriteLetter(l: string, r: string)
    requires l != [] && forall i :: 0 <= i < |l| ==> l[i] == '_' || 'a' <= l[i] <= 'z'
    requires Scan(l, Capitals, 0) < |l|
    ensures LowercaseRelationships(":" + (l + r)) == ":" + (l + LowercaseRelationships(r))
  {
    NoMatchAfterLetter(l, r);
    ColonNoMatch(l + r);
    assert ':' !in l;
    CopyPrefix(l, r);
  }

  /** A lowered capture of underscores matches again and is lowered to itself. */
  lemma RewriteUnderscores(l: string, q: string, w: string)
    requires l != [] && Scan(l, Capitals, 0) == |l| && Lower(l) == l
    requires |q| > 0 && (forall i :: 0 <= i < |q| - 1 ==> IsSpace(q[i])) && IsClose(q[|q| - 1])
    ensures LowercaseRelationships(":" + (l + (q + w))) == ":" + (l + LowercaseRelationships(q + w))
  {
    var t := l + (q + w);
    MatchAfterUnderscores(l, q, w);
    ColonMatch(t);
    assert t[0..|l|] == l && t[|l|..] == q + w;
  }

  /** After a rewrite the colon is followed by the lowered capture and the untouched rest: rewriting that again keeps it. */
  lemma RewriteStable(l: string, q: string, w: string)
    requires l != [] && forall i :: 0 <= i < |l| ==> l[i] == '_' || 'a' <= l[i] <= 'z'
    requires Lower(l) == l
    requires |q| > 0 && (forall i :: 0 <= i < |q| - 1 ==> IsSpace(q[i])) && IsClose(q[|q| - 1])
    ensures LowercaseRelationships(":" + (l + (q + w))) == ":" + (l + LowercaseRelationships(q + w))
  {
    if Scan(l, Capitals, 0) < |l| {
      RewriteLetter(l, q + w);
    } else {
      RewriteUnderscores(l, q, w);
    }
  }

  /** Idempotence at a colon where the pattern matches, given it for the text after the match. */
  lemma IdempotentAtMatch(t: string)
    requires MatchBody(t)
    requires var rest := t[RunEnd(t)..];
      LowercaseRelationships(LowercaseRelationships(rest)) == LowercaseRelationships(rest)
    ensures LowercaseRelationships(LowercaseRelationships(":" + t)) == LowercaseRelationships(":" + t)
  {
    var a, b := RunStart(t), RunEnd(t);
    var run := t[a..b];
    ScanAll(t, Capitals, a);
    forall i | 0 <= i < |run|
      ensures IsRunChar(run[i])
    {
      assert run[i] == t[a + i] && InClass(Capitals, t[a + i]);
    }
    LowerIdempotent(run);
    var q, w := AfterMatch(t);
    ColonFreeTail(q);
    CopyPrefix(q, w);
    ColonMatch(t);
    RewriteStable(Lower(run), q, LowercaseRelationships(w));
  }

  /** Idempotence at a colon where the pattern does not match, given it for the text after the colon. */
  lemma IdempotentNoMatch(t: string)
    requires !MatchBody(t)
    requires LowercaseRelationships(LowercaseRelationships(t)) == LowercaseRelationships(t)
    ensures LowercaseRelationships(LowercaseRelationships(":" + t)) == LowercaseRelationships(":" + t)
  {
    ColonNoMatch(t);
    var p, w := ColonSplit(t);
    CopyPrefix(p, w);
    MatchPrefix(p, w);
    MatchPrefix(p, LowercaseRelationships(w));
    ColonNoMatch(LowercaseRelationships(t));
  }

  /** `_lowercase_relationships` is idempotent: a second pass finds nothing more to change. */
  lemma {:induction false} LowercaseIdempotent(s: string)
    ensures LowercaseRelationships(LowercaseRelationships(s)) == LowercaseRelationships(s)
    decreases |s|
  {
    if s != [] {
      var t := s[1..];
      assert s == [s[0]] + t;
      if s[0] == ':' && MatchBody(t) {
        LowercaseIdempotent(t[RunEnd(t)..]);
        IdempotentAtMatch(t);
      } else if s[0] == ':' {
        LowercaseIdempotent(t);
        IdempotentNoMatch(t);
      } else {
        LowercaseIdempotent(t);
        var T := LowercaseRelationships(t);
        assert LowercaseRelationships(s) == [s[0]] + T;
        assert ([s[0]] + T)[0] == s[0] && ([s[0]] + T)[1..] == T;
      }
    }
  }

  /** `\s*` stops at the bracket. */
  lemma SpacesRun(sp2: string, close: char, rest: string)
    requires forall i :: 0 <= i < |sp2| ==> IsSpace(sp2[i])
    requires IsClose(close)
    ensures Scan(sp2 + ([close] + rest), Spaces, 0) == |sp2|
  {
    ScanExact(sp2, [close] + rest, Spaces, 0);
  }

  /** After `x`, the second `\s*` of the pattern stops at the bracket. */
  lemma SpacesToClose(x: string, sp2: string, close: char, rest: string)
    requires forall i :: 0 <= i < |sp2| ==> IsSpace(sp2[i])
    requires IsClose(close)
    ensures Scan(x + (sp2 + ([close] + rest)), Spaces, |x|) == |x| + |sp2|
  {
    SpacesRun(sp2, close, rest);
    ScanAt(x, sp2 + ([close] + rest), Spaces);
  }

  /** The greedy runs of the pattern find the spaces, the label and the bracket laid out in `t`. */
  lemma MatchLayout(sp1: string, run: string, sp2: string, close: char, rest: string)
    requires forall i :: 0 <= i < |sp1| ==> IsSpace(sp1[i])
    requires run != [] && forall i :: 0 <= i < |run| ==> IsRunChar(run[i])
    requires forall i :: 0 <= i < |sp2| ==> IsSpace(sp2[i])
    requires IsClose(close)
    ensures var t := sp1 + (run + (sp2 + ([close] + rest)));
      && RunStart(t) == |sp1| && RunEnd(t) == |sp1| + |run| && MatchBody(t)
  {
    var after := sp2 + ([close] + rest);
    var t := sp1 + (run + after);
    assert (run + after)[0] == run[0];
    ScanExact(sp1, run + after, Spaces, 0);
    var a := |sp1|;
    assert t == (sp1 + run) + after;
    assert forall j :: a <= j < |sp1 + run| ==> (sp1 + run)[j] == run[j - a];
    assert after[0] == (sp2 + [close])[0];
    ScanExact(sp1 + run, after, Capitals, a);
    SpacesToClose(sp1 + run, sp2, close, rest);
    assert t[a + |run| + |sp2|] == close;
  }

  lemma Slices(x: string, y: string, z: string)
    ensures (x + (y + z))[|x|..|x| + |y|] == y && (x + (y + z))[|x| + |y|..] == z
  {
  }

  /** A match whose tail up to the next colon is copied. */
  lemma MatchThenCopy(t: string, run: string, tail: string, rest: string)
    requires MatchBody(t) && t[RunStart(t)..RunEnd(t)] == run && t[RunEnd(t)..] == tail + rest
    requires ':' !in tail
    ensures LowercaseRelationships(":" + t) == ":" + (Lower(run) + (tail + LowercaseRelationships(rest)))
  {
    ColonMatch(t);
    CopyPrefix(tail, rest);
  }

  /** `MatchRewritten` on right-nested concatenations. */
  lemma MatchRewrittenNested(sp1: string, run: string, sp2: string, close: char, rest: string)
    requires forall i :: 0 <= i < |sp1| ==> IsSpace(sp1[i])
    requires run != [] && forall i :: 0 <= i < |run| ==> IsRunChar(run[i])
    requires forall i :: 0 <= i < |sp2| ==> IsSpace(sp2[i])
    requires IsClose(close)
    ensures LowercaseRelationships(":" + (sp1 + (run + (sp2 + ([close] + rest)))))
      == ":" + (Lower(run) + ((sp2 + [close]) + LowercaseRelationships(rest)))
  {
    var tail := sp2 + [close];
    var t := sp1 + (run + (sp2 + ([close] + rest)));
    MatchLayout(sp1, run, sp2, close, rest);
    Slices(sp1, run, sp2 + ([close] + rest));
    Nest3(sp2, [close], rest);
    ColonFreeTail(tail);
    MatchThenCopy(t, run, tail, rest);
  }

  /**
   * What the pattern describes: a colon, spaces, an `[A-Z_]+` label, spaces
   * and a closing `]` or `{` become the colon, the lowered label and the
   * rest; the spaces after the colon are dropped, those after the label kept.
   */
  lemma MatchRewritten(sp1: string, run: string, sp2: string, close: char, rest: string)
    requires forall i :: 0 <= i < |sp1| ==> IsSpace(sp1[i])
    requires run != [] && forall i :: 0 <= i < |run| ==> IsRunChar(run[i])
    requires forall i :: 0 <= i < |sp2| ==> IsSpace(sp2[i])
    requires IsClose(close)
    ensures LowercaseRelationships(":" + sp1 + run + sp2 + [close] + rest)
      == ":" + Lower(run) + sp2 + [close] + LowercaseRelationships(rest)
  {
    MatchRewrittenNested(sp1, run, sp2, close, rest);
    Nest6(":", sp1, run, sp2, [close], rest);
    Nest5(":", Lower(run), sp2, [close], LowercaseRelationships(rest));
  }

  lemma Nest3(a: string, b: string, c: string)
    ensures a + (b + c) == a + b + c
  {
  }

  lemma Nest6(a: string, b: string, c: string, d: string, e: string, f: string)
    ensures a + b + c + d + e + f == a + (b + (c + (d + (e + f))))
  {
  }

  lemma Nest5(a: string, b: string, c: string, d: string, e: string)
    ensures a + b + c + d + e == a + (b + ((c + d) + e))
  {
  }

  /**
   * A label in mixed case is no relationship type: in `:Person)` or
   * `:ACTED_in]` the capitals are followed by a lower-case letter, and the
   * colon and all after it is copied.
   */
  lemma MixedCaseKept(run: string, d: char, rest: string)
    requires run != [] && forall i :: 0 <= i < |run| ==> IsRunChar(run[i])
    requires 'a' <= d <= 'z'
    ensures LowercaseRelationships(":" + (run + ([d] + rest))) == ":" + LowercaseRelationships(run + ([d] + rest))
  {
    var t := run + ([d] + rest);
    assert t[0] == run[0] && t[|run|] == d;
    assert RunStart(t) == 0;
    ScanExact(run, [d] + rest, Capitals, 0);
    assert CloseAt(t) == |run|;
    ColonNoMatch(t);
  }

  // ---------------------------------------------------------------------
  // `_apply_sanity`
  // ---------------------------------------------------------------------

  /** `SANITY_HANDLERS`: sanity name to handler method name. */
  const SanityHandlers: map<string, string> := map["lowercase_relationships" := "_lowercase_relationships"]

  /** `getattr(self, handler)(query)` for a handler method of the connector. */
  function Handle(handler: string, query: string): string
  {
    if handler == "_lowercase_relationships" then LowercaseRelationships(query) else query
  }

  /** The query after the sanity loop has visited `names`: known names apply their handler in order, unknown ones are skipped. */
  function Sanitized(names: seq<string>, query: string): (r: string)
    ensures (forall i :: 0 <= i < |names| ==> names[i] !in SanityHandlers) ==> r == query
    decreases |names|
  {
    if names == [] then query
    else
      var n := |names| - 1;
      var before := Sanitized(names[..n], query);
      if names[n] in SanityHandlers then Handle(SanityHandlers[names[n]], before) else before
  }

  /**
   * However often and wherever `lowercase_relationships` is listed, the
   * query is lower-cased once; without it the query is unchanged.
   */
  lemma {:induction false} SanitizedOnce(names: seq<string>, query: string)
    ensures Sanitized(names, query) ==
      if "lowercase_relationships" in names then LowercaseRelationships(query) else query
    decreases |names|
  {
    if names != [] {
      var n := |names| - 1;
      SanitizedOnce(names[..n], query);
      assert names == names[..n] + [names[n]];
      if "lowercase_relationships" in names[..n] && names[n] in SanityHandlers {
        LowercaseIdempotent(query);
      }
    }
  }

  // ---------------------------------------------------------------------
  // `execute`: row shaping
  // ---------------------------------------------------------------------

  /** What the driver returns for one query: `result.keys()` and the records, each as its (key, value) pairs. */
  datatype DriverResult = DriverResult(keys: seq<string>, records: seq<Row>)

  /** `session.run(query, timeout=…)` on the database, or the error it raises. */
  type Session = (string, string, int) -> Result<DriverResult, string>

  /** The row the inner loop builds: `row[key] = convert(record[key])` for each column in turn. */
  function ShapedRow(columns: seq<string>, record: Row, convert: Json -> Json): Row
    decreases |columns|
  {
    if columns == [] then []
    else
      var n := |columns| - 1;
      RowSet(ShapedRow(columns[..n], record, convert), columns[n], convert(RowGet(record, columns[n])))
  }

  /** The shaped row names each column once. */
  lemma {:induction false} ShapedRowWellFormed(columns: seq<string>, record: Row, convert: Json -> Json)
    ensures WellFormedRow(ShapedRow(columns, record, convert))
    decreases |columns|
  {
    if columns != [] {
      var n := |columns| - 1;
      ShapedRowWellFormed(columns[..n], record, convert);
      RowSetGet(ShapedRow(columns[..n], record, convert), columns[n], convert(RowGet(record, columns[n])));
    }
  }

  /** The shaped row has exactly the given columns. */
  lemma {:induction false} ShapedRowCols(columns: seq<string>, record: Row, convert: Json -> Json, c: string)
    ensures c in Cols(ShapedRow(columns, record, convert)) <==> c in columns
    decreases |columns|
  {
    if columns != [] {
      var n := |columns| - 1;
      ShapedRowCols(columns[..n], record, convert, c);
      assert columns == columns[..n] + [columns[n]];
    }
  }

  /** Each column of the shaped row holds the converted value of the record's field. */
  lemma {:induction false} ShapedRowGet(columns: seq<string>, record: Row, convert: Json -> Json, c: string)
    requires c in columns
    ensures RowGet(ShapedRow(columns, record, convert), c) == convert(RowGet(record, c))
    decreases |columns|
  {
    var n := |columns| - 1;
    var prefix := ShapedRow(columns[..n], record, convert);
    ShapedRowWellFormed(columns[..n], record, convert);
    RowSetGet(prefix, columns[n], convert(RowGet(record, columns[n])));
    if c != columns[n] {
      assert columns == columns[..n] + [columns[n]];
      assert c in columns[..n];
      ShapedRowGet(columns[..n], record, convert, c);
    }
  }

  /** The columns of the result: the driver's keys, or none when there is no record. */
  function Columns(d: DriverResult): (cs: seq<string>)
    ensures d.records == [] ==> cs == []
    ensures d.records != [] ==> cs == d.keys
  {
    if d.records != [] then d.keys else []
  }

  /** The `QueryResult` of `execute`, without `raw`. */
  function Shaped(d: DriverResult, convert: Json -> Json): QueryResult
  {
    QueryResult(Columns(d), seq(|d.records|, i requires 0 <= i < |d.records| => ShapedRow(Columns(d), d.records[i], convert)))
  }

  /** `to_values` of the shaped result reads each record's converted field, column by column. */
  lemma ShapedValues(d: DriverResult, convert: Json -> Json, i: nat, j: nat)
    requires i < |d.records| && j < |Columns(d)|
    ensures |Shaped(d, convert).rows| == |d.records|
    ensures ToValues(Shaped(d, convert))[i][j] == convert(RowGet(d.records[i], d.keys[j]))
  {
    ShapedRowGet(Columns(d), d.records[i], convert, d.keys[j]);
  }

  /** The two loops of `execute` over the records and the columns. */
  method ShapeRows(d: DriverResult, convert: Json -> Json) returns (q: QueryResult)
    ensures q == Shaped(d, convert)
  {
    var columns := if d.records != [] then d.keys else [];
    var rows: seq<Row> := [];
    var i := 0;
    while i < |d.records|
      invariant 0 <= i <= |d.records| && |rows| == i
      invariant forall k :: 0 <= k < i ==> rows[k] == ShapedRow(columns, d.records[k], convert)
    {
      var record := d.records[i];
      var row: Row := [];
      var j := 0;
      while j < |columns|
        invariant 0 <= j <= |columns|
        invariant row == ShapedRow(columns[..j], record, convert)
      {
        assert columns[..j + 1][..j] == columns[..j];
        row := RowSet(row, columns[j], convert(RowGet(record, columns[j])));
        j := j + 1;
      }
      assert columns[..|columns|] == columns;
      rows := rows + [row];
      i := i + 1;
    }
    q := QueryResult(columns, rows);
  }

  /** The error of `self._driver.session` before `connect` or after `close`. */
  const NoDriver := "'NoneType' object has no attribute 'session'"

  /** `timeout or self.timeout`, in milliseconds. */
  function TimeoutMs(timeout: Option<int>, default: int): (ms: int)
    ensures timeout.Some? && timeout.value != 0 ==> ms == timeout.value * 1000
    ensures timeout.None? || timeout == Some(0) ==> ms == default * 1000
  {
    (if timeout.Some? && timeout.value != 0 then timeout.value else default) * 1000
  }

  /** `self.database or "neo4j"`. */
  function DatabaseOf(database: Option<string>): (name: string)
    ensures database.Some? && database.value != "" ==> name == database.value
    ensures database.None? || database == Some("") ==> name == "neo4j"
  {
    if database.Some? && database.value != "" then database.value else "neo4j"
  }

  class Neo4jConnector {
    const name: Option<string>
    const host: Option<string>
    const port: Option<int>
    const username: Option<string>
    const password: Option<string>
    const database: Option<string>
    const timeout: int
    const sanity: seq<string>
    /** Whether `_driver` holds a driver. */
    var connected: bool

    /**
     * `__init__`: each keyword argument as given (None when absent), the
     * timeout 30 and the sanity list empty by default, and no driver.
     */
    constructor (name: Option<string>, host: Option<string>, port: Option<int>, username: Option<string>,
                 password: Option<string>, database: Option<string>, timeout: Option<int>, sanity: Option<seq<string>>)
      ensures this.name == name && this.host == host && this.port == port
      ensures this.username == username && this.password == password && this.database == database
      ensures this.timeout == (if timeout.Some? then timeout.value else 30)
      ensures this.sanity == (if sanity.Some? then sanity.value else [])
      ensures !connected
    {
      this.name, this.host, this.port := name, host, port;
      this.username, this.password, this.database := username, password, database;
      this.timeout := if timeout.Some? then timeout.value else 30;
      this.sanity := if sanity.Some? then sanity.value else [];
      connected := false;
    }

    /** `connect`: a driver for `bolt://host:port`. */
    method Connect()
      modifies this
      ensures connected
    {
      connected := true;
    }

    /** `close`: the driver is closed and dropped, if there is one. */
    method Close()
      modifies this
      ensures !connected
    {
      connected := false;
    }

    /** `_apply_sanity`: each configured rewrite that has a handler, in list order. */
    method ApplySanity(query: string) returns (q: string)
      ensures q == Sanitized(sanity, query)
      ensures q == if "lowercase_relationships" in sanity then LowercaseRelationships(query) else query
    {
      q := query;
      var i := 0;
      while i < |sanity|
        invariant 0 <= i <= |sanity|
        invariant q == Sanitized(sanity[..i], query)
      {
        assert sanity[..i + 1][..i] == sanity[..i];
        var name := sanity[i];
        if name in SanityHandlers {
          q := Handle(SanityHandlers[name], q);
        }
        i := i + 1;
      }
      assert sanity[..|sanity|] == sanity;
      SanitizedOnce(sanity, query);
    }

    /**
     * `execute`: the rewritten query is run on the configured database (by
     * default "neo4j") with the timeout in milliseconds, and the records
     * are shaped into rows; the driver's errors propagate.
     */
    method Execute(query: string, timeout: Option<int>, session: Session, convert: Json -> Json) returns (r: Result<QueryResult, string>)
      ensures !connected ==> r == Err(NoDriver)
      ensures connected ==>
        match session(DatabaseOf(database), Sanitized(sanity, query), TimeoutMs(timeout, this.timeout))
        case Err(e) => r == Err(e)
        case Ok(d) => r == Ok(Shaped(d, convert))
    {
      var q := ApplySanity(query);
      var timeoutMs := TimeoutMs(timeout, this.timeout);
      var db := DatabaseOf(database);
      if !connected {
        return Err(NoDriver);
      }
      var result := session(db, q, timeoutMs);
      if result.Err? {
        return Err(result.error);
      }
      var shaped := ShapeRows(result.value, convert);
      r := Ok(shaped);
    }
  }
}
