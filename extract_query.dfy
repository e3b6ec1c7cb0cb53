/**
 * `_extract_query` (src/nl2graph/pipeline/inference.py and
 * src/nl2graph/pipeline/generator.py, the same code in both): pull the query
 * out of an LLM reply. The two regular expressions are written out as the
 * searches they perform:
 *
 *   1. a fenced block: the first "```", an optional cypher/sparql/gremlin tag
 *      (ASCII letters in either case), the whitespace after it, then everything up to the next
 *      "```";
 *   2. otherwise the first inline `...` with at least one character inside;
 *   3. otherwise the whole reply.
 *
 * Whatever is picked is stripped.
 */
module QueryExtraction {
  import opened Wrappers
  import opened Strs

  const Tick := '`'

  /** Three backticks start at `i`. */
  predicate FenceAt(s: string, i: int) {
    0 <= i && i + 3 <= |s| && s[i] == Tick && s[i + 1] == Tick && s[i + 2] == Tick
  }

  /** The first fence at or after `from`. */
  function FindFence(s: string, from: nat): (r: Option<nat>)
    ensures r.Some? ==> from <= r.value && FenceAt(s, r.value) && forall i :: from <= i < r.value ==> !FenceAt(s, i)
    ensures r.None? ==> forall i :: from <= i ==> !FenceAt(s, i)
    decreases |s| - from
  {
    if from + 3 > |s| then None
    else if FenceAt(s, from) then Some(from)
    else FindFence(s, from + 1)
  }

  /** The first backtick at or after `from`. */
  function FindTick(s: string, from: nat): (r: Option<nat>)
    ensures r.Some? ==> from <= r.value < |s| && s[r.value] == Tick && forall i :: from <= i < r.value ==> s[i] != Tick
    ensures r.None? ==> forall i :: from <= i < |s| ==> s[i] != Tick
    decreases |s| - from
  {
    if from >= |s| then None
    else if s[from] == Tick then Some(from)
    else FindTick(s, from + 1)
  }

  /** Starting the fence search later changes nothing when the skipped characters hold no backtick. */
  lemma {:induction false} FenceSkip(s: string, a: nat, b: nat)
    requires a <= b
    requires forall i :: a <= i < b && i < |s| ==> s[i] != Tick
    ensures FindFence(s, a) == FindFence(s, b)
  {
  }

  /** The tag `(?:cypher|sparql|gremlin)` matched, case-insensitively, at `q`. */
  predicate TagAt(s: string, q: nat, tag: string) {
    q + |tag| <= |s| && forall k :: 0 <= k < |tag| ==> LowerChar(s[q + k]) == tag[k]
  }

  /** A tag spells letters only, so no character it covers is a backtick. */
  lemma {:induction false} TagLetters(s: string, q: nat, tag: string)
    requires TagAt(s, q, tag)
    requires forall i :: 0 <= i < |tag| ==> 'a' <= tag[i] <= 'z'
    ensures forall i :: q <= i < q + |tag| ==> s[i] != Tick
  {
    forall i | q <= i < q + |tag|
      ensures s[i] != Tick
    {
      assert LowerChar(s[q + (i - q)]) == tag[i - q];
    }
  }

  /** The length of the optional tag at `q` (the alternatives are tried in order and the group is greedy). */
  function TagLen(s: string, q: nat): (n: nat)
    ensures n > 0 ==> q + n <= |s| && forall i :: q <= i < q + n ==> s[i] != Tick
  {
    if TagAt(s, q, "cypher") then TagLetters(s, q, "cypher"); 6
    else if TagAt(s, q, "sparql") then TagLetters(s, q, "sparql"); 6
    else if TagAt(s, q, "gremlin") then TagLetters(s, q, "gremlin"); 7
    else 0
  }

  /** `\s*`: the first position at or after `q` that is not whitespace. */
  function SkipSpace(s: string, q: nat): (r: nat)
    requires q <= |s|
    ensures q <= r <= |s|
    ensures forall i :: q <= i < r ==> IsSpace(s[i])
    ensures r == |s| || !IsSpace(s[r])
    decreases |s| - q
  {
    if q < |s| && IsSpace(s[q]) then SkipSpace(s, q + 1) else q
  }

  /** The first pattern's group, if the pattern matches. */
  function FencedBlock(s: string): Option<string>
  {
    match FindFence(s, 0)
    case None => None
    case Some(p) =>
      match FindFence(s, p + 3)
      case None => None
      case Some(j) =>
        var q := GroupStart(s, p + 3);
        Some(s[q..j])
  }

  /** Where the first pattern's group starts: after the optional tag and the whitespace that follows it. */
  function GroupStart(s: string, a: nat): (q: nat)
    requires a <= |s|
    ensures a <= q <= |s|
    ensures FindFence(s, q) == FindFence(s, a)
  {
    var q := SkipSpace(s, a + TagLen(s, a));
    FenceSkip(s, a, q);
    q
  }

  /** The second pattern's group, searching from position `p`. */
  function InlineFrom(s: string, p: nat): Option<string>
    decreases |s| - p
  {
    if p + 1 >= |s| then None
    else if s[p] == Tick && s[p + 1] != Tick && FindTick(s, p + 2).Some? then Some(s[p + 1..FindTick(s, p + 2).value])
    else InlineFrom(s, p + 1)
  }

  /** `_extract_query`: the first pattern that matches, stripped; the reply itself, stripped, when neither does. */
  function ExtractQuery(raw: string): (r: string)
    ensures r == [] || (!IsSpace(r[0]) && !IsSpace(r[|r| - 1]))
  {
    var picked :=
      match FencedBlock(raw)
      case Some(block) => block
      case None =>
        match InlineFrom(raw, 0)
        case Some(code) => code
        case None => raw;
    StripClean(picked);
    Strip(picked)
  }

  // ---- What the searches find ------------------------------------------------

  /** The first pattern matches exactly when the text holds two fences that do not overlap. */
  lemma {:induction false} FencedBlockMatches(s: string)
    ensures FencedBlock(s).Some? <==> exists i, j :: FenceAt(s, i) && FenceAt(s, j) && i + 3 <= j
  {
    if i, j :| FenceAt(s, i) && FenceAt(s, j) && i + 3 <= j {
      var p := FindFence(s, 0).value;
      assert FindFence(s, p + 3).Some?;
    }
  }

  /** The second pattern matches exactly when some backtick is followed by a non-backtick and, later, another backtick. */
  lemma {:induction false} InlineMatches(s: string, p: nat)
    ensures InlineFrom(s, p).Some? <==>
      exists i, j :: p <= i && i + 1 < j < |s| && s[i] == Tick && s[i + 1] != Tick && s[j] == Tick
    decreases |s| - p
  {
    if p + 1 < |s| {
      InlineMatches(s, p + 1);
    }
  }

  /** Searching from a later position finds the same inline code when the skipped characters hold no backtick. */
  lemma {:induction false} InlineSkip(s: string, p: nat, p': nat)
    requires p <= p' <= |s|
    requires forall i :: p <= i < p' ==> s[i] != Tick
    ensures InlineFrom(s, p) == InlineFrom(s, p')
    decreases p' - p
  {
    if p < p' {
      InlineSkip(s, p + 1, p');
    }
  }

  // ---- Helpers for the outcome lemmas ----------------------------------------

  /** With backticks only at `a` and `b`, and something between them, the reply yields what lies between them. */
  lemma {:induction false} InlineOnly(s: string, a: nat, b: nat)
    requires a + 1 < b < |s| && s[a] == Tick && s[b] == Tick
    requires forall i :: 0 <= i < |s| && i != a && i != b ==> s[i] != Tick
    ensures ExtractQuery(s) == Strip(s[a + 1..b])
  {
    assert FencedBlock(s) == None by {
      assert FindFence(s, 0) == None;
    }
    assert InlineFrom(s, 0) == Some(s[a + 1..b]) by {
      InlineSkip(s, 0, a);
      assert FindTick(s, a + 2) == Some(b);
    }
  }

  /** The first fence of `s` is where `pre` ends when `s` extends `pre`, `pre` holds no fence and does not end on a backtick. */
  lemma {:induction false} FirstFence(pre: string, s: string)
    requires forall i :: !FenceAt(pre, i)
    requires pre == [] || pre[|pre| - 1] != Tick
    requires |pre| <= |s| && forall i :: 0 <= i < |pre| ==> s[i] == pre[i]
    requires FenceAt(s, |pre|)
    ensures FindFence(s, 0) == Some(|pre|)
  {
    var p := |pre|;
    forall i | 0 <= i < p
      ensures !FenceAt(s, i)
    {
      if i + 3 <= p {
        assert !FenceAt(pre, i);
      } else {
        assert s[p - 1] == pre[p - 1];
      }
    }
  }

  /** The tag right after the opening fence is read as exactly `tag`, and it holds no backtick. */
  lemma {:induction false} TagPart(s: string, a: nat, tag: string)
    requires tag == "" || tag == "cypher" || tag == "sparql" || tag == "gremlin"
    requires a + |tag| <= |s| && forall k :: 0 <= k < |tag| ==> s[a + k] == tag[k]
    requires a + |tag| < |s| ==> IsSpace(s[a + |tag|]) || s[a + |tag|] == Tick
    ensures TagLen(s, a) == |tag|
    ensures forall i :: a <= i < a + |tag| ==> s[i] != Tick
  {
    TagAtExactly(s, a, tag);
  }

  /**
   * After the opening fence at `a - 3`: a tag of the length `TagLen` reads
   * ending at `t`, a backtick-free body starting on whitespace and the
   * closing fence make the group the body without its leading whitespace, so
   * the reply yields the body, stripped.
   */
  lemma {:induction false} FencedReply(s: string, a: nat, t: nat, body: string)
    requires 3 <= a && FindFence(s, 0) == Some(a - 3)
    requires a <= t && TagLen(s, a) == t - a
    requires forall i :: a <= i < t ==> s[i] != Tick
    requires FenceAt(s, t + |body|)
    requires forall i :: 0 <= i < |body| ==> s[t + i] == body[i]
    requires forall i :: 0 <= i < |body| ==> body[i] != Tick
    requires body == [] || IsSpace(body[0])
    ensures ExtractQuery(s) == Strip(body)
  {
    var j := t + |body|;
    ClosingFence(s, a, t, body);
    var q := BodyStart(s, t, body);
    FencedBlockIs(s, a, j, q);
    PickFenced(s, body, q - t);
  }

  /** The closing fence is the first fence after the opening one when nothing between them is a backtick. */
  lemma {:induction false} ClosingFence(s: string, a: nat, t: nat, body: string)
    requires a <= t && FenceAt(s, t + |body|)
    requires forall i :: a <= i < t ==> s[i] != Tick
    requires forall i :: 0 <= i < |body| ==> s[t + i] == body[i]
    requires forall i :: 0 <= i < |body| ==> body[i] != Tick
    ensures FindFence(s, a) == Some(t + |body|)
  {
    var j := t + |body|;
    forall i | t <= i < j
      ensures s[i] != Tick
    {
      assert s[t + (i - t)] == body[i - t];
    }
    FenceSkip(s, a, j);
    assert FindFence(s, j) == Some(j);
  }

  /** `\s*` after the tag stops inside the body, and what it skips is the body's leading whitespace. */
  lemma {:induction false} BodyStart(s: string, t: nat, body: string) returns (q: nat)
    requires FenceAt(s, t + |body|)
    requires forall i :: 0 <= i < |body| ==> s[t + i] == body[i]
    ensures q == SkipSpace(s, t) && t <= q <= t + |body|
    ensures forall i :: 0 <= i < q - t ==> IsSpace(body[i])
    ensures s[q..t + |body|] == body[q - t..]
  {
    var j := t + |body|;
    q := SkipSpace(s, t);
    assert !IsSpace(s[j]);
    forall i | 0 <= i < q - t
      ensures IsSpace(body[i])
    {
      assert s[t + i] == body[i];
    }
    forall i | 0 <= i < j - q
      ensures s[q..j][i] == body[q - t..][i]
    {
      assert s[t + (q - t + i)] == body[q - t + i];
    }
  }

  /** The first pattern's group once its two fences and its start are known. */
  lemma {:induction false} FencedBlockIs(s: string, a: nat, j: nat, q: nat)
    requires 3 <= a && FindFence(s, 0) == Some(a - 3) && FindFence(s, a) == Some(j)
    requires q == GroupStart(s, a) && q <= j
    ensures FencedBlock(s) == Some(s[q..j])
  {
  }

  /** Where each part of a fenced reply sits. */
  lemma {:induction false} FencedLayout(pre: string, tag: string, body: string, post: string)
    ensures var s := pre + "```" + tag + body + "```" + post;
      var a := |pre| + 3;
      (forall i :: 0 <= i < |pre| ==> s[i] == pre[i])
      && FenceAt(s, |pre|)
      && (forall k :: 0 <= k < |tag| ==> s[a + k] == tag[k])
      && (forall i :: 0 <= i < |body| ==> s[a + |tag| + i] == body[i])
      && FenceAt(s, a + |tag| + |body|)
  {
  }

  /** A reply whose first pattern's group is `body` without some of its leading whitespace yields `body`, stripped. */
  lemma {:induction false} PickFenced(s: string, body: string, k: nat)
    requires k <= |body| && forall i :: 0 <= i < k ==> IsSpace(body[i])
    requires FencedBlock(s) == Some(body[k..])
    ensures ExtractQuery(s) == Strip(body)
  {
    StripSkip(body, k);
  }

  /** The tag at `q` is read as exactly `tag` when its characters are those of `tag` and the next one is whitespace or a backtick. */
  lemma {:induction false} TagAtExactly(s: string, q: nat, tag: string)
    requires tag == "" || tag == "cypher" || tag == "sparql" || tag == "gremlin"
    requires q + |tag| <= |s| && forall k :: 0 <= k < |tag| ==> s[q + k] == tag[k]
    requires q + |tag| < |s| ==> IsSpace(s[q + |tag|]) || s[q + |tag|] == Tick
    ensures TagLen(s, q) == |tag|
  {
    if tag == "" {
      if q < |s| {
        var c := s[q + 0];
        assert LowerChar(c) == c;
        assert c != 'c' && c != 's' && c != 'g';
        assert "cypher"[0] == 'c' && "sparql"[0] == 's' && "gremlin"[0] == 'g';
      }
    } else {
      var c := s[q + 0];
      assert c == tag[0];
      assert LowerChar(c) == c;
      if tag != "cypher" {
        assert !TagAt(s, q, "cypher") by {
          assert "cypher"[0] == 'c' && tag[0] != 'c';
        }
      }
      if tag == "gremlin" {
        assert !TagAt(s, q, "sparql") by {
          assert "sparql"[0] == 's' && tag[0] == 'g';
        }
      }
      assert TagAt(s, q, tag) by {
        forall k | 0 <= k < |tag|
          ensures LowerChar(s[q + k]) == tag[k]
        {
          assert 'a' <= tag[k] <= 'z';
        }
      }
    }
  }
}
