/**
 * What `_extract_query` returns for the three shapes of reply: no backtick,
 * one inline code span, a fenced block.
 */
module QueryExtractionFacts {
  import opened Wrappers
  import opened Strs
  import opened QueryExtraction

  /** A reply with no backtick at all is returned stripped. */
  lemma {:induction false} ExtractPlain(raw: string)
    requires forall i :: 0 <= i < |raw| ==> raw[i] != Tick
    ensures ExtractQuery(raw) == Strip(raw)
  {
    assert FindFence(raw, 0) == None;
    InlineSkip(raw, 0, |raw|);
  }

  /** Inline code between two backticks, in a reply with no other backtick, is returned stripped. */
  lemma {:induction false} ExtractInline(pre: string, code: string, post: string)
    requires code != []
    requires forall i :: 0 <= i < |pre| ==> pre[i] != Tick
    requires forall i :: 0 <= i < |code| ==> code[i] != Tick
    requires forall i :: 0 <= i < |post| ==> post[i] != Tick
    ensures ExtractQuery(pre + [Tick] + code + [Tick] + post) == Strip(code)
  {
    var s := pre + [Tick] + code + [Tick] + post;
    var a := |pre|;
    var b := |pre| + 1 + |code|;
    assert s[a] == Tick && s[b] == Tick;
    assert forall i :: 0 <= i < |s| && i != a && i != b ==> s[i] != Tick by {
      forall i | 0 <= i < |s| && i != a && i != b
        ensures s[i] != Tick
      {
        if i < a {
          assert s[i] == pre[i];
        } else if i < b {
          assert s[i] == code[i - a - 1];
        } else {
          assert s[i] == post[i - b - 1];
        }
      }
    }
    assert s[a + 1..b] == code;
    InlineOnly(s, a, b);
  }

  /**
   * A fenced block whose tag is absent or one of cypher/sparql/gremlin, whose
   * body holds no backtick and starts on whitespace, and which is the first
   * fence of the reply, yields its stripped body, whatever backticks come
   * after it.
   */
  lemma {:induction false} ExtractFenced(pre: string, tag: string, body: string, post: string)
    requires forall i :: !FenceAt(pre, i)
    requires pre == [] || pre[|pre| - 1] != Tick
    requires tag == "" || tag == "cypher" || tag == "sparql" || tag == "gremlin"
    requires forall i :: 0 <= i < |body| ==> body[i] != Tick
    requires body == [] || IsSpace(body[0])
    ensures ExtractQuery(pre + "```" + tag + body + "```" + post) == Strip(body)
  {
    var s := pre + "```" + tag + body + "```" + post;
    FencedLayout(pre, tag, body, post);
    FirstFence(pre, s);
    var a := |pre| + 3;
    var t := a + |tag|;
    assert t < |s| ==> IsSpace(s[t]) || s[t] == Tick by {
      if body == [] {
        assert s[t] == s[t + |body|];
      } else {
        assert s[t + 0] == body[0];
      }
    }
    TagPart(s, a, tag);
    FencedReply(s, a, t, body);
  }
}
