/**
 * The command-line helpers: loading the source records a command works
 * on, optionally narrowed to one hop count and one split, and telling an
 * LLM provider from a model name.
 */
module CliHelpers {
  import opened Wrappers
  import opened Strs
  import opened Json
  import opened DataEntity
  import opened Repository

  /** The filters `load_records` passes on: a key for each option that was given. */
  function FiltersOf(hop: Option<int>, split: Option<string>): (f: map<string, Json>)
    ensures "hop" in f <==> hop.Some?
    ensures "split" in f <==> split.Some?
    ensures hop.Some? ==> f["hop"] == JInt(hop.value)
    ensures split.Some? ==> f["split"] == JStr(split.value)
    ensures f.Keys <= {"hop", "split"}
  {
    var f0: map<string, Json> := map[];
    var f1 := if hop.Some? then f0["hop" := JInt(hop.value)] else f0;
    if split.Some? then f1["split" := JStr(split.value)] else f1
  }

  /** A record matches the options: its `hop` equals the given hop and its `split` the given split. */
  predicate Selected(x: Record, hop: Option<int>, split: Option<string>)
  {
    var d := ToDict(x);
    (hop.Some? ==> "hop" in d && PyEq(d["hop"], JInt(hop.value))) &&
    (split.Some? ==> "split" in d && PyEq(d["split"], JStr(split.value)))
  }

  /** The records of `src` that `load_records` returns, in scan order. */
  method LoadRecords(src: SourceRepository, hop: Option<int>, split: Option<string>) returns (out: seq<Record>)
    ensures out == FilterRecords(src.records, FiltersOf(hop, split))
    ensures hop.None? && split.None? ==> out == src.records
  {
    var filters: map<string, Json> := map[];
    if hop.Some? {
      filters := filters["hop" := JInt(hop.value)];
    }
    if split.Some? {
      filters := filters["split" := JStr(split.value)];
    }
    assert filters == FiltersOf(hop, split);
    if filters != map[] {
      out := src.IterByFilter(filters);
    } else {
      out := src.IterAll();
      FilterIgnoresNone(src.records, filters);
    }
  }

  /** The filters keep exactly the records that match the options. */
  lemma FiltersSelect(x: Record, hop: Option<int>, split: Option<string>)
    ensures MatchesFilters(ToDict(x), FiltersOf(hop, split)) <==> Selected(x, hop, split)
  {
    var f := FiltersOf(hop, split);
    if Selected(x, hop, split) {
      forall k | k in f && !f[k].JNull?
        ensures k in ToDict(x) && PyEq(ToDict(x)[k], f[k])
      {
        assert k == "hop" || k == "split";
      }
    }
  }

  /** A loaded record is a source record matching the options, and every such record is loaded. */
  lemma LoadMembership(records: seq<Record>, hop: Option<int>, split: Option<string>, x: Record)
    ensures x in FilterRecords(records, FiltersOf(hop, split)) <==> x in records && Selected(x, hop, split)
  {
    FilterMembership(records, FiltersOf(hop, split), x);
    FiltersSelect(x, hop, split);
  }

  /** `detect_provider`: `gpt*` models are OpenAI's, `deepseek*` models DeepSeek's, others unknown. */
  function DetectProvider(model: string): (r: Option<string>)
    ensures r == Some("openai") <==> StartsWith(model, "gpt")
    ensures r == Some("deepseek") <==> StartsWith(model, "deepseek")
    ensures r.None? <==> !StartsWith(model, "gpt") && !StartsWith(model, "deepseek")
  {
    PrefixesExclusive(model);
    if StartsWith(model, "gpt") then Some("openai")
    else if StartsWith(model, "deepseek") then Some("deepseek")
    else None
  }

  /** No name has both prefixes, so the order of the two tests does not matter. */
  lemma PrefixesExclusive(model: string)
    ensures !(StartsWith(model, "gpt") && StartsWith(model, "deepseek"))
  {
    if |model| >= 8 {
      assert model[..3][0] == model[..8][0];
    }
  }

  /** The prefix decides: any name continuing a recognised one has the same provider. */
  lemma ProviderOfExtension(model: string, suffix: string)
    requires DetectProvider(model).Some?
    ensures DetectProvider(model + suffix) == DetectProvider(model)
  {
    if StartsWith(model, "gpt") {
      assert (model + suffix)[..3] == model[..3];
    } else {
      assert (model + suffix)[..8] == model[..8];
      assert !StartsWith(model + suffix, "gpt") by {
        if |model + suffix| >= 3 {
          assert (model + suffix)[..3] == model[..3];
        }
      }
    }
  }

  /** The provider names the generate command's tests rely on. */
  lemma ProviderExamples()
    ensures DetectProvider("gpt-4o-mini") == Some("openai")
    ensures DetectProvider("deepseek-chat") == Some("deepseek")
    ensures DetectProvider("unknown-model") == None
  {
    assert "gpt-4o-mini"[..3] == "gpt";
    assert "deepseek-chat"[..8] == "deepseek";
    assert "unknown-model"[..3][0] == 'u';
    assert "unknown-model"[..8][0] == 'u';
  }
}
