/**
 * `ModelService` (src/nl2graph/base/models/service.py): the registry of
 * pretrained sequence-to-sequence models read from the `seq2seq.models`
 * section of the configuration, models registered at run time, and the
 * lookups of trained checkpoints under `seq2seq.checkpoints`.
 */
module ModelsService {
  import opened Wrappers
  import opened Strs
  import opened Json
  import opened OrderedMaps
  import opened SchemaInput
  import Configs

  /** `ModelConfig`: a model's name, weights, tokenizer, sequence length and extra tokens. */
  datatype ModelConfig = ModelConfig(
    name: string,
    path: string,
    tokenizerPath: Option<string>,
    maxLength: int,
    specialTokens: seq<string>)

  /** The registry `_models`, in insertion order. */
  type ModelTable = OrderedMap<string, ModelConfig>

  const ModelsKey := "seq2seq.models"
  const CheckpointsKey := "seq2seq.checkpoints"
  const DefaultMaxLength := 512

  /** Calling `.items()` on a value that is not a dict. */
  const NoItems := "object has no attribute 'items'"

  /** Calling `.keys()` on a value that is not a dict. */
  const NoKeys := "object has no attribute 'keys'"

  /** `Path(x)` on a value that is not a string. */
  const NotAPath := "expected str, bytes or os.PathLike object"

  /** Where a model's weights are looked for when its entry names no path. */
  function DefaultPath(name: string): string
  {
    "models/pretrained/" + name
  }

  /** The key of one checkpoint's section. */
  function CheckpointKey(name: string): string
  {
    CheckpointsKey + "." + name
  }

  /** Every field of a model entry has a type its constructor accepts. */
  predicate Acceptable(d: Dict)
  {
    var tokens := GetOr(d, "special_tokens", JArr([]));
    && GetOr(d, "path", JStr("")).JStr?
    && (Falsy(GetOr(d, "tokenizer_path", JNull)) || GetOr(d, "tokenizer_path", JNull).JStr?)
    && GetOr(d, "max_length", JInt(0)).JInt?
    && tokens.JArr? && (forall i :: 0 <= i < |tokens.items| ==> tokens.items[i].JStr?)
  }

  /** One entry of `seq2seq.models` as `_load_config` turns it into a `ModelConfig`. */
  function ConfigFrom(name: string, cfg: Json): (r: Result<ModelConfig, string>)
    ensures !cfg.JObj? ==> r == Err(NoGet)
    ensures r.Ok? <==> cfg.JObj? && Acceptable(cfg.fields)
    ensures r.Ok? ==> r.value.name == name
    ensures r.Ok? ==> r.value.path == if "path" in cfg.fields then cfg.fields["path"].s else DefaultPath(name)
    ensures r.Ok? ==> (r.value.tokenizerPath.None? <==> Falsy(GetOr(cfg.fields, "tokenizer_path", JNull)))
    ensures r.Ok? && r.value.tokenizerPath.Some? ==> cfg.fields["tokenizer_path"] == JStr(r.value.tokenizerPath.value)
    ensures r.Ok? ==> r.value.maxLength == if "max_length" in cfg.fields then cfg.fields["max_length"].i else DefaultMaxLength
    ensures r.Ok? && "special_tokens" !in cfg.fields ==> r.value.specialTokens == []
    ensures r.Ok? && "special_tokens" in cfg.fields ==> StrsJson(r.value.specialTokens) == cfg.fields["special_tokens"]
  {
    if !cfg.JObj? then Err(NoGet)
    else
      var d := cfg.fields;
      var path := GetOr(d, "path", JStr(DefaultPath(name)));
      var tok := GetOr(d, "tokenizer_path", JNull);
      var maxLength := GetOr(d, "max_length", JInt(DefaultMaxLength));
      if !path.JStr? then Err(NotAPath)
      else if !Falsy(tok) && !tok.JStr? then Err(NotAPath)
      else if !maxLength.JInt? then Err(Invalid("max_length"))
      else
        match AsStrList(GetOr(d, "special_tokens", JArr([])), "special_tokens")
        case Err(e) => Err(e)
        case Ok(tokens) =>
          Ok(ModelConfig(name, path.s, if Falsy(tok) then None else Some(tok.s), maxLength.i, tokens))
  }

  /** A model entry with nothing configured takes every default. */
  lemma ConfigDefaults(name: string)
    ensures ConfigFrom(name, JObj(map[])) == Ok(ModelConfig(name, DefaultPath(name), None, DefaultMaxLength, []))
  {
    assert Acceptable(map[]);
  }

  /** Every stored configuration is filed under its own name. */
  predicate Named(t: ModelTable)
  {
    forall k :: k in t.values ==> t.values[k].name == k
  }

  /** The rest of the loop of `_load_config`, entered with the table built so far. */
  function LoadFrom(m: Dict, names: seq<string>, acc: ModelTable): (r: Result<ModelTable, string>)
    requires forall i :: 0 <= i < |names| ==> names[i] in m
    decreases |names|
  {
    if names == [] then Ok(acc)
    else
      match ConfigFrom(names[0], m[names[0]])
      case Err(e) => Err(e)
      case Ok(c) => LoadFrom(m, names[1..], Put(acc, names[0], c))
  }

  /** The order `_load_config` visits the entries in. */
  function EntryOrder(m: Dict): (names: seq<string>)
    ensures forall i :: 0 <= i < |names| ==> names[i] in m
    ensures forall k :: k in names <==> k in m
  {
    var names := SortedSet(m.Keys);
    assert forall i :: 0 <= i < |names| ==> names[i] in names;
    names
  }

  /** `_load_config`: no models for an empty or missing section, otherwise one per entry. */
  function LoadModels(section: Json): (r: Result<ModelTable, string>)
    ensures Falsy(section) ==> r == Ok(Empty())
    ensures !Falsy(section) && !section.JObj? ==> r == Err(NoItems)
  {
    if Falsy(section) then Ok(Empty())
    else if !section.JObj? then Err(NoItems)
    else LoadFrom(section.fields, EntryOrder(section.fields), Empty())
  }

  /** The loop fails exactly when one of the remaining entries is rejected. */
  lemma {:induction false} LoadFromFails(m: Dict, names: seq<string>, acc: ModelTable)
    requires forall i :: 0 <= i < |names| ==> names[i] in m
    ensures LoadFrom(m, names, acc).Err? <==> exists i :: 0 <= i < |names| && ConfigFrom(names[i], m[names[i]]).Err?
    decreases |names|
  {
    if names != [] {
      var c := ConfigFrom(names[0], m[names[0]]);
      if c.Ok? {
        var rest := names[1..];
        LoadFromFails(m, rest, Put(acc, names[0], c.value));
        if exists i :: 0 <= i < |names| && ConfigFrom(names[i], m[names[i]]).Err? {
          var i :| 0 <= i < |names| && ConfigFrom(names[i], m[names[i]]).Err?;
          assert rest[i - 1] == names[i];
        }
        if exists i :: 0 <= i < |rest| && ConfigFrom(rest[i], m[rest[i]]).Err? {
          var i :| 0 <= i < |rest| && ConfigFrom(rest[i], m[rest[i]]).Err?;
          assert names[i + 1] == rest[i];
        }
      }
    }
  }

  /** A successful loop leaves a valid table with every model under its own name. */
  lemma {:induction false} LoadFromValid(m: Dict, names: seq<string>, acc: ModelTable)
    requires forall i :: 0 <= i < |names| ==> names[i] in m
    requires Valid(acc) && Named(acc)
    requires LoadFrom(m, names, acc).Ok?
    ensures Valid(LoadFrom(m, names, acc).value) && Named(LoadFrom(m, names, acc).value)
    decreases |names|
  {
    if names != [] {
      var c := ConfigFrom(names[0], m[names[0]]);
      LoadFromValid(m, names[1..], Put(acc, names[0], c.value));
    }
  }

  /**
   * A successful loop keeps the table it started with and adds a model for
   * each remaining name, as that name's entry says.
   */
  lemma {:induction false} LoadFromEntries(m: Dict, names: seq<string>, acc: ModelTable, k: string)
    requires forall i :: 0 <= i < |names| ==> names[i] in m
    requires LoadFrom(m, names, acc).Ok?
    ensures k in LoadFrom(m, names, acc).value.values <==> k in acc.values || k in names
    ensures k in names ==> ConfigFrom(k, m[k]).Ok? && LoadFrom(m, names, acc).value.values[k] == ConfigFrom(k, m[k]).value
    ensures k !in names && k in acc.values ==> LoadFrom(m, names, acc).value.values[k] == acc.values[k]
    decreases |names|
  {
    if names != [] {
      var c := ConfigFrom(names[0], m[names[0]]);
      LoadFromEntries(m, names[1..], Put(acc, names[0], c.value), k);
      assert names == [names[0]] + names[1..];
    }
  }

  /** The models loaded from a configured section are a valid table filed by name. */
  lemma LoadedValid(section: Json)
    requires LoadModels(section).Ok?
    ensures Valid(LoadModels(section).value) && Named(LoadModels(section).value)
  {
    if section.JObj? && !Falsy(section) {
      LoadFromValid(section.fields, EntryOrder(section.fields), Empty());
    }
  }

  /** The models loaded from a configured section: one per entry, under the entry's name, each as its entry says. */
  lemma LoadedModels(section: Json, k: string)
    requires LoadModels(section).Ok?
    ensures k in LoadModels(section).value.values <==> section.JObj? && k in section.fields
    ensures section.JObj? && k in section.fields ==>
      ConfigFrom(k, section.fields[k]).Ok? && LoadModels(section).value.values[k] == ConfigFrom(k, section.fields[k]).value
  {
    if section.JObj? && !Falsy(section) {
      LoadFromEntries(section.fields, EntryOrder(section.fields), Empty(), k);
    }
  }

  /** The loop over a section's entries fails exactly when the section has an entry its constructor rejects. */
  lemma LoadEntriesFail(m: Dict)
    ensures LoadFrom(m, EntryOrder(m), Empty()).Err? <==> exists k :: k in m && ConfigFrom(k, m[k]).Err?
  {
    var names := EntryOrder(m);
    LoadFromFails(m, names, Empty());
    if exists i :: 0 <= i < |names| && ConfigFrom(names[i], m[names[i]]).Err? {
      var i :| 0 <= i < |names| && ConfigFrom(names[i], m[names[i]]).Err?;
      assert names[i] in m;
    }
    if exists k :: k in m && ConfigFrom(k, m[k]).Err? {
      var k :| k in m && ConfigFrom(k, m[k]).Err?;
      var i :| 0 <= i < |names| && names[i] == k;
      assert ConfigFrom(names[i], m[names[i]]).Err?;
    }
  }

  /** Loading fails exactly for a section that is not a dict, or one with an entry its constructor rejects. */
  lemma LoadFails(section: Json)
    ensures LoadModels(section).Err? <==>
      !Falsy(section) && (!section.JObj? || exists k :: k in section.fields && ConfigFrom(k, section.fields[k]).Err?)
  {
    if section.JObj? && !Falsy(section) {
      LoadEntriesFail(section.fields);
    }
  }

  /** `_load_config`'s loop. */
  method LoadTable(section: Json) returns (r: Result<ModelTable, string>)
    ensures r == LoadModels(section)
  {
    if Falsy(section) {
      return Ok(Empty());
    }
    if !section.JObj? {
      return Err(NoItems);
    }
    var m := section.fields;
    var names := EntryOrder(m);
    var table: ModelTable := Empty();
    var i := 0;
    while i < |names|
      invariant 0 <= i <= |names|
      invariant LoadFrom(m, names[i..], table) == LoadFrom(m, names, Empty())
    {
      assert names[i..][1..] == names[i + 1..];
      var name := names[i];
      var cfg := ConfigFrom(name, m[name]);
      if cfg.Err? {
        return Err(cfg.error);
      }
      table := Put(table, name, cfg.value);
      i := i + 1;
    }
    return Ok(table);
  }

  /** `get_checkpoint_path`'s conversion: None for a missing or empty path, otherwise the path. */
  function CheckpointPathOf(path: Json): (r: Result<Option<string>, string>)
    ensures Falsy(path) ==> r == Ok(None)
    ensures path.JStr? && path.s != "" ==> r == Ok(Some(path.s))
    ensures r.Err? <==> !Falsy(path) && !path.JStr?
  {
    if Falsy(path) then Ok(None)
    else if path.JStr? then Ok(Some(path.s))
    else Err(NotAPath)
  }

  /** `ls_checkpoints`' listing: the names of the section, which must be a dict. */
  function CheckpointNames(section: Json): (r: Result<seq<string>, string>)
    ensures r.Ok? <==> section.JObj?
    ensures r.Ok? ==> forall k :: k in r.value <==> k in section.fields
    ensures r.Ok? ==> |r.value| == |section.fields|
  {
    if section.JObj? then Ok(SortedSet(section.fields.Keys)) else Err(NoKeys)
  }

  /** A dotted key whose pieces hold no dot splits into those pieces. */
  lemma SplitKey(a: string, b: string)
    requires '.' !in a && '.' !in b
    ensures Split(a + "." + b, '.') == [a, b]
  {
    Strs.JoinSplit([a, b], '.');
    assert Join(".", [a, b]) == a + "." + b by {
      assert Join(".", [a, b][1..]) == b;
    }
  }

  /** The pieces of a checkpoint's key. */
  lemma SplitCheckpointKey(name: string)
    requires '.' !in name
    ensures Split(CheckpointKey(name), '.') == ["seq2seq", "checkpoints", name]
  {
    assert CheckpointKey(name) == "seq2seq" + "." + ("checkpoints" + "." + name);
    SplitKey("checkpoints", name);
    Strs.SplitAfter("seq2seq", '.', "checkpoints" + "." + name);
  }

  /** A checkpoint's path key, regrouped from the right. */
  lemma PathKeyShape(name: string)
    ensures CheckpointKey(name) + ".path" == "seq2seq" + "." + ("checkpoints" + "." + (name + "." + "path"))
  {
  }

  /** The pieces of a checkpoint's path key. */
  lemma SplitCheckpointPathKey(name: string)
    requires '.' !in name
    ensures Split(CheckpointKey(name) + ".path", '.') == ["seq2seq", "checkpoints", name, "path"]
  {
    var rest := name + "." + "path";
    var tail := "checkpoints" + "." + rest;
    PathKeyShape(name);
    SplitKey(name, "path");
    Strs.SplitAfter("checkpoints", '.', rest);
    assert Split(tail, '.') == ["checkpoints", name, "path"];
    Strs.SplitAfter("seq2seq", '.', tail);
  }

  /** A checkpoint name without dots: the `.path` lookup is the `path` entry of the checkpoint's section. */
  lemma CheckpointPathLookup(config: Configs.ConfigService, name: string)
    requires '.' !in name
    ensures Configs.Setting(config, CheckpointKey(name) + ".path", JNull) ==
      var section := Configs.Setting(config, CheckpointKey(name), JNull);
      if section.JObj? && "path" in section.fields then section.fields["path"] else JNull
  {
    var root := JObj(config.configs);
    var p := ["seq2seq", "checkpoints", name];
    SplitCheckpointKey(name);
    SplitCheckpointPathKey(name);
    assert p + ["path"] == ["seq2seq", "checkpoints", name, "path"];
    if Configs.Reaches(root, p) {
      Configs.WalkAppend(root, p, ["path"], JNull);
    } else {
      NotReachesLonger(root, p, ["path"]);
    }
  }

  /** A walk that gives up part of the way gives up on any longer path. */
  lemma {:induction false} NotReachesLonger(v: Json, p: seq<string>, q: seq<string>)
    requires !Configs.Reaches(v, p)
    ensures !Configs.Reaches(v, p + q)
    decreases |p|
  {
    assert p != [];
    assert (p + q)[0] == p[0] && (p + q)[1..] == p[1..] + q;
    if v.JObj? {
      NotReachesLonger(Configs.Child(v, p[0]), p[1..], q);
    }
  }

  /** A checkpoint whose section names no path has no checkpoint path. */
  lemma CheckpointPathAbsent(config: Configs.ConfigService, name: string)
    requires '.' !in name
    requires var section := Configs.Setting(config, CheckpointKey(name), JNull); !(section.JObj? && "path" in section.fields)
    ensures CheckpointPathOf(Configs.Setting(config, CheckpointKey(name) + ".path", JNull)) == Ok(None)
  {
    CheckpointPathLookup(config, name);
  }

  class ModelService {
    const config: Configs.ConfigService
    /** `_models`. */
    var models: ModelTable

    /** Each model is listed once and filed under its own name. */
    ghost predicate Valid()
      reads this
    {
      OrderedMaps.Valid(models) && Named(models)
    }

    /** `__init__`, for a configuration whose models section `_load_config` accepts. */
    constructor (config: Configs.ConfigService)
      requires LoadModels(Configs.Setting(config, ModelsKey, JObj(map[]))).Ok?
      ensures this.config == config
      ensures models == LoadModels(Configs.Setting(config, ModelsKey, JObj(map[]))).value
      ensures Valid()
    {
      this.config := config;
      var section := config.Get(ModelsKey, JObj(map[]));
      LoadedValid(section);
      var loaded := LoadTable(section);
      models := loaded.value;
    }

    /** `ls_models`: the model names, each once, in registration order. */
    function LsModels(): (r: seq<string>)
      reads this
      ensures Valid() ==> forall n :: n in r <==> n in models.values
      ensures Valid() ==> forall i, j :: 0 <= i < j < |r| ==> r[i] != r[j]
    {
      models.keys
    }

    /** `get_model_config`: the registered configuration of that name, None for an unknown name. */
    function GetModelConfig(name: string): (r: Option<ModelConfig>)
      reads this
      ensures r.Some? <==> name in models.values
      ensures Valid() ==> (r.Some? <==> name in LsModels())
      ensures r.Some? ==> r.value == models.values[name]
      ensures Valid() && r.Some? ==> r.value.name == name
    {
      Get(models, name)
    }

    /** `register_model`: add the model under its name, replacing one of the same name in place. */
    method RegisterModel(modelConfig: ModelConfig)
      requires Valid()
      modifies this
      ensures Valid()
      ensures models == Put(old(models), modelConfig.name, modelConfig)
      ensures GetModelConfig(modelConfig.name) == Some(modelConfig)
      ensures forall n :: n != modelConfig.name ==> GetModelConfig(n) == old(GetModelConfig(n))
      ensures modelConfig.name in old(LsModels()) ==> LsModels() == old(LsModels())
      ensures modelConfig.name !in old(LsModels()) ==> LsModels() == old(LsModels()) + [modelConfig.name]
    {
      models := Put(models, modelConfig.name, modelConfig);
    }

    /** `get_checkpoint_path`. */
    method GetCheckpointPath(name: string) returns (r: Result<Option<string>, string>)
      ensures r == CheckpointPathOf(Configs.Setting(config, CheckpointKey(name) + ".path", JNull))
    {
      var path := config.Get(CheckpointKey(name) + ".path", JNull);
      r := CheckpointPathOf(path);
    }

    /** `get_checkpoint_config`: the checkpoint's section as configured, None when absent. */
    method GetCheckpointConfig(name: string) returns (section: Json)
      ensures section == Configs.Setting(config, CheckpointKey(name), JNull)
    {
      section := config.Get(CheckpointKey(name), JNull);
    }

    /** `ls_checkpoints`. */
    method LsCheckpoints() returns (r: Result<seq<string>, string>)
      ensures r == CheckpointNames(Configs.Setting(config, CheckpointsKey, JObj(map[])))
    {
      var section := config.Get(CheckpointsKey, JObj(map[]));
      r := CheckpointNames(section);
    }
  }
}
