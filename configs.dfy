/**
 * `ConfigService` (src/nl2graph/base/configs.py): the top-level merge of
 * the configuration files, dotted-path lookup in the merged tree, and
 * environment-variable lookup. Reading YAML and `.env` files is left out:
 * each configuration file is given as the dictionary `safe_load` returns
 * (`{}` for an empty file) and the environment as a map.
 */
module Configs {
  import opened Wrappers
  import opened Strs
  import opened Json

  /** `value.get(key)` on a dict: None for a missing key. */
  function Child(v: Json, key: string): (c: Json)
    requires v.JObj?
    ensures key in v.fields ==> c == v.fields[key]
    ensures key !in v.fields ==> c == JNull
  {
    if key in v.fields then v.fields[key] else JNull
  }

  /** Every value the walk along `keys` steps from is a dict, so it never gives up. */
  predicate Reaches(v: Json, keys: seq<string>)
    decreases |keys|
  {
    keys == [] || (v.JObj? && Reaches(Child(v, keys[0]), keys[1..]))
  }

  /** The loop of `get`: step into each key in turn; the default as soon as the value is not a dict. */
  function Walk(v: Json, keys: seq<string>, default: Json): (r: Json)
    ensures keys == [] ==> r == v
    ensures !Reaches(v, keys) ==> r == default
    decreases |keys|
  {
    if keys == [] then v
    else if !v.JObj? then default
    else Walk(Child(v, keys[0]), keys[1..], default)
  }

  /** A walk that never gives up does not depend on the default. */
  lemma {:induction false} WalkIgnoresDefault(v: Json, keys: seq<string>, d1: Json, d2: Json)
    requires Reaches(v, keys)
    ensures Walk(v, keys, d1) == Walk(v, keys, d2)
    decreases |keys|
  {
    if keys != [] {
      WalkIgnoresDefault(Child(v, keys[0]), keys[1..], d1, d2);
    }
  }

  /** Walking a longer path is walking its prefix, then the rest from the sub-tree found there. */
  lemma {:induction false} WalkAppend(v: Json, p: seq<string>, q: seq<string>, default: Json)
    requires Reaches(v, p)
    ensures Walk(v, p + q, default) == Walk(Walk(v, p, default), q, default)
    decreases |p|
  {
    if p != [] {
      assert (p + q)[0] == p[0] && (p + q)[1..] == p[1..] + q;
      WalkAppend(Child(v, p[0]), p[1..], q, default);
    } else {
      assert p + q == q;
    }
  }

  /** A key missing from the dict a path leads to gives None, not the default. */
  lemma MissingLastKeyIsNone(v: Json, p: seq<string>, key: string, default: Json)
    requires Reaches(v, p)
    requires Walk(v, p, default).JObj? && key !in Walk(v, p, default).fields
    ensures Walk(v, p + [key], default) == JNull
  {
    WalkAppend(v, p, [key], default);
  }

  /** The merged configuration after the loading loop has visited `files`: later files replace earlier top-level keys. */
  function Merged(files: seq<Dict>): Dict
    decreases |files|
  {
    if files == [] then map[] else Merged(files[..|files| - 1]) + files[|files| - 1]
  }

  /** A top-level key is configured iff some file has it. */
  lemma {:induction false} MergedHas(files: seq<Dict>, key: string)
    ensures key in Merged(files) <==> exists i :: 0 <= i < |files| && key in files[i]
    decreases |files|
  {
    if files != [] {
      var n := |files| - 1;
      var init := files[..n];
      MergedHas(init, key);
      if exists i :: 0 <= i < n && key in init[i] {
        var i :| 0 <= i < n && key in init[i];
        assert key in files[i];
      }
      if exists i :: 0 <= i < |files| && key in files[i] {
        var i :| 0 <= i < |files| && key in files[i];
        if i < n {
          assert key in init[i];
        }
      }
    }
  }

  /** A top-level key's value comes whole from the last file that has it. */
  lemma {:induction false} MergedLast(files: seq<Dict>, key: string, i: nat)
    requires i < |files| && key in files[i]
    requires forall j :: i < j < |files| ==> key !in files[j]
    ensures key in Merged(files) && Merged(files)[key] == files[i][key]
    decreases |files|
  {
    var n := |files| - 1;
    if i < n {
      var init := files[..n];
      assert key !in files[n];
      assert init[i] == files[i];
      assert forall j :: i < j < n ==> init[j] == files[j];
      MergedLast(init, key, i);
    }
  }

  /** A top-level key is configured iff some file has it, and its value comes whole from the last file that has it. */
  lemma MergedValue(files: seq<Dict>, key: string)
    ensures key in Merged(files) <==> exists i :: 0 <= i < |files| && key in files[i]
    ensures forall i :: 0 <= i < |files| && key in files[i] && (forall j :: i < j < |files| ==> key !in files[j]) ==>
      Merged(files)[key] == files[i][key]
  {
    MergedHas(files, key);
    forall i | 0 <= i < |files| && key in files[i] && (forall j :: i < j < |files| ==> key !in files[j])
      ensures Merged(files)[key] == files[i][key]
    {
      MergedLast(files, key, i);
    }
  }

  /** The environment variable `get_env` looks up: upper case, with '-' as '_'. */
  function EnvKey(key: string): (k: string)
    ensures |k| == |key| && '-' !in k
    ensures forall i :: 0 <= i < |k| ==> !('a' <= k[i] <= 'z')
    ensures forall i :: 0 <= i < |k| ==> if key[i] == '-' then k[i] == '_' else LowerChar(k[i]) == LowerChar(key[i])
  {
    if key == [] then []
    else [if key[0] == '-' then '_' else UpperChar(key[0])] + EnvKey(key[1..])
  }

  /** What `config.get(key, default)` returns: the value at the dotted path. */
  function Setting(config: ConfigService, key: string, default: Json): Json
  {
    Walk(JObj(config.configs), Split(key, '.'), default)
  }

  class ConfigService {
    /** The merged configuration files. */
    const configs: Dict
    /** `os.environ` after `load_dotenv`. */
    const environ: map<string, string>

    /** `__init__`: the files merged in order, each with a shallow `update`. */
    constructor (files: seq<Dict>, environ: map<string, string>)
      ensures configs == Merged(files) && this.environ == environ
    {
      var merged := map[];
      var i := 0;
      while i < |files|
        invariant 0 <= i <= |files|
        invariant merged == Merged(files[..i])
      {
        assert files[..i + 1][..i] == files[..i];
        merged := merged + files[i];
        i := i + 1;
      }
      assert files[..|files|] == files;
      configs := merged;
      this.environ := environ;
    }

    /** `get_env`: the variable's value, None when unset; the default argument is never used. */
    function GetEnv(key: string, default: Option<string>): (r: Option<string>)
      ensures EnvKey(key) in environ ==> r == Some(environ[EnvKey(key)])
      ensures EnvKey(key) !in environ ==> r == None
    {
      if EnvKey(key) in environ then Some(environ[EnvKey(key)]) else None
    }

    /** `get`: the value at the dotted path, None for a missing last key, the default once a step lands on a non-dict. */
    method Get(keys: string, default: Json) returns (value: Json)
      ensures value == Walk(JObj(configs), Split(keys, '.'), default)
    {
      var parts := Split(keys, '.');
      value := JObj(configs);
      var i := 0;
      while i < |parts|
        invariant 0 <= i <= |parts|
        invariant Walk(JObj(configs), parts, default) == Walk(value, parts[i..], default)
      {
        assert parts[i..][1..] == parts[i + 1..];
        if !value.JObj? {
          return default;
        }
        value := Child(value, parts[i]);
        i := i + 1;
      }
    }
  }
}
