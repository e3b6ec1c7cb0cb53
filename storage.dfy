/**
 * The keyed document store: named tables, each mapping a text key to one
 * JSON object, plus the rows a None key leaves under SQLite's NULL key,
 * which no lookup by key reaches. SQLite is only the backing medium; the
 * model keeps the tables in memory.
 */
module Storage {
  import opened Wrappers
  import opened Json

  type Table = map<string, Dict>
  type Tables = map<string, Table>

  /**
   * The row `_merge_dict(base, update)` leaves in `base`: for each key of
   * the update, two dicts merge recursively, anything else overwrites.
   */
  function Merged(base: Dict, upd: Dict): Dict
    decreases JObj(upd), 1
  {
    map k | k in base.Keys + upd.Keys :: MergedAt(base, upd, k)
  }

  /** The merged value under one key. */
  function MergedAt(base: Dict, upd: Dict, k: string): Json
    requires k in base || k in upd
    decreases JObj(upd), 0
  {
    if k !in upd then base[k]
    else if k in base && base[k].JObj? && upd[k].JObj? then JObj(Merged(base[k].fields, upd[k].fields))
    else upd[k]
  }

  /** The three rules of a deep merge, key by key. */
  lemma MergeRules(base: Dict, upd: Dict)
    ensures Merged(base, upd).Keys == base.Keys + upd.Keys
    ensures forall k :: k in base && k !in upd ==> Merged(base, upd)[k] == base[k]
    ensures forall k :: k in upd && k in base && base[k].JObj? && upd[k].JObj? ==>
      Merged(base, upd)[k] == JObj(Merged(base[k].fields, upd[k].fields))
    ensures forall k :: k in upd && !(k in base && base[k].JObj? && upd[k].JObj?) ==> Merged(base, upd)[k] == upd[k]
  {
  }

  /** Merging an empty partial leaves the row unchanged. */
  lemma MergeEmpty(base: Dict)
    ensures Merged(base, map[]) == base
  {
  }

  /** Merging a row into itself changes nothing. */
  lemma {:induction false} MergeSelf(d: Dict)
    ensures Merged(d, d) == d
    decreases JObj(d)
  {
    forall k | k in d && d[k].JObj? ensures Merged(d[k].fields, d[k].fields) == d[k].fields {
      MergeSelf(d[k].fields);
    }
  }

  /** Merging the same partial twice is the same as merging it once. */
  lemma {:induction false} MergeIdempotent(base: Dict, upd: Dict)
    ensures Merged(Merged(base, upd), upd) == Merged(base, upd)
    decreases JObj(upd)
  {
    var once := Merged(base, upd);
    forall k | k in upd && upd[k].JObj? && once[k].JObj?
      ensures Merged(once[k].fields, upd[k].fields) == once[k].fields
    {
      if k in base && base[k].JObj? {
        MergeIdempotent(base[k].fields, upd[k].fields);
      } else {
        MergeSelf(upd[k].fields);
      }
    }
  }

  /** A partial whose values are all non-dicts and whose keys cover the row simply replaces it. */
  lemma FlatMergeReplaces(base: Dict, upd: Dict)
    requires base.Keys <= upd.Keys
    requires forall k :: k in upd ==> !upd[k].JObj?
    ensures Merged(base, upd) == upd
  {
  }

  function TableOf(ts: Tables, name: string): Table
  {
    if name in ts then ts[name] else map[]
  }

  function Lookup(t: Table, key: string): Option<Dict>
  {
    if key in t then Some(t[key]) else None
  }

  /** `put`: INSERT OR REPLACE of one row. */
  function PutRow(ts: Tables, name: string, key: string, data: Dict): Tables
  {
    ts[name := TableOf(ts, name)[key := data]]
  }

  /** `update`: the partial itself when the row is absent, else the merged row. */
  function UpdateRow(ts: Tables, name: string, key: string, partial: Dict): Tables
  {
    match Lookup(TableOf(ts, name), key)
    case None => PutRow(ts, name, key, partial)
    case Some(existing) => PutRow(ts, name, key, Merged(existing, partial))
  }

  function DeleteRow(ts: Tables, name: string, key: string): Tables
  {
    ts[name := TableOf(ts, name) - {key}]
  }

  /** A key never put reads as None. */
  lemma GetNeverPut(ts: Tables, name: string, key: string)
    requires key !in TableOf(ts, name)
    ensures Lookup(TableOf(ts, name), key) == None
  {
  }

  /** After `put` the row reads back exactly; a second `put` replaces it wholesale. */
  lemma PutGet(ts: Tables, name: string, key: string, d1: Dict, d2: Dict)
    ensures Lookup(TableOf(PutRow(ts, name, key, d1), name), key) == Some(d1)
    ensures PutRow(PutRow(ts, name, key, d1), name, key, d2) == PutRow(ts, name, key, d2)
  {
    assert TableOf(PutRow(ts, name, key, d1), name)[key := d2] == TableOf(ts, name)[key := d2];
  }

  /** `update` of an absent key stores the partial as the whole row; of a present key, the merge. */
  lemma UpdateGet(ts: Tables, name: string, key: string, partial: Dict)
    ensures key !in TableOf(ts, name) ==>
      Lookup(TableOf(UpdateRow(ts, name, key, partial), name), key) == Some(partial)
    ensures key in TableOf(ts, name) ==>
      Lookup(TableOf(UpdateRow(ts, name, key, partial), name), key) == Some(Merged(TableOf(ts, name)[key], partial))
  {
  }

  /** After `delete` the key is gone and every other key reads as before. */
  lemma DeleteGet(ts: Tables, name: string, key: string, other: string)
    requires other != key
    ensures Lookup(TableOf(DeleteRow(ts, name, key), name), key) == None
    ensures Lookup(TableOf(DeleteRow(ts, name, key), name), other) == Lookup(TableOf(ts, name), other)
  {
  }

  /** A write to one table leaves every other table as it was. */
  lemma TablesIndependent(ts: Tables, name: string, other: string, key: string, d: Dict)
    requires other != name
    ensures TableOf(PutRow(ts, name, key, d), other) == TableOf(ts, other)
    ensures TableOf(UpdateRow(ts, name, key, d), other) == TableOf(ts, other)
    ensures TableOf(DeleteRow(ts, name, key), other) == TableOf(ts, other)
  {
  }

  /**
   * The rows a table holds under a NULL key, oldest first. SQLite lets a
   * `TEXT PRIMARY KEY` column hold NULL and treats every NULL as distinct,
   * so each `put` with a None key adds a row that no `WHERE key = ?`
   * lookup reaches.
   */
  type NullRows = map<string, seq<Dict>>

  function NullRowsOf(ns: NullRows, name: string): seq<Dict>
  {
    if name in ns then ns[name] else []
  }

  /** What a key value binds to as an SQL parameter of the TEXT key column. */
  datatype BoundKey = BoundText(text: string) | BoundNull | Unsupported(typeName: string)

  /**
   * Binding a JSON key value: a string as itself, a number or bool as the
   * text the column's TEXT affinity stores, None as NULL; a list or dict
   * cannot be bound.
   */
  function BindKey(j: Json): (b: BoundKey)
    ensures j.JStr? ==> b == BoundText(j.s)
    ensures j.JNull? <==> b == BoundNull
    ensures b.Unsupported? <==> j.JArr? || j.JObj?
  {
    match j
    case JStr(s) => BoundText(s)
    case JInt(i) => BoundText(Render(j))
    case JReal(_) => BoundText(Render(j))
    case JBool(b) => BoundText(if b then "1" else "0")
    case JNull => BoundNull
    case JArr(_) => Unsupported("list")
    case JObj(_) => Unsupported("dict")
  }

  /** Why `init_from_json` raises: `record[key_field]` is missing (KeyError), or its value cannot be bound. */
  datatype LoadError = MissingKeyField(field: string) | BindingError(typeName: string)

  /** The store after `init_from_json`, and the exception it raised, if any. */
  datatype Loaded = Loaded(tables: Tables, nulls: NullRows, err: Option<LoadError>)

  /** The key field is present and holds a value that can be bound: the record loads without an exception. */
  predicate Loadable(record: Dict, keyField: string)
  {
    keyField in record && !BindKey(record[keyField]).Unsupported?
  }

  /** The exception a record that cannot be loaded raises. */
  function LoadErrorOf(record: Dict, keyField: string): (e: LoadError)
    requires !Loadable(record, keyField)
    ensures e.MissingKeyField? <==> keyField !in record
  {
    if keyField !in record then MissingKeyField(keyField) else BindingError(BindKey(record[keyField]).typeName)
  }

  /** The tables after putting one loadable record: under its key, unless the key is NULL. */
  function TablesAfter(ts: Tables, name: string, record: Dict, keyField: string): Tables
    requires Loadable(record, keyField)
  {
    match BindKey(record[keyField])
    case BoundText(key) => PutRow(ts, name, key, record)
    case _ => ts
  }

  /** The NULL-keyed rows after putting one loadable record: one more if its key is NULL. */
  function NullsAfter(ns: NullRows, name: string, record: Dict, keyField: string): NullRows
    requires Loadable(record, keyField)
  {
    if BindKey(record[keyField]).BoundNull? then ns[name := NullRowsOf(ns, name) + [record]] else ns
  }

  /**
   * The outcome of `init_from_json` on a parsed list of records: each
   * record is put under its key field, in order, until one lacks the field
   * or holds a value that cannot be bound; the records before it stay
   * stored.
   */
  function InitRows(ts: Tables, ns: NullRows, name: string, records: seq<Dict>, keyField: string): Loaded
    decreases |records|
  {
    if records == [] then Loaded(ts, ns, None)
    else if !Loadable(records[0], keyField) then Loaded(ts, ns, Some(LoadErrorOf(records[0], keyField)))
    else InitRows(TablesAfter(ts, name, records[0], keyField), NullsAfter(ns, name, records[0], keyField), name, records[1..], keyField)
  }

  /** Records loaded from JSON can be read back under their key, and the last record with a key wins. */
  lemma {:induction false} InitGet(ts: Tables, ns: NullRows, name: string, records: seq<Dict>, keyField: string, i: nat)
    requires forall j :: 0 <= j < |records| ==> keyField in records[j] && !BindKey(records[j][keyField]).Unsupported?
    requires i < |records| && BindKey(records[i][keyField]).BoundText?
    requires forall j :: i < j < |records| ==> BindKey(records[j][keyField]) != BindKey(records[i][keyField])
    ensures InitRows(ts, ns, name, records, keyField).err == None
    ensures Lookup(TableOf(InitRows(ts, ns, name, records, keyField).tables, name), BindKey(records[i][keyField]).text) == Some(records[i])
    decreases |records|
  {
    var r := records[0];
    assert Loadable(r, keyField);
    var ts', ns' := TablesAfter(ts, name, r, keyField), NullsAfter(ns, name, r, keyField);
    if i == 0 {
      if |records| > 1 {
        InitUntouched(ts', ns', name, records[1..], keyField, BindKey(r[keyField]).text);
      }
    } else {
      InitGet(ts', ns', name, records[1..], keyField, i - 1);
    }
  }

  /** Loading records none of which carries `key` leaves that key's row as it was. */
  lemma {:induction false} InitUntouched(ts: Tables, ns: NullRows, name: string, records: seq<Dict>, keyField: string, key: string)
    requires forall j :: 0 <= j < |records| ==> keyField in records[j] && !BindKey(records[j][keyField]).Unsupported?
    requires forall j :: 0 <= j < |records| ==> BindKey(records[j][keyField]) != BoundText(key)
    ensures InitRows(ts, ns, name, records, keyField).err == None
    ensures Lookup(TableOf(InitRows(ts, ns, name, records, keyField).tables, name), key) == Lookup(TableOf(ts, name), key)
    decreases |records|
  {
    if records != [] {
      var r := records[0];
      assert Loadable(r, keyField);
      InitUntouched(TablesAfter(ts, name, r, keyField), NullsAfter(ns, name, r, keyField), name, records[1..], keyField, key);
    }
  }

  /** The records whose key field is None, in order. */
  function NullKeyed(records: seq<Dict>, keyField: string): seq<Dict>
    decreases |records|
  {
    if records == [] then []
    else (if keyField in records[0] && records[0][keyField].JNull? then [records[0]] else []) + NullKeyed(records[1..], keyField)
  }

  /** Records that all carry a key field that can be bound load without an exception. */
  lemma {:induction false} InitLoadsAll(ts: Tables, ns: NullRows, name: string, records: seq<Dict>, keyField: string)
    requires forall j :: 0 <= j < |records| ==> Loadable(records[j], keyField)
    ensures InitRows(ts, ns, name, records, keyField).err == None
    decreases |records|
  {
    if records != [] {
      var r := records[0];
      assert Loadable(r, keyField);
      InitLoadsAll(TablesAfter(ts, name, r, keyField), NullsAfter(ns, name, r, keyField), name, records[1..], keyField);
    }
  }

  /**
   * A record whose key field is None does not stop the load: it becomes a
   * row under a NULL key, after those already there, and the load goes on.
   */
  lemma {:induction false} InitNullRows(ts: Tables, ns: NullRows, name: string, records: seq<Dict>, keyField: string)
    requires forall j :: 0 <= j < |records| ==> Loadable(records[j], keyField)
    ensures NullRowsOf(InitRows(ts, ns, name, records, keyField).nulls, name) == NullRowsOf(ns, name) + NullKeyed(records, keyField)
    decreases |records|
  {
    if records != [] {
      var r := records[0];
      assert Loadable(r, keyField);
      var ns' := NullsAfter(ns, name, r, keyField);
      var rest := NullKeyed(records[1..], keyField);
      InitNullRows(TablesAfter(ts, name, r, keyField), ns', name, records[1..], keyField);
      NullStep(ns, name, r, keyField, rest);
    }
  }

  /** One record's step of the NULL-keyed rows agrees with picking it out when its key is None. */
  lemma NullStep(ns: NullRows, name: string, r: Dict, keyField: string, rest: seq<Dict>)
    requires Loadable(r, keyField)
    ensures NullRowsOf(NullsAfter(ns, name, r, keyField), name) + rest ==
      NullRowsOf(ns, name) + ((if r[keyField].JNull? then [r] else []) + rest)
  {
    if r[keyField].JNull? {
      assert (NullRowsOf(ns, name) + [r]) + rest == NullRowsOf(ns, name) + ([r] + rest);
    } else {
      assert [] + rest == rest;
    }
  }

  /** Loading into one table leaves the NULL-keyed rows of every other table as they were. */
  lemma {:induction false} InitOtherNullRows(ts: Tables, ns: NullRows, name: string, records: seq<Dict>, keyField: string, other: string)
    requires other != name
    ensures NullRowsOf(InitRows(ts, ns, name, records, keyField).nulls, other) == NullRowsOf(ns, other)
    decreases |records|
  {
    if records != [] && Loadable(records[0], keyField) {
      var r := records[0];
      InitOtherNullRows(TablesAfter(ts, name, r, keyField), NullsAfter(ns, name, r, keyField), name, records[1..], keyField, other);
    }
  }

  /**
   * The first record that lacks the key field, or whose key cannot be
   * bound, raises; the records before it were stored and nothing after it
   * is.
   */
  lemma {:induction false} InitFirstError(ts: Tables, ns: NullRows, name: string, records: seq<Dict>, keyField: string, i: nat)
    requires i < |records| && !Loadable(records[i], keyField)
    requires forall j :: 0 <= j < i ==> Loadable(records[j], keyField)
    ensures InitRows(ts, ns, name, records, keyField) ==
      InitRows(ts, ns, name, records[..i], keyField).(err := Some(LoadErrorOf(records[i], keyField)))
    decreases i
  {
    if i > 0 {
      var r := records[0];
      assert Loadable(r, keyField);
      assert records[..i][0] == r && records[..i][1..] == records[1..][..i - 1];
      InitFirstError(TablesAfter(ts, name, r, keyField), NullsAfter(ns, name, r, keyField), name, records[1..], keyField, i - 1);
    }
  }

  /** `[{"id": None}, {"id": "b"}]`: the first record gets a NULL-keyed row, the second is stored under "b". */
  lemma NullKeyThenText(ts: Tables, ns: NullRows, name: string)
    ensures var records := [map["id" := JNull], map["id" := JStr("b")]];
      var loaded := InitRows(ts, ns, name, records, "id");
      && loaded.err == None
      && Lookup(TableOf(loaded.tables, name), "b") == Some(records[1])
      && NullRowsOf(loaded.nulls, name) == NullRowsOf(ns, name) + [records[0]]
  {
    var records := [map["id" := JNull], map["id" := JStr("b")]];
    assert records[1..] == [records[1]] && records[1..][1..] == [];
  }

  /** The (key, row) pairs of a scan that visits the keys `ks`: the text keys with their rows, then the NULL-keyed rows. */
  method ScanRows(t: Table, nullRows: seq<Dict>, ks: seq<Option<string>>) returns (items: seq<(Option<string>, Dict)>)
    requires |ks| == |t.Keys| + |nullRows|
    requires forall i :: 0 <= i < |ks| ==> (ks[i].None? <==> i >= |t.Keys|)
    requires forall i, j :: 0 <= i < j < |ks| && ks[i].Some? ==> ks[i] != ks[j]
    requires forall k :: Some(k) in ks <==> k in t
    ensures |items| == |ks|
    ensures forall i, j :: 0 <= i < j < |items| && items[i].0.Some? ==> items[i].0 != items[j].0
    ensures forall i :: 0 <= i < |items| && items[i].0.Some? ==> items[i].0.value in t && items[i].1 == t[items[i].0.value]
    ensures forall k :: k in t ==> exists i :: 0 <= i < |items| && items[i].0 == Some(k)
    ensures forall i :: |t.Keys| <= i < |items| ==> items[i] == (None, nullRows[i - |t.Keys|])
  {
    var m := |t.Keys|;
    items := [];
    var i := 0;
    while i < m
      invariant 0 <= i <= m
      invariant |items| == i
      invariant forall j :: 0 <= j < i ==> ks[j].Some? && items[j] == (ks[j], t[ks[j].value])
    {
      assert ks[i].Some? && ks[i].value in t by {
        assert ks[i] in ks;
      }
      items := items + [(ks[i], t[ks[i].value])];
      i := i + 1;
    }
    while i < |ks|
      invariant m <= i <= |ks|
      invariant |items| == i
      invariant forall j :: 0 <= j < m ==> items[j] == (ks[j], t[ks[j].value])
      invariant forall j :: m <= j < i ==> items[j] == (None, nullRows[j - m])
    {
      items := items + [(None, nullRows[i - m])];
      i := i + 1;
    }
    ScanItems(t, nullRows, ks, items);
  }

  /** A table scan's (key, row) pairs, built from the scan's keys: each text key once with its row, then the NULL-keyed rows. */
  lemma ScanItems(t: Table, nullRows: seq<Dict>, ks: seq<Option<string>>, items: seq<(Option<string>, Dict)>)
    requires |ks| == |t.Keys| + |nullRows| && |items| == |ks|
    requires forall i :: 0 <= i < |ks| ==> (ks[i].None? <==> i >= |t.Keys|)
    requires forall i, j :: 0 <= i < j < |ks| && ks[i].Some? ==> ks[i] != ks[j]
    requires forall k :: Some(k) in ks <==> k in t
    requires forall j :: 0 <= j < |t.Keys| ==> ks[j].Some? && ks[j].value in t && items[j] == (ks[j], t[ks[j].value])
    requires forall j :: |t.Keys| <= j < |items| ==> items[j] == (None, nullRows[j - |t.Keys|])
    ensures forall i, j :: 0 <= i < j < |items| && items[i].0.Some? ==> items[i].0 != items[j].0
    ensures forall i :: 0 <= i < |items| && items[i].0.Some? ==> items[i].0.value in t && items[i].1 == t[items[i].0.value]
    ensures forall k :: k in t ==> exists i :: 0 <= i < |items| && items[i].0 == Some(k)
  {
    assert forall i :: 0 <= i < |items| ==> items[i].0 == ks[i];
    forall k | k in t ensures exists i :: 0 <= i < |items| && items[i].0 == Some(k) {
      var j :| 0 <= j < |ks| && ks[j] == Some(k);
      assert items[j].0 == Some(k);
    }
  }

  /** `_merge_dict` as the source writes it: a loop over the update's keys, recursing on nested dicts. */
  method MergeDict(base: Dict, upd: Dict) returns (r: Dict)
    ensures r == Merged(base, upd)
    decreases JObj(upd), 1
  {
    r := base;
    var done: set<string> := {};
    while done != upd.Keys
      invariant MergeProgress(base, upd, r, done)
      decreases |upd.Keys - done|
    {
      var k :| k in upd.Keys - done;
      var v := MergeEntry(r, upd, k);
      MergeStep(base, upd, r, done, k, v);
      LeftShrinks(upd.Keys, done, k);
      r := r[k := v];
      done := done + {k};
    }
    MergeDone(base, upd, r);
  }

  /** One iteration of `_merge_dict`: the value `base[k]` takes. */
  method MergeEntry(base: Dict, upd: Dict, k: string) returns (v: Json)
    requires k in upd
    ensures v == MergedAt(base, upd, k)
    decreases JObj(upd), 0
  {
    if k in base && base[k].JObj? && upd[k].JObj? {
      var sub := MergeDict(base[k].fields, upd[k].fields);
      v := JObj(sub);
    } else {
      v := upd[k];
    }
  }

  /** The loop state of `_merge_dict` after the keys in `done` were handled. */
  ghost predicate MergeProgress(base: Dict, upd: Dict, r: Dict, done: set<string>) {
    && done <= upd.Keys
    && r.Keys == base.Keys + done
    && (forall k :: k in r && k !in done ==> r[k] == base[k])
    && (forall k :: k in done ==> r[k] == MergedAt(base, upd, k))
  }

  lemma MergeStep(base: Dict, upd: Dict, r: Dict, done: set<string>, k: string, v: Json)
    requires MergeProgress(base, upd, r, done)
    requires k in upd && k !in done
    requires v == MergedAt(r, upd, k)
    ensures MergeProgress(base, upd, r[k := v], done + {k})
  {
  }

  /** Handling one more key shrinks what is left to handle. */
  lemma LeftShrinks(keys: set<string>, done: set<string>, k: string)
    requires k in keys && k !in done
    ensures |keys - (done + {k})| < |keys - done|
  {
    assert keys - (done + {k}) == (keys - done) - {k};
  }

  lemma MergeDone(base: Dict, upd: Dict, r: Dict)
    requires MergeProgress(base, upd, r, upd.Keys)
    ensures r == Merged(base, upd)
  {
  }

  predicate Distinct(xs: seq<string>) {
    forall i, j :: 0 <= i < j < |xs| ==> xs[i] != xs[j]
  }

  class StorageService {
    /** Every table's rows under a text key. A table never written reads as empty. */
    var tables: Tables
    /** Every table's rows under a NULL key. */
    var nulls: NullRows

    constructor ()
      ensures tables == map[] && nulls == map[]
    {
      tables := map[];
      nulls := map[];
    }

    function Rows(name: string): Table
      reads this
    {
      TableOf(tables, name)
    }

    function Unkeyed(name: string): seq<Dict>
      reads this
    {
      NullRowsOf(nulls, name)
    }

    method Get(name: string, key: string) returns (r: Option<Dict>)
      ensures r.Some? <==> key in Rows(name)
      ensures r.Some? ==> r.value == Rows(name)[key]
    {
      var t := TableOf(tables, name);
      if key in t {
        r := Some(t[key]);
      } else {
        r := None;
      }
    }

    method Put(name: string, key: string, data: Dict)
      modifies this
      ensures tables == PutRow(old(tables), name, key, data) && nulls == old(nulls)
    {
      tables := PutRow(tables, name, key, data);
    }

    /** Read-modify-write: store the partial if the key is absent, else merge it into the stored row. */
    method Update(name: string, key: string, partial: Dict)
      modifies this
      ensures tables == UpdateRow(old(tables), name, key, partial) && nulls == old(nulls)
    {
      var existing := Get(name, key);
      if existing.None? {
        Put(name, key, partial);
      } else {
        var merged := MergeDict(existing.value, partial);
        Put(name, key, merged);
      }
    }

    method Delete(name: string, key: string)
      modifies this
      ensures tables == DeleteRow(old(tables), name, key) && nulls == old(nulls)
    {
      tables := DeleteRow(tables, name, key);
    }

    method Exists(name: string, key: string) returns (r: bool)
      ensures r <==> key in Rows(name)
    {
      r := key in TableOf(tables, name);
    }

    /** `COUNT(*)` counts the rows under a NULL key too. */
    method Count(name: string) returns (n: nat)
      ensures n == |Rows(name).Keys| + |Unkeyed(name)|
    {
      n := |TableOf(tables, name).Keys| + |NullRowsOf(nulls, name)|;
    }

    /**
     * The keys of a table in the unspecified order of a table scan, here
     * the text keys first, each once, then None once per row under a NULL
     * key.
     */
    method Keys(name: string) returns (ks: seq<Option<string>>)
      ensures |ks| == |Rows(name).Keys| + |Unkeyed(name)|
      ensures forall i :: 0 <= i < |ks| ==> (ks[i].None? <==> i >= |Rows(name).Keys|)
      ensures forall i, j :: 0 <= i < j < |ks| && ks[i].Some? ==> ks[i] != ks[j]
      ensures forall k :: Some(k) in ks <==> k in Rows(name)
    {
      var t := TableOf(tables, name);
      var todo := t.Keys;
      var texts: seq<string> := [];
      while todo != {}
        invariant todo <= t.Keys
        invariant Distinct(texts)
        invariant forall k :: k in texts <==> k in t.Keys - todo
        invariant |texts| + |todo| == |t.Keys|
        decreases |todo|
      {
        var k :| k in todo;
        assert k !in texts;
        texts := texts + [k];
        todo := todo - {k};
      }
      var m := |texts|;
      ks := seq(m, i requires 0 <= i < m => Some(texts[i])) + seq(|NullRowsOf(nulls, name)|, _ => None);
      forall k | Some(k) in ks
        ensures k in texts
      {
        var i :| 0 <= i < |ks| && ks[i] == Some(k);
        assert texts[i] == k;
      }
      forall k | k in texts
        ensures Some(k) in ks
      {
        var i :| 0 <= i < m && texts[i] == k;
        assert ks[i] == Some(k);
      }
    }

    /**
     * Every (key, row) pair of a table in the order of a table scan: each
     * text key once with its row, then each row under a NULL key, oldest
     * first, with key None.
     */
    method IterAll(name: string) returns (items: seq<(Option<string>, Dict)>)
      ensures |items| == |Rows(name).Keys| + |Unkeyed(name)|
      ensures forall i, j :: 0 <= i < j < |items| && items[i].0.Some? ==> items[i].0 != items[j].0
      ensures forall i :: 0 <= i < |items| && items[i].0.Some? ==>
        items[i].0.value in Rows(name) && items[i].1 == Rows(name)[items[i].0.value]
      ensures forall k :: k in Rows(name) ==> exists i :: 0 <= i < |items| && items[i].0 == Some(k)
      ensures forall i :: |Rows(name).Keys| <= i < |items| ==> items[i] == (None, Unkeyed(name)[i - |Rows(name).Keys|])
    {
      var ks := Keys(name);
      items := ScanRows(TableOf(tables, name), NullRowsOf(nulls, name), ks);
    }

    /**
     * `init_from_json` on the parsed list: puts each record under its key
     * field, a None key giving a row under a NULL key. A record without
     * the field raises KeyError, and one whose key is a list or dict a
     * binding error, after the earlier records were stored.
     */
    method InitFromJson(name: string, records: seq<Dict>, keyField: string) returns (err: Option<LoadError>)
      modifies this
      ensures Loaded(tables, nulls, err) == InitRows(old(tables), old(nulls), name, records, keyField)
    {
      var i := 0;
      while i < |records|
        invariant 0 <= i <= |records|
        invariant InitRows(tables, nulls, name, records[i..], keyField) == InitRows(old(tables), old(nulls), name, records, keyField)
      {
        assert records[i..][1..] == records[i + 1..];
        if keyField !in records[i] {
          return Some(MissingKeyField(keyField));
        }
        match BindKey(records[i][keyField]) {
          case Unsupported(t) =>
            return Some(BindingError(t));
          case BoundNull =>
            nulls := nulls[name := NullRowsOf(nulls, name) + [records[i]]];
          case BoundText(key) =>
            Put(name, key, records[i]);
        }
        i := i + 1;
      }
      err := None;
    }
  }
}
