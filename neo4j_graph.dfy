/**
 * The graph-side `Neo4jConnector` (src/nl2graph/graph/connectors/neo4j.py):
 * running a query with the connection's defaults, and reading the
 * property-graph schema from the rows of two metadata queries, with APOC
 * or by scanning the graph directly. The driver is the `Session` oracle of
 * `Neo4jExecution`, and value conversion is the `convert` parameter.
 */
module Neo4jGraph {
  import opened Wrappers
  import opened Json
  import opened QueryResults
  import opened OrderedMaps
  import opened GraphEntity
  import opened Neo4jExecution
  import opened SchemaInput

  // ---------------------------------------------------------------------
  // The property-graph schema
  // ---------------------------------------------------------------------

  /** A node property: its name and its type, as the metadata query returns them. */
  datatype PropertySchema = PropertySchema(name: Json, dataType: Json)

  datatype NodeSchema = NodeSchema(nodeLabel: Json, properties: seq<PropertySchema>)

  datatype EdgeSchema = EdgeSchema(edgeLabel: Json, sourceLabel: Json, targetLabel: Json)

  datatype PropertyGraphSchema = PropertyGraphSchema(name: string, nodes: seq<NodeSchema>, edges: seq<EdgeSchema>)

  /** The metadata queries, line for line. */
  const NodePropertiesQuery :=
    "\nCALL apoc.meta.data()\nYIELD label, property, type, elementType\nWHERE elementType = 'node'\n"
    + "RETURN label, property, type\nORDER BY label, property\n"

  const RelQuery :=
    "\nCALL apoc.meta.data()\nYIELD label, other, elementType\nWHERE elementType = 'relationship' AND other IS NOT NULL\n"
    + "UNWIND other AS target\nRETURN label AS rel_type, target AS source_label, label AS target_label\n"

  const DirectNodePropertiesQuery :=
    "\nMATCH (n)\nWITH labels(n) AS lbls, keys(n) AS ks, n\nUNWIND lbls AS label\nUNWIND ks AS key\n"
    + "WITH label, key, n[key] AS val\nRETURN DISTINCT label, key AS property, apoc.meta.cypher.type(val) AS type\n"
    + "ORDER BY label, property\n"

  const DirectRelQuery :=
    "\nMATCH (a)-[r]->(b)\nWITH type(r) AS rel_type, labels(a) AS src_labels, labels(b) AS tgt_labels\n"
    + "UNWIND src_labels AS src\nUNWIND tgt_labels AS tgt\n"
    + "RETURN DISTINCT rel_type, src AS source_label, tgt AS target_label\nORDER BY rel_type\n"

  // ---------------------------------------------------------------------
  // Reading rows
  // ---------------------------------------------------------------------

  /** Whether the row has the column. */
  predicate HasCol(row: Row, col: string)
    decreases |row|
  {
    row != [] && (row[0].0 == col || HasCol(row[1..], col))
  }

  /** The value under the column (its first occurrence). */
  function Lookup(row: Row, col: string): Json
    decreases |row|
  {
    if row == [] then JNull
    else if row[0].0 == col then row[0].1
    else Lookup(row[1..], col)
  }

  /** `HasCol` and `Lookup` are the row's columns and `row.get`. */
  lemma {:induction false} LookupIsGet(row: Row, col: string)
    ensures HasCol(row, col) <==> col in Cols(row)
    ensures Lookup(row, col) == RowGet(row, col)
    decreases |row|
  {
    if row != [] {
      LookupIsGet(row[1..], col);
      assert Cols(row) == [row[0].0] + Cols(row[1..]);
    }
  }

  /** `row[col]`: a `KeyError` when the row has no such column. */
  function Field(row: Row, col: string): Result<Json, string>
  {
    if HasCol(row, col) then Ok(Lookup(row, col)) else Err(KeyError(col))
  }

  /** `row[col]` reads the column's value, or fails with `KeyError` exactly when the row lacks it. */
  lemma FieldReads(row: Row, col: string)
    ensures Field(row, col).Ok? <==> col in Cols(row)
    ensures Field(row, col).Ok? ==> Field(row, col).value == RowGet(row, col)
    ensures Field(row, col).Err? ==> Field(row, col).error == KeyError(col)
  {
    LookupIsGet(row, col);
  }

  /** A node row: its label, and the property it names. */
  type Entry = (Json, PropertySchema)

  /** One row of the node query: its label, and the property it names. */
  function NodeEntry(row: Row): Result<(Json, PropertySchema), string>
  {
    match Field(row, "label")
    case Err(e) => Err(e)
    case Ok(lbl) =>
      match Field(row, "property")
      case Err(e) => Err(e)
      case Ok(name) =>
        match Field(row, "type")
        case Err(e) => Err(e)
        case Ok(t) => Ok((lbl, PropertySchema(name, t)))
  }

  /** One row of the relationship query. */
  function EdgeEntry(row: Row): Result<EdgeSchema, string>
  {
    match Field(row, "rel_type")
    case Err(e) => Err(e)
    case Ok(lbl) =>
      match Field(row, "source_label")
      case Err(e) => Err(e)
      case Ok(source) =>
        match Field(row, "target_label")
        case Err(e) => Err(e)
        case Ok(target) => Ok(EdgeSchema(lbl, source, target))
  }

  /**
   * A node row is read when it has the three columns, the columns being
   * looked up in the order "label", "property", "type".
   */
  lemma NodeEntryReads(row: Row)
    ensures NodeEntry(row).Ok? <==> "label" in Cols(row) && "property" in Cols(row) && "type" in Cols(row)
    ensures NodeEntry(row).Ok? ==>
      NodeEntry(row).value == (RowGet(row, "label"), PropertySchema(RowGet(row, "property"), RowGet(row, "type")))
    ensures "label" !in Cols(row) ==> NodeEntry(row) == Err(KeyError("label"))
    ensures "label" in Cols(row) && "property" !in Cols(row) ==> NodeEntry(row) == Err(KeyError("property"))
    ensures "label" in Cols(row) && "property" in Cols(row) && "type" !in Cols(row) ==> NodeEntry(row) == Err(KeyError("type"))
  {
    FieldReads(row, "label");
    FieldReads(row, "property");
    FieldReads(row, "type");
  }

  /** A relationship row is read when it has its three columns, looked up in the order of the edge's fields. */
  lemma EdgeEntryReads(row: Row)
    ensures EdgeEntry(row).Ok? <==> "rel_type" in Cols(row) && "source_label" in Cols(row) && "target_label" in Cols(row)
    ensures EdgeEntry(row).Ok? ==>
      EdgeEntry(row).value == EdgeSchema(RowGet(row, "rel_type"), RowGet(row, "source_label"), RowGet(row, "target_label"))
    ensures "rel_type" !in Cols(row) ==> EdgeEntry(row) == Err(KeyError("rel_type"))
    ensures "rel_type" in Cols(row) && "source_label" !in Cols(row) ==> EdgeEntry(row) == Err(KeyError("source_label"))
    ensures "rel_type" in Cols(row) && "source_label" in Cols(row) && "target_label" !in Cols(row) ==>
      EdgeEntry(row) == Err(KeyError("target_label"))
  {
    FieldReads(row, "rel_type");
    FieldReads(row, "source_label");
    FieldReads(row, "target_label");
  }

  /** The first `n` node rows read in order; the first row that cannot be read ends the loop with its error. */
  function NodeEntries(rows: seq<Row>, n: nat): (r: Result<seq<Entry>, string>)
    requires n <= |rows|
    ensures r.Ok? ==> |r.value| == n
  {
    if n == 0 then Ok([])
    else
      match NodeEntries(rows, n - 1)
      case Err(e) => Err(e)
      case Ok(xs) =>
        match NodeEntry(rows[n - 1])
        case Err(e) => Err(e)
        case Ok(x) => Ok(xs + [x])
  }

  /** Reading succeeds only when every row can be read, and then yields each row's reading in row order. */
  lemma {:induction false} NodeEntriesOk(rows: seq<Row>, n: nat, i: nat)
    requires i < n <= |rows|
    ensures NodeEntries(rows, n).Ok? ==> NodeEntry(rows[i]) == Ok(NodeEntries(rows, n).value[i])
    ensures NodeEntry(rows[i]).Err? ==> NodeEntries(rows, n).Err?
    decreases n
  {
    if i < n - 1 {
      NodeEntriesOk(rows, n - 1, i);
    }
  }

  /** The error of the loop is the error of the first row that cannot be read. */
  lemma {:induction false} NodeEntriesFirstError(rows: seq<Row>, i: nat, n: nat)
    requires i < n <= |rows| && NodeEntries(rows, i).Ok? && NodeEntry(rows[i]).Err?
    ensures NodeEntries(rows, n) == Err(NodeEntry(rows[i]).error)
    decreases n
  {
    if i < n - 1 {
      NodeEntriesFirstError(rows, i, n - 1);
    }
  }

  /** The first `n` relationship rows read in order; the first row that cannot be read ends the loop with its error. */
  function EdgeEntries(rows: seq<Row>, n: nat): (r: Result<seq<EdgeSchema>, string>)
    requires n <= |rows|
    ensures r.Ok? ==> |r.value| == n
  {
    if n == 0 then Ok([])
    else
      match EdgeEntries(rows, n - 1)
      case Err(e) => Err(e)
      case Ok(xs) =>
        match EdgeEntry(rows[n - 1])
        case Err(e) => Err(e)
        case Ok(x) => Ok(xs + [x])
  }

  /** Reading succeeds only when every row can be read, and then yields each row's reading in row order. */
  lemma {:induction false} EdgeEntriesOk(rows: seq<Row>, n: nat, i: nat)
    requires i < n <= |rows|
    ensures EdgeEntries(rows, n).Ok? ==> EdgeEntry(rows[i]) == Ok(EdgeEntries(rows, n).value[i])
    ensures EdgeEntry(rows[i]).Err? ==> EdgeEntries(rows, n).Err?
    decreases n
  {
    if i < n - 1 {
      EdgeEntriesOk(rows, n - 1, i);
    }
  }

  /** The error of the loop is the error of the first row that cannot be read. */
  lemma {:induction false} EdgeEntriesFirstError(rows: seq<Row>, i: nat, n: nat)
    requires i < n <= |rows| && EdgeEntries(rows, i).Ok? && EdgeEntry(rows[i]).Err?
    ensures EdgeEntries(rows, n) == Err(EdgeEntry(rows[i]).error)
    decreases n
  {
    if i < n - 1 {
      EdgeEntriesFirstError(rows, i, n - 1);
    }
  }

  // ---------------------------------------------------------------------
  // Nodes: `nodes_map`, grouped by label in first-appearance order
  // ---------------------------------------------------------------------

  /** The labels of the entries, in row order. */
  function Labels(es: seq<Entry>): (ls: seq<Json>)
    ensures |ls| == |es| && forall i :: 0 <= i < |es| ==> ls[i] == es[i].0
  {
    seq(|es|, i requires 0 <= i < |es| => es[i].0)
  }

  /** The properties of the rows labelled `l`, in row order. */
  function PropsOf(es: seq<Entry>, l: Json): (ps: seq<PropertySchema>)
    ensures |ps| <= |es|
    decreases |es|
  {
    if es == [] then []
    else
      var n := |es| - 1;
      PropsOf(es[..n], l) + if es[n].0 == l then [es[n].1] else []
  }

  /** The loop over the node rows: a label seen for the first time gets an empty list, then the property is appended. */
  function Grouped(es: seq<Entry>): (g: OrderedMap<Json, seq<PropertySchema>>)
    decreases |es|
  {
    if es == [] then Empty()
    else
      var n := |es| - 1;
      var g := Grouped(es[..n]);
      var e := es[n];
      Put(g, e.0, (if e.0 in g.values then g.values[e.0] else []) + [e.1])
  }

  /** `nodes_map` lists each of its labels once. */
  lemma {:induction false} GroupedValid(es: seq<Entry>)
    ensures Valid(Grouped(es))
    decreases |es|
  {
    if es != [] {
      GroupedValid(es[..|es| - 1]);
    }
  }

  /** One more node row. */
  lemma GroupedSnoc(es: seq<Entry>, e: Entry)
    ensures var g := Grouped(es);
      Grouped(es + [e]) == Put(g, e.0, (if e.0 in g.values then g.values[e.0] else []) + [e.1])
  {
    assert (es + [e])[..|es|] == es;
  }

  /** `nodes_map` holds a label exactly when some row has it, and then the properties of those rows in row order. */
  lemma {:induction false} GroupedValues(es: seq<Entry>, l: Json)
    ensures l in Grouped(es).values <==> PropsOf(es, l) != []
    ensures l in Grouped(es).values ==> Grouped(es).values[l] == PropsOf(es, l)
    decreases |es|
  {
    if es != [] {
      GroupedValues(es[..|es| - 1], l);
    }
  }

  /** Each element once, at the place of its first occurrence. */
  function Dedup<T(==, !new)>(xs: seq<T>): seq<T>
    decreases |xs|
  {
    if xs == [] then []
    else
      var n := |xs| - 1;
      var d := Dedup(xs[..n]);
      if xs[n] in d then d else d + [xs[n]]
  }

  /** One more element. */
  lemma DedupSnoc<T(!new)>(xs: seq<T>, x: T)
    ensures Dedup(xs + [x]) == if x in Dedup(xs) then Dedup(xs) else Dedup(xs) + [x]
  {
    assert (xs + [x])[..|xs|] == xs;
  }

  /** No element is listed twice. */
  lemma {:induction false} DedupDistinct<T(!new)>(xs: seq<T>, i: nat, j: nat)
    requires i < j < |Dedup(xs)|
    ensures Dedup(xs)[i] != Dedup(xs)[j]
    decreases |xs|
  {
    var n := |xs| - 1;
    var d := Dedup(xs[..n]);
    if j < |d| {
      DedupDistinct(xs[..n], i, j);
    } else {
      assert d[i] in d;
    }
  }

  /** The set of the elements, built one by one as `edges_set` is. */
  ghost function Seen<T>(xs: seq<T>): set<T>
    decreases |xs|
  {
    if xs == [] then {} else Seen(xs[..|xs| - 1]) + {xs[|xs| - 1]}
  }

  lemma SeenSnoc<T>(xs: seq<T>, x: T)
    ensures Seen(xs + [x]) == Seen(xs) + {x}
  {
    assert (xs + [x])[..|xs|] == xs;
  }

  /** `edges_set` and `edges` hold the same edges. */
  lemma {:induction false} SeenDedup<T(!new)>(xs: seq<T>, x: T)
    ensures x in Seen(xs) <==> x in Dedup(xs)
    decreases |xs|
  {
    if xs != [] {
      SeenDedup(xs[..|xs| - 1], x);
    }
  }

  /** Nothing is lost and nothing is added. */
  lemma {:induction false} DedupMembers<T(!new)>(xs: seq<T>, x: T)
    ensures x in Dedup(xs) <==> x in xs
    decreases |xs|
  {
    if xs != [] {
      var n := |xs| - 1;
      DedupMembers(xs[..n], x);
      assert xs == xs[..n] + [xs[n]];
    }
  }

  /** First-appearance order: wherever an element occurs, every element listed before it has already occurred. */
  lemma {:induction false} DedupOrder<T(!new)>(xs: seq<T>, a: nat, b: nat, j: nat)
    requires a < b < |Dedup(xs)| && j < |xs| && xs[j] == Dedup(xs)[b]
    ensures Dedup(xs)[a] in xs[..j]
    decreases |xs|
  {
    var n := |xs| - 1;
    var d := Dedup(xs[..n]);
    if j < n {
      assert xs[..n][j] == xs[j];
      DedupMembers(xs[..n], xs[j]);
      DedupOrder(xs[..n], a, b, j);
      assert xs[..n][..j] == xs[..j];
    } else {
      DedupMembers(xs[..n], d[a]);
    }
  }

  /** The labels of `nodes_map` are the distinct labels of the rows, in first-appearance order. */
  lemma {:induction false} GroupedKeys(es: seq<Entry>)
    ensures Grouped(es).keys == Dedup(Labels(es))
    decreases |es|
  {
    if es != [] {
      var n := |es| - 1;
      GroupedKeys(es[..n]);
      assert Labels(es)[..n] == Labels(es[..n]);
      GroupedValues(es[..n], es[n].0);
      DedupMembers(Labels(es[..n]), es[n].0);
      PropsOfLabels(es[..n], es[n].0);
    }
  }

  /** A label has properties exactly when it is among the rows' labels. */
  lemma {:induction false} PropsOfLabels(es: seq<Entry>, l: Json)
    ensures PropsOf(es, l) != [] <==> l in Labels(es)
    decreases |es|
  {
    if es != [] {
      var n := |es| - 1;
      PropsOfLabels(es[..n], l);
      assert Labels(es) == Labels(es[..n]) + [es[n].0];
    }
  }

  /** `[NodeSchema(label=k, properties=v) for k, v in nodes_map.items()]`. */
  function NodesOf(g: OrderedMap<Json, seq<PropertySchema>>): (nodes: seq<NodeSchema>)
    ensures |nodes| == |g.keys|
    ensures forall i :: 0 <= i < |g.keys| && g.keys[i] in g.values ==> nodes[i] == NodeSchema(g.keys[i], g.values[g.keys[i]])
  {
    seq(|g.keys|, i requires 0 <= i < |g.keys| =>
      NodeSchema(g.keys[i], if g.keys[i] in g.values then g.values[g.keys[i]] else []))
  }

  /** The number of properties over all nodes. */
  function TotalProps(nodes: seq<NodeSchema>): nat
    decreases |nodes|
  {
    if nodes == [] then 0 else TotalProps(nodes[..|nodes| - 1]) + |nodes[|nodes| - 1].properties|
  }

  /** The number of properties the rows give the labels `ls`. */
  function SumProps(ls: seq<Json>, es: seq<Entry>): nat
    decreases |ls|
  {
    if ls == [] then 0 else SumProps(ls[..|ls| - 1], es) + |PropsOf(es, ls[|ls| - 1])|
  }

  /** The properties of a label gain the new row's property exactly when the row has that label. */
  lemma PropsOfSnoc(es: seq<Entry>, e: Entry, l: Json)
    ensures PropsOf(es + [e], l) == PropsOf(es, l) + if e.0 == l then [e.1] else []
  {
    assert (es + [e])[..|es|] == es;
  }

  /** A new row adds one property to the labels `ls` when its label is one of them, none otherwise. */
  lemma {:induction false} SumPropsSnoc(ls: seq<Json>, es: seq<Entry>, e: Entry)
    requires forall i, j :: 0 <= i < j < |ls| ==> ls[i] != ls[j]
    ensures SumProps(ls, es + [e]) == SumProps(ls, es) + if e.0 in ls then 1 else 0
    decreases |ls|
  {
    if ls != [] {
      var n := |ls| - 1;
      SumPropsSnoc(ls[..n], es, e);
      PropsOfSnoc(es, e, ls[n]);
      assert ls == ls[..n] + [ls[n]];
      assert e.0 == ls[n] ==> e.0 !in ls[..n];
    }
  }

  /** Appending a label adds its properties. */
  lemma SumPropsAppend(ls: seq<Json>, l: Json, es: seq<Entry>)
    ensures SumProps(ls + [l], es) == SumProps(ls, es) + |PropsOf(es, l)|
  {
    assert (ls + [l])[..|ls|] == ls;
  }

  /** Node properties are summed up over the labels. */
  lemma {:induction false} TotalPropsOfKeys(es: seq<Entry>, m: nat)
    requires m <= |Grouped(es).keys|
    ensures TotalProps(NodesOf(Grouped(es))[..m]) == SumProps(Grouped(es).keys[..m], es)
    decreases m
  {
    if m > 0 {
      var g := Grouped(es);
      TotalPropsOfKeys(es, m - 1);
      GroupedValid(es);
      assert NodesOf(g)[..m][..m - 1] == NodesOf(g)[..m - 1];
      assert g.keys[..m][..m - 1] == g.keys[..m - 1];
      assert g.keys[m - 1] in g.keys;
      GroupedValues(es, g.keys[m - 1]);
    }
  }

  /** Every node row contributes one property: the labels' property lists sum to the number of rows. */
  lemma {:induction false} GroupedCount(es: seq<Entry>)
    ensures SumProps(Grouped(es).keys, es) == |es|
    decreases |es|
  {
    if es != [] {
      var n := |es| - 1;
      var g := Grouped(es[..n]);
      var e := es[n];
      GroupedCount(es[..n]);
      LastSplit(es);
      GroupedSnoc(es[..n], e);
      GroupedValid(es[..n]);
      SumPropsSnoc(g.keys, es[..n], e);
      if e.0 !in g.values {
        GroupedValues(es[..n], e.0);
        SumPropsAppend(g.keys, e.0, es);
        PropsOfSnoc(es[..n], e, e.0);
      }
    }
  }

  /** The total property count of the nodes equals the number of node rows. */
  lemma PropertyCount(es: seq<Entry>)
    ensures TotalProps(NodesOf(Grouped(es))) == |es|
  {
    var g := Grouped(es);
    TotalPropsOfKeys(es, |g.keys|);
    FullSlice(NodesOf(g));
    FullSlice(g.keys);
    GroupedCount(es);
  }

  /** The whole sequence. */
  lemma FullSlice<T>(s: seq<T>)
    ensures s[..|s|] == s
  {
  }

  /** A non-empty sequence is its front and its last element. */
  lemma LastSplit<T>(s: seq<T>)
    requires s != []
    ensures s == s[..|s| - 1] + [s[|s| - 1]]
  {
  }

  /** The nodes of the schema from the node rows. */
  function NodesFrom(rows: seq<Row>): Result<seq<NodeSchema>, string>
  {
    match NodeEntries(rows, |rows|)
    case Err(e) => Err(e)
    case Ok(es) => Ok(NodesOf(Grouped(es)))
  }

  /**
   * What the nodes of the schema are: one per distinct label, in
   * first-appearance order, each with the properties of its rows in row
   * order, so that there are as many properties as node rows.
   */
  lemma NodesFromRows(rows: seq<Row>, i: nat)
    requires NodesFrom(rows).Ok?
    ensures var es := NodeEntries(rows, |rows|).value;
      |NodesFrom(rows).value| == |Dedup(Labels(es))|
    ensures TotalProps(NodesFrom(rows).value) == |rows|
    ensures var es := NodeEntries(rows, |rows|).value;
      var nodes := NodesFrom(rows).value;
      i < |nodes| ==>
        && nodes[i].nodeLabel == Dedup(Labels(es))[i]
        && nodes[i].properties == PropsOf(es, nodes[i].nodeLabel)
  {
    var es := NodeEntries(rows, |rows|).value;
    var g := Grouped(es);
    GroupedKeys(es);
    PropertyCount(es);
    GroupedValid(es);
    if i < |g.keys| {
      assert g.keys[i] in g.keys;
      GroupedValues(es, g.keys[i]);
    }
  }

  // ---------------------------------------------------------------------
  // Edges
  // ---------------------------------------------------------------------

  /** The edges from the relationship rows: one per row with APOC, deduplicated when scanning directly. */
  function EdgesFrom(rows: seq<Row>, direct: bool): Result<seq<EdgeSchema>, string>
  {
    match EdgeEntries(rows, |rows|)
    case Err(e) => Err(e)
    case Ok(edges) => Ok(if direct then Dedup(edges) else edges)
  }

  /** The schema read from the results of the node and relationship queries. */
  function SchemaFrom(name: string, nodeResult: Result<QueryResult, string>, relResult: Result<QueryResult, string>, direct: bool)
    : (r: Result<PropertyGraphSchema, string>)
    ensures nodeResult.Err? ==> r == Err(nodeResult.error)
    ensures nodeResult.Ok? && relResult.Err? ==> r == Err(relResult.error)
    ensures r.Ok? ==>
      && r.value.name == name
      && Ok(r.value.nodes) == NodesFrom(nodeResult.value.rows)
      && Ok(r.value.edges) == EdgesFrom(relResult.value.rows, direct)
  {
    match nodeResult
    case Err(e) => Err(e)
    case Ok(nq) =>
      match relResult
      case Err(e) => Err(e)
      case Ok(rq) =>
        match NodesFrom(nq.rows)
        case Err(e) => Err(e)
        case Ok(nodes) =>
          match EdgesFrom(rq.rows, direct)
          case Err(e) => Err(e)
          case Ok(edges) => Ok(PropertyGraphSchema(name, nodes, edges))
  }

  // ---------------------------------------------------------------------
  // The loops of `_get_schema_apoc` and `_get_schema_direct`
  // ---------------------------------------------------------------------

  /** The `nodes_map` loop, then the list of nodes. */
  method CollectNodes(rows: seq<Row>) returns (r: Result<seq<NodeSchema>, string>)
    ensures r == NodesFrom(rows)
  {
    var nodesMap: OrderedMap<Json, seq<PropertySchema>> := Empty();
    ghost var es: seq<Entry> := [];
    var i := 0;
    while i < |rows|
      invariant 0 <= i <= |rows|
      invariant NodeEntries(rows, i) == Ok(es)
      invariant nodesMap == Grouped(es)
    {
      var entry := NodeEntry(rows[i]);
      if entry.Err? {
        NodeEntriesFirstError(rows, i, |rows|);
        return Err(entry.error);
      }
      var lbl := entry.value.0;
      var prop := entry.value.1;
      GroupedSnoc(es, entry.value);
      // a label not seen yet starts from an empty list
      var props := if lbl in nodesMap.values then nodesMap.values[lbl] else [];
      nodesMap := Put(nodesMap, lbl, props + [prop]);
      es := es + [entry.value];
      i := i + 1;
    }
    r := Ok(NodesOf(nodesMap));
  }

  /** The APOC edge loop: one edge per row. */
  method ApocEdges(rows: seq<Row>) returns (r: Result<seq<EdgeSchema>, string>)
    ensures r == EdgesFrom(rows, false)
  {
    var edges: seq<EdgeSchema> := [];
    var i := 0;
    while i < |rows|
      invariant 0 <= i <= |rows|
      invariant EdgeEntries(rows, i) == Ok(edges)
    {
      var edge := EdgeEntry(rows[i]);
      if edge.Err? {
        EdgeEntriesFirstError(rows, i, |rows|);
        return Err(edge.error);
      }
      edges := edges + [edge.value];
      i := i + 1;
    }
    r := Ok(edges);
  }

  /** The direct edge loop: an edge whose (type, source, target) was seen before is skipped. */
  method DirectEdges(rows: seq<Row>) returns (r: Result<seq<EdgeSchema>, string>)
    ensures r == EdgesFrom(rows, true)
  {
    var edgesSet: set<EdgeSchema> := {};
    var edges: seq<EdgeSchema> := [];
    ghost var all: seq<EdgeSchema> := [];
    var i := 0;
    while i < |rows|
      invariant 0 <= i <= |rows|
      invariant EdgeEntries(rows, i) == Ok(all)
      invariant edges == Dedup(all)
      invariant edgesSet == Seen(all)
    {
      var edge := EdgeEntry(rows[i]);
      if edge.Err? {
        EdgeEntriesFirstError(rows, i, |rows|);
        return Err(edge.error);
      }
      var key := edge.value;
      DedupSnoc(all, key);
      SeenSnoc(all, key);
      SeenDedup(all, key);
      if key !in edgesSet {
        edgesSet := edgesSet + {key};
        edges := edges + [key];
      }
      all := all + [key];
      i := i + 1;
    }
    r := Ok(edges);
  }

  /**
   * The graph-side connector; `connected` stands for `_driver` holding a
   * driver. `connect` and `execute` read `self.config`, which the
   * constructor as written never sets: its `super().__init__(config)`
   * raises `TypeError` first (see `GraphConnections.Construct`). This class
   * is the connector the code evidently intends.
   */
  class GraphConnector {
    const config: ConnectionConfig
    var connected: bool

    /** The intended `__init__`: the configuration is kept as `config` and there is no driver yet. */
    constructor (config: ConnectionConfig)
      ensures this.config == config && !connected
    {
      this.config := config;
      connected := false;
    }

    method Connect()
      modifies this
      ensures connected
    {
      connected := true;
    }

    method Close()
      modifies this
      ensures !connected
    {
      connected := false;
    }

    /** What `execute` returns, given the driver's answer. */
    function Run(query: string, timeout: Option<int>, session: Session, convert: Json -> Json): (r: Result<QueryResult, string>)
      reads this
      ensures !connected ==> r == Err(NoDriver)
      ensures connected && session(DatabaseOf(config.database), query, TimeoutMs(timeout, config.timeout)).Err? ==>
        r == Err(session(DatabaseOf(config.database), query, TimeoutMs(timeout, config.timeout)).error)
    {
      if !connected then Err(NoDriver)
      else
        match session(DatabaseOf(config.database), query, TimeoutMs(timeout, config.timeout))
        case Err(e) => Err(e)
        case Ok(d) => Ok(Shaped(d, convert))
    }

    /** `execute`: the query runs on the configured database (by default "neo4j") with the timeout in milliseconds. */
    method Execute(query: string, timeout: Option<int>, session: Session, convert: Json -> Json) returns (r: Result<QueryResult, string>)
      ensures r == Run(query, timeout, session, convert)
    {
      var timeoutMs := TimeoutMs(timeout, config.timeout);
      var database := DatabaseOf(config.database);
      if !connected {
        return Err(NoDriver);
      }
      var result := session(database, query, timeoutMs);
      if result.Err? {
        return Err(result.error);
      }
      var shaped := ShapeRows(result.value, convert);
      r := Ok(shaped);
    }

    /** `_get_schema_apoc` and `_get_schema_direct`: the node query, then the relationship query, then the two loops. */
    method ReadSchema(nodeQuery: string, relQuery: string, direct: bool, session: Session, convert: Json -> Json)
      returns (r: Result<PropertyGraphSchema, string>)
      ensures r == SchemaFrom(config.name, Run(nodeQuery, None, session, convert), Run(relQuery, None, session, convert), direct)
    {
      var nodeResult := Execute(nodeQuery, None, session, convert);
      if nodeResult.Err? {
        return Err(nodeResult.error);
      }
      var relResult := Execute(relQuery, None, session, convert);
      if relResult.Err? {
        return Err(relResult.error);
      }
      var nodes := CollectNodes(nodeResult.value.rows);
      if nodes.Err? {
        return Err(nodes.error);
      }
      var edges;
      if direct {
        edges := DirectEdges(relResult.value.rows);
      } else {
        edges := ApocEdges(relResult.value.rows);
      }
      if edges.Err? {
        return Err(edges.error);
      }
      r := Ok(PropertyGraphSchema(config.name, nodes.value, edges.value));
    }

    /** `get_schema`: APOC only for the mode "apoc", the direct scan for any other mode. */
    method GetSchema(mode: string, session: Session, convert: Json -> Json) returns (r: Result<PropertyGraphSchema, string>)
      ensures mode == "apoc" ==> r == SchemaFrom(config.name,
        Run(NodePropertiesQuery, None, session, convert), Run(RelQuery, None, session, convert), false)
      ensures mode != "apoc" ==> r == SchemaFrom(config.name,
        Run(DirectNodePropertiesQuery, None, session, convert), Run(DirectRelQuery, None, session, convert), true)
    {
      if mode == "apoc" {
        r := ReadSchema(NodePropertiesQuery, RelQuery, false, session, convert);
      } else {
        r := ReadSchema(DirectNodePropertiesQuery, DirectRelQuery, true, session, convert);
      }
    }
  }
}
