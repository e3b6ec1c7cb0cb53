/**
 * The property-graph schema of the execution package
 * (src/nl2graph/execution/schema/cypher.py): its rendering into the
 * prompt text, its reading from a JSON dictionary, and `to_dict`.
 */
module CypherSchemas {
  import opened Wrappers
  import opened Strs
  import opened Json
  import opened SchemaInput

  datatype PropertySchema = PropertySchema(name: string, dataType: string)

  datatype NodeSchema = NodeSchema(nodeLabel: string, properties: seq<PropertySchema>)

  datatype EdgeSchema = EdgeSchema(edgeLabel: string, sourceLabel: string, targetLabel: string, properties: seq<PropertySchema>)

  datatype CypherSchema = CypherSchema(name: string, nodes: seq<NodeSchema>, edges: seq<EdgeSchema>)

  // ---------------------------------------------------------------------
  // to_prompt_string
  // ---------------------------------------------------------------------

  /** `", ".join(f"{p.name}: {p.data_type}" for p in props)`: empty exactly when there are no properties. */
  function PropsText(ps: seq<PropertySchema>): (t: string)
    ensures t == "" <==> ps == []
  {
    var parts := seq(|ps|, i requires 0 <= i < |ps| => ps[i].name + ": " + ps[i].dataType);
    JoinStarts(", ", parts);
    Join(", ", parts)
  }

  function NodeKey(n: NodeSchema): string { n.nodeLabel }

  function EdgeKey(e: EdgeSchema): string { e.edgeLabel }

  /** A node's line: its label in parentheses, then its properties in brackets when there are any. */
  function NodeLine(n: NodeSchema): string
  {
    var props := PropsText(n.properties);
    if props != "" then "  (" + n.nodeLabel + ") [" + props + "]" else "  (" + n.nodeLabel + ")"
  }

  /** An edge's line: the pattern `(:S)-[:L]->(:T)`, then its properties in brackets when there are any. */
  function EdgeLine(e: EdgeSchema): string
  {
    var props := PropsText(e.properties);
    var edgeStr := "  (:" + e.sourceLabel + ")-[:" + e.edgeLabel + "]->(:" + e.targetLabel + ")";
    if props != "" then edgeStr + " [" + props + "]" else edgeStr
  }

  /** One line per node, in the given order. */
  function NodeLines(ns: seq<NodeSchema>): (ls: seq<string>)
    ensures |ls| == |ns|
    decreases |ns|
  {
    if ns == [] then [] else NodeLines(ns[..|ns| - 1]) + [NodeLine(ns[|ns| - 1])]
  }

  /** One line per edge, in the given order. */
  function EdgeLines(es: seq<EdgeSchema>): (ls: seq<string>)
    ensures |ls| == |es|
    decreases |es|
  {
    if es == [] then [] else EdgeLines(es[..|es| - 1]) + [EdgeLine(es[|es| - 1])]
  }

  /** Line `i` is the line of node `i`. */
  lemma {:induction false} NodeLinesAt(ns: seq<NodeSchema>, i: nat)
    requires i < |ns|
    ensures NodeLines(ns)[i] == NodeLine(ns[i])
    decreases |ns|
  {
    var n := |ns| - 1;
    if i < n {
      NodeLinesAt(ns[..n], i);
    }
  }

  /** Line `i` is the line of edge `i`. */
  lemma {:induction false} EdgeLinesAt(es: seq<EdgeSchema>, i: nat)
    requires i < |es|
    ensures EdgeLines(es)[i] == EdgeLine(es[i])
    decreases |es|
  {
    var n := |es| - 1;
    if i < n {
      EdgeLinesAt(es[..n], i);
    }
  }

  lemma NodeLinesSnoc(ns: seq<NodeSchema>, i: nat)
    requires i < |ns|
    ensures NodeLines(ns[..i + 1]) == NodeLines(ns[..i]) + [NodeLine(ns[i])]
  {
    assert ns[..i + 1][..i] == ns[..i];
  }

  lemma EdgeLinesSnoc(es: seq<EdgeSchema>, i: nat)
    requires i < |es|
    ensures EdgeLines(es[..i + 1]) == EdgeLines(es[..i]) + [EdgeLine(es[i])]
  {
    assert es[..i + 1][..i] == es[..i];
  }

  function Header(name: string): seq<string>
  {
    ["Graph: " + name, "", "Nodes:"]
  }

  const EdgesHeader: seq<string> := ["", "Edges:"]

  /** The prompt's lines for nodes and edges already in print order. */
  function Lines(name: string, ns: seq<NodeSchema>, es: seq<EdgeSchema>): seq<string>
  {
    Header(name) + NodeLines(ns) + EdgesHeader + EdgeLines(es)
  }

  /** The lines of the prompt text: header, nodes sorted by label, a blank line, edges sorted by label. */
  function PromptLines(s: CypherSchema): seq<string>
  {
    Lines(s.name, SortBy(s.nodes, NodeKey), SortBy(s.edges, EdgeKey))
  }

  /** Three header lines, one line per node, two more, one per edge. */
  lemma LinesShape(name: string, ns: seq<NodeSchema>, es: seq<EdgeSchema>)
    ensures var lines := Lines(name, ns, es);
      && |lines| == 5 + |ns| + |es|
      && lines[0] == "Graph: " + name && lines[1] == "" && lines[2] == "Nodes:"
      && lines[3 + |ns|] == "" && lines[4 + |ns|] == "Edges:"
  {
  }

  /** Line `3 + i` is the line of node `i`. */
  lemma LinesNode(name: string, ns: seq<NodeSchema>, es: seq<EdgeSchema>, i: nat)
    requires i < |ns|
    ensures Lines(name, ns, es)[3 + i] == NodeLine(ns[i])
  {
    NodeLinesAt(ns, i);
    var a := Header(name) + NodeLines(ns);
    assert Lines(name, ns, es)[3 + i] == a[3 + i];
  }

  /** Line `5 + |ns| + i` is the line of edge `i`. */
  lemma LinesEdge(name: string, ns: seq<NodeSchema>, es: seq<EdgeSchema>, i: nat)
    requires i < |es|
    ensures Lines(name, ns, es)[5 + |ns| + i] == EdgeLine(es[i])
  {
    EdgeLinesAt(es, i);
  }

  /** The prompt opens with the graph's name and ends its node list with a blank line before the edges. */
  lemma PromptShape(s: CypherSchema)
    ensures var lines := PromptLines(s);
      && |lines| == 5 + |s.nodes| + |s.edges|
      && lines[0] == "Graph: " + s.name && lines[1] == "" && lines[2] == "Nodes:"
      && lines[3 + |s.nodes|] == "" && lines[4 + |s.nodes|] == "Edges:"
  {
    LinesShape(s.name, SortBy(s.nodes, NodeKey), SortBy(s.edges, EdgeKey));
  }

  /** Every node of the schema has its line among the node lines. */
  lemma PromptListsNode(s: CypherSchema, n: NodeSchema)
    requires n in s.nodes
    ensures exists k :: 3 <= k < 3 + |s.nodes| && PromptLines(s)[k] == NodeLine(n)
  {
    var ns := SortBy(s.nodes, NodeKey);
    assert n in ns by {
      assert n in multiset(s.nodes);
    }
    var i :| 0 <= i < |ns| && ns[i] == n;
    PromptNodeAt(s, i);
  }

  /** Every edge of the schema has its line among the edge lines. */
  lemma PromptListsEdge(s: CypherSchema, e: EdgeSchema)
    requires e in s.edges
    ensures exists k :: 5 + |s.nodes| <= k < 5 + |s.nodes| + |s.edges| && PromptLines(s)[k] == EdgeLine(e)
  {
    var es := SortBy(s.edges, EdgeKey);
    assert e in es by {
      assert e in multiset(s.edges);
    }
    var i :| 0 <= i < |es| && es[i] == e;
    PromptEdgeAt(s, i);
  }

  /** Line `3 + i` is the line of the `i`-th node by label, a node of the schema. */
  lemma PromptNodeAt(s: CypherSchema, i: nat)
    requires i < |s.nodes|
    ensures PromptLines(s)[3 + i] == NodeLine(SortBy(s.nodes, NodeKey)[i])
    ensures SortBy(s.nodes, NodeKey)[i] in s.nodes
  {
    var ns := SortBy(s.nodes, NodeKey);
    LinesNode(s.name, ns, SortBy(s.edges, EdgeKey), i);
    assert ns[i] in multiset(ns);
  }

  /** Line `5 + |nodes| + i` is the line of the `i`-th edge by label, an edge of the schema. */
  lemma PromptEdgeAt(s: CypherSchema, i: nat)
    requires i < |s.edges|
    ensures PromptLines(s)[5 + |s.nodes| + i] == EdgeLine(SortBy(s.edges, EdgeKey)[i])
    ensures SortBy(s.edges, EdgeKey)[i] in s.edges
  {
    var es := SortBy(s.edges, EdgeKey);
    LinesEdge(s.name, SortBy(s.nodes, NodeKey), es, i);
    assert es[i] in multiset(es);
  }

  /** The node lines come in label order. */
  lemma PromptNodesSorted(s: CypherSchema, i: nat, j: nat)
    requires i < j < |s.nodes|
    ensures LessEq(SortBy(s.nodes, NodeKey)[i].nodeLabel, SortBy(s.nodes, NodeKey)[j].nodeLabel)
  {
    var ns := SortBy(s.nodes, NodeKey);
    assert LessEq(NodeKey(ns[i]), NodeKey(ns[j]));
  }

  /** The edge lines come in label order. */
  lemma PromptEdgesSorted(s: CypherSchema, i: nat, j: nat)
    requires i < j < |s.edges|
    ensures LessEq(SortBy(s.edges, EdgeKey)[i].edgeLabel, SortBy(s.edges, EdgeKey)[j].edgeLabel)
  {
    var es := SortBy(s.edges, EdgeKey);
    assert LessEq(EdgeKey(es[i]), EdgeKey(es[j]));
  }

  /** The first loop of `to_prompt_string`: one line appended per node. */
  method AppendNodeLines(lines0: seq<string>, nodes: seq<NodeSchema>) returns (lines: seq<string>)
    ensures lines == lines0 + NodeLines(nodes)
  {
    lines := lines0;
    var i := 0;
    while i < |nodes|
      invariant 0 <= i <= |nodes|
      invariant lines == lines0 + NodeLines(nodes[..i])
    {
      NodeLinesSnoc(nodes, i);
      var props := PropsText(nodes[i].properties);
      lines := lines + [if props != "" then "  (" + nodes[i].nodeLabel + ") [" + props + "]" else "  (" + nodes[i].nodeLabel + ")"];
      i := i + 1;
    }
    assert nodes[..|nodes|] == nodes;
  }

  /** The second loop of `to_prompt_string`: one line appended per edge. */
  method AppendEdgeLines(lines0: seq<string>, edges: seq<EdgeSchema>) returns (lines: seq<string>)
    ensures lines == lines0 + EdgeLines(edges)
  {
    lines := lines0;
    var j := 0;
    while j < |edges|
      invariant 0 <= j <= |edges|
      invariant lines == lines0 + EdgeLines(edges[..j])
    {
      EdgeLinesSnoc(edges, j);
      var e := edges[j];
      var props := PropsText(e.properties);
      var edgeStr := "  (:" + e.sourceLabel + ")-[:" + e.edgeLabel + "]->(:" + e.targetLabel + ")";
      if props != "" {
        edgeStr := edgeStr + " [" + props + "]";
      }
      lines := lines + [edgeStr];
      j := j + 1;
    }
    assert edges[..|edges|] == edges;
  }

  /** `to_prompt_string`: the lines are built by appending, then joined with newlines. */
  method ToPromptString(s: CypherSchema) returns (text: string)
    ensures text == Join("\n", PromptLines(s))
  {
    var lines := ["Graph: " + s.name, "", "Nodes:"];
    lines := AppendNodeLines(lines, SortBy(s.nodes, NodeKey));
    lines := lines + [""];
    lines := lines + ["Edges:"];
    ghost var head := lines;
    lines := AppendEdgeLines(lines, SortBy(s.edges, EdgeKey));
    assert head == Header(s.name) + NodeLines(SortBy(s.nodes, NodeKey)) + EdgesHeader;
    text := Join("\n", lines);
  }

  /** Neither the name nor the type of any property holds a line break. */
  predicate PropsSingleLine(ps: seq<PropertySchema>)
  {
    forall i :: 0 <= i < |ps| ==> '\n' !in ps[i].name && '\n' !in ps[i].dataType
  }

  predicate NodeSingleLine(n: NodeSchema)
  {
    '\n' !in n.nodeLabel && PropsSingleLine(n.properties)
  }

  predicate EdgeSingleLine(e: EdgeSchema)
  {
    '\n' !in e.edgeLabel && '\n' !in e.sourceLabel && '\n' !in e.targetLabel && PropsSingleLine(e.properties)
  }

  /** No name, label, property name or type of the schema holds a line break. */
  predicate SingleLineNames(s: CypherSchema)
  {
    && '\n' !in s.name
    && (forall n :: n in s.nodes ==> NodeSingleLine(n))
    && (forall e :: e in s.edges ==> EdgeSingleLine(e))
  }

  lemma PropsTextSingleLine(ps: seq<PropertySchema>)
    requires PropsSingleLine(ps)
    ensures '\n' !in PropsText(ps)
  {
    var parts := seq(|ps|, i requires 0 <= i < |ps| => ps[i].name + ": " + ps[i].dataType);
    JoinFree(", ", parts, '\n');
  }

  lemma NodeLineSingle(n: NodeSchema)
    requires NodeSingleLine(n)
    ensures '\n' !in NodeLine(n)
  {
    PropsTextSingleLine(n.properties);
  }

  lemma EdgeLineSingle(e: EdgeSchema)
    requires EdgeSingleLine(e)
    ensures '\n' !in EdgeLine(e)
  {
    PropsTextSingleLine(e.properties);
  }

  lemma LinesHeadSingle(name: string, ns: seq<NodeSchema>, es: seq<EdgeSchema>, k: nat)
    requires '\n' !in name && (k < 3 || k == 3 + |ns| || k == 4 + |ns|)
    ensures '\n' !in Lines(name, ns, es)[k]
  {
    LinesShape(name, ns, es);
  }

  lemma PromptHeadSingle(s: CypherSchema, k: nat)
    requires '\n' !in s.name && (k < 3 || k == 3 + |s.nodes| || k == 4 + |s.nodes|)
    ensures '\n' !in PromptLines(s)[k]
  {
    LinesHeadSingle(s.name, SortBy(s.nodes, NodeKey), SortBy(s.edges, EdgeKey), k);
  }

  /** Every line of the prompt is free of line breaks when the names are. */
  lemma PromptLinesSingle(s: CypherSchema, k: nat)
    requires SingleLineNames(s) && k < |PromptLines(s)|
    ensures '\n' !in PromptLines(s)[k]
  {
    if 3 <= k < 3 + |s.nodes| {
      PromptNodeAt(s, k - 3);
      NodeLineSingle(SortBy(s.nodes, NodeKey)[k - 3]);
    } else if 5 + |s.nodes| <= k {
      PromptEdgeAt(s, k - 5 - |s.nodes|);
      EdgeLineSingle(SortBy(s.edges, EdgeKey)[k - 5 - |s.nodes|]);
    } else {
      PromptHeadSingle(s, k);
    }
  }

  /** When no name holds a line break, the prompt text splits back into exactly its lines. */
  lemma PromptSplits(s: CypherSchema)
    requires SingleLineNames(s)
    ensures Split(Join("\n", PromptLines(s)), '\n') == PromptLines(s)
  {
    forall k | 0 <= k < |PromptLines(s)|
      ensures '\n' !in PromptLines(s)[k]
    {
      PromptLinesSingle(s, k);
    }
    LinesShape(s.name, SortBy(s.nodes, NodeKey), SortBy(s.edges, EdgeKey));
    JoinSplit(PromptLines(s), '\n');
  }

  // ---------------------------------------------------------------------
  // from_dict
  // ---------------------------------------------------------------------

  /** `PropertySchema(**p)`. */
  function PropOf(p: Json): (r: Result<PropertySchema, string>)
    ensures r.Ok? <==> p.JObj? && "name" in p.fields && p.fields["name"].JStr?
                       && "data_type" in p.fields && p.fields["data_type"].JStr?
    ensures r.Ok? ==> r.value == PropertySchema(p.fields["name"].s, p.fields["data_type"].s)
  {
    match AsKwargs(p)
    case Err(e) => Err(e)
    case Ok(d) =>
      match StrField(d, "name")
      case Err(e) => Err(e)
      case Ok(name) =>
        match StrField(d, "data_type")
        case Err(e) => Err(e)
        case Ok(t) => Ok(PropertySchema(name, t))
  }

  /** `[PropertySchema(**p) for p in raw_props]`: the first item that is not a property ends it with its error. */
  function PropList(ps: seq<Json>): (r: Result<seq<PropertySchema>, string>)
    ensures r.Ok? ==> |r.value| == |ps|
    decreases |ps|
  {
    if ps == [] then Ok([])
    else
      var n := |ps| - 1;
      match PropList(ps[..n])
      case Err(e) => Err(e)
      case Ok(xs) =>
        match PropOf(ps[n])
        case Err(e) => Err(e)
        case Ok(x) => Ok(xs + [x])
  }

  /** `[PropertySchema(name=k, data_type=str(v)) for k, v in raw_props.items()]`, taking the keys in ascending order. */
  function DictProps(m: map<string, Json>): seq<PropertySchema>
    decreases |m|
  {
    if m == map[] then []
    else
      MinExists(m.Keys);
      MinUnique(m.Keys);
      var k :| IsMin(k, m.Keys);
      [PropertySchema(k, Render(m[k]))] + DictProps(m - {k})
  }

  /** One property per key: each key gives the property named by it and typed by the text of its value. */
  lemma {:induction false} DictPropsKeys(m: map<string, Json>, k: string)
    ensures |DictProps(m)| == |m|
    ensures k in m ==> PropertySchema(k, Render(m[k])) in DictProps(m)
    decreases |m|
  {
    if m != map[] {
      MinExists(m.Keys);
      MinUnique(m.Keys);
      var x :| IsMin(x, m.Keys);
      assert |m.Keys - {x}| == |m.Keys| - 1;
      assert (m - {x}).Keys == m.Keys - {x};
      DictPropsKeys(m - {x}, k);
      if k in m && k != x {
        assert k in m - {x};
      }
    }
  }

  /** The properties of a node or edge: a dict gives (name, `str(type)`) pairs, a list gives its items, anything else none. */
  function PropsFrom(raw: Json): (r: Result<seq<PropertySchema>, string>)
    ensures raw.JObj? ==> r.Ok?
    ensures !raw.JObj? && !raw.JArr? ==> r == Ok([])
  {
    match raw
    case JObj(m) => Ok(DictProps(m))
    case JArr(ps) => PropList(ps)
    case _ => Ok([])
  }

  /** A dict of properties gives one property per key, typed by the text of its value. */
  lemma PropsFromDict(m: map<string, Json>, k: string)
    ensures |PropsFrom(JObj(m)).value| == |m|
    ensures k in m ==> PropertySchema(k, Render(m[k])) in PropsFrom(JObj(m)).value
  {
    DictPropsKeys(m, k);
  }

  /** One entry of the node list. */
  function NodeOf(n: Json): Result<NodeSchema, string>
  {
    match AsDict(n)
    case Err(e) => Err(e)
    case Ok(d) =>
      match PropsFrom(GetOr(d, "properties", JObj(map[])))
      case Err(e) => Err(e)
      case Ok(props) =>
        match Index(d, "label")
        case Err(e) => Err(e)
        case Ok(l) =>
          match AsStr(l, "label")
          case Err(e) => Err(e)
          case Ok(lbl) => Ok(NodeSchema(lbl, props))
  }

  /** `e.get(k1) or e.get(k2)`. */
  function OrGet(d: Dict, k1: string, k2: string): (j: Json)
    ensures !Falsy(GetOr(d, k1, JNull)) ==> j == d[k1]
    ensures Falsy(GetOr(d, k1, JNull)) ==> j == GetOr(d, k2, JNull)
  {
    var a := GetOr(d, k1, JNull);
    if Falsy(a) then GetOr(d, k2, JNull) else a
  }

  /** One entry of the edge list; the endpoints fall back to `subj_label` and `obj_label`. */
  function EdgeOf(e: Json): Result<EdgeSchema, string>
  {
    match AsDict(e)
    case Err(err) => Err(err)
    case Ok(d) =>
      match PropsFrom(GetOr(d, "properties", JObj(map[])))
      case Err(err) => Err(err)
      case Ok(props) =>
        match Index(d, "label")
        case Err(err) => Err(err)
        case Ok(l) =>
          var source := OrGet(d, "source_label", "subj_label");
          var target := OrGet(d, "target_label", "obj_label");
          match AsStr(l, "label")
          case Err(err) => Err(err)
          case Ok(lbl) =>
            match AsStr(source, "source_label")
            case Err(err) => Err(err)
            case Ok(src) =>
              match AsStr(target, "target_label")
              case Err(err) => Err(err)
              case Ok(tgt) => Ok(EdgeSchema(lbl, src, tgt, props))
  }

  /** The edge's endpoints: `source_label` unless it is absent or empty, then `subj_label`; likewise for the target. */
  lemma EdgeEndpoints(d: Dict)
    requires EdgeOf(JObj(d)).Ok?
    ensures "label" in d && d["label"] == JStr(EdgeOf(JObj(d)).value.edgeLabel)
    ensures !Falsy(GetOr(d, "source_label", JNull)) ==> d["source_label"] == JStr(EdgeOf(JObj(d)).value.sourceLabel)
    ensures Falsy(GetOr(d, "source_label", JNull)) ==> d["subj_label"] == JStr(EdgeOf(JObj(d)).value.sourceLabel)
    ensures !Falsy(GetOr(d, "target_label", JNull)) ==> d["target_label"] == JStr(EdgeOf(JObj(d)).value.targetLabel)
    ensures Falsy(GetOr(d, "target_label", JNull)) ==> d["obj_label"] == JStr(EdgeOf(JObj(d)).value.targetLabel)
  {
  }

  /** The first `k` nodes read. */
  function NodesUpTo(items: seq<Json>, k: nat): (r: Result<seq<NodeSchema>, string>)
    requires k <= |items|
    ensures r.Ok? ==> |r.value| == k
  {
    if k == 0 then Ok([])
    else
      match NodesUpTo(items, k - 1)
      case Err(e) => Err(e)
      case Ok(ns) =>
        match NodeOf(items[k - 1])
        case Err(e) => Err(e)
        case Ok(n) => Ok(ns + [n])
  }

  /** The first `k` edges read. */
  function EdgesUpTo(items: seq<Json>, k: nat): (r: Result<seq<EdgeSchema>, string>)
    requires k <= |items|
    ensures r.Ok? ==> |r.value| == k
  {
    if k == 0 then Ok([])
    else
      match EdgesUpTo(items, k - 1)
      case Err(e) => Err(e)
      case Ok(es) =>
        match EdgeOf(items[k - 1])
        case Err(e) => Err(e)
        case Ok(x) => Ok(es + [x])
  }

  /** The node that each item becomes, in item order. */
  lemma {:induction false} NodesUpToAt(items: seq<Json>, k: nat, i: nat)
    requires i < k <= |items| && NodesUpTo(items, k).Ok?
    ensures NodeOf(items[i]) == Ok(NodesUpTo(items, k).value[i])
    decreases k
  {
    if i < k - 1 {
      NodesUpToAt(items, k - 1, i);
    }
  }

  /** The edge that each item becomes, in item order. */
  lemma {:induction false} EdgesUpToAt(items: seq<Json>, k: nat, i: nat)
    requires i < k <= |items| && EdgesUpTo(items, k).Ok?
    ensures EdgeOf(items[i]) == Ok(EdgesUpTo(items, k).value[i])
    decreases k
  {
    if i < k - 1 {
      EdgesUpToAt(items, k - 1, i);
    }
  }

  /** `from_dict`: nodes (or entities), then edges (or relations), then the name. */
  function Parse(data: Json): Result<CypherSchema, string>
  {
    match AsDict(data)
    case Err(e) => Err(e)
    case Ok(d) =>
      match Items(Either(d, "nodes", "entities"))
      case Err(e) => Err(e)
      case Ok(nodeItems) =>
        match NodesUpTo(nodeItems, |nodeItems|)
        case Err(e) => Err(e)
        case Ok(nodes) =>
          match Items(Either(d, "edges", "relations"))
          case Err(e) => Err(e)
          case Ok(edgeItems) =>
            match EdgesUpTo(edgeItems, |edgeItems|)
            case Err(e) => Err(e)
            case Ok(edges) =>
              match Index(d, "name")
              case Err(e) => Err(e)
              case Ok(n) =>
                match AsStr(n, "name")
                case Err(e) => Err(e)
                case Ok(name) => Ok(CypherSchema(name, nodes, edges))
  }

  /** A schema read from a dict has the dict's nodes list when it is non-empty, and the entities list otherwise. */
  lemma ParseNodes(d: Dict, i: nat)
    requires Parse(JObj(d)).Ok?
    ensures var items := Items(Either(d, "nodes", "entities")).value;
      && |Parse(JObj(d)).value.nodes| == |items|
      && (i < |items| ==> NodeOf(items[i]) == Ok(Parse(JObj(d)).value.nodes[i]))
    ensures "nodes" in d && !Falsy(d["nodes"]) ==> Items(d["nodes"]).Ok? && Items(Either(d, "nodes", "entities")) == Items(d["nodes"])
  {
    var items := Items(Either(d, "nodes", "entities")).value;
    if i < |items| {
      NodesUpToAt(items, |items|, i);
    }
  }

  /** Likewise for the edges and the relations list. */
  lemma ParseEdges(d: Dict, i: nat)
    requires Parse(JObj(d)).Ok?
    ensures var items := Items(Either(d, "edges", "relations")).value;
      && |Parse(JObj(d)).value.edges| == |items|
      && (i < |items| ==> EdgeOf(items[i]) == Ok(Parse(JObj(d)).value.edges[i]))
    ensures "edges" in d && !Falsy(d["edges"]) ==> Items(d["edges"]).Ok? && Items(Either(d, "edges", "relations")) == Items(d["edges"])
  {
    var items := Items(Either(d, "edges", "relations")).value;
    if i < |items| {
      EdgesUpToAt(items, |items|, i);
    }
  }

  /** The node loop of `from_dict`. */
  method CollectNodes(items: seq<Json>) returns (r: Result<seq<NodeSchema>, string>)
    ensures r == NodesUpTo(items, |items|)
  {
    var nodes: seq<NodeSchema> := [];
    var i := 0;
    while i < |items|
      invariant 0 <= i <= |items|
      invariant NodesUpTo(items, i) == Ok(nodes)
    {
      var node := NodeOf(items[i]);
      if node.Err? {
        NodesFirstError(items, i, |items|);
        return Err(node.error);
      }
      nodes := nodes + [node.value];
      i := i + 1;
    }
    r := Ok(nodes);
  }

  /** The edge loop of `from_dict`. */
  method CollectEdges(items: seq<Json>) returns (r: Result<seq<EdgeSchema>, string>)
    ensures r == EdgesUpTo(items, |items|)
  {
    var edges: seq<EdgeSchema> := [];
    var i := 0;
    while i < |items|
      invariant 0 <= i <= |items|
      invariant EdgesUpTo(items, i) == Ok(edges)
    {
      var edge := EdgeOf(items[i]);
      if edge.Err? {
        EdgesFirstError(items, i, |items|);
        return Err(edge.error);
      }
      edges := edges + [edge.value];
      i := i + 1;
    }
    r := Ok(edges);
  }

  lemma {:induction false} NodesFirstError(items: seq<Json>, i: nat, k: nat)
    requires i < k <= |items| && NodesUpTo(items, i).Ok? && NodeOf(items[i]).Err?
    ensures NodesUpTo(items, k) == Err(NodeOf(items[i]).error)
    decreases k
  {
    if i < k - 1 {
      NodesFirstError(items, i, k - 1);
    }
  }

  lemma {:induction false} EdgesFirstError(items: seq<Json>, i: nat, k: nat)
    requires i < k <= |items| && EdgesUpTo(items, i).Ok? && EdgeOf(items[i]).Err?
    ensures EdgesUpTo(items, k) == Err(EdgeOf(items[i]).error)
    decreases k
  {
    if i < k - 1 {
      EdgesFirstError(items, i, k - 1);
    }
  }

  /** `from_dict`. */
  method FromDict(data: Json) returns (r: Result<CypherSchema, string>)
    ensures r == Parse(data)
  {
    if !data.JObj? {
      return Err(NoGet);
    }
    var d := data.fields;
    var nodeItems := Items(Either(d, "nodes", "entities"));
    if nodeItems.Err? {
      return Err(nodeItems.error);
    }
    var nodes := CollectNodes(nodeItems.value);
    if nodes.Err? {
      return Err(nodes.error);
    }
    var edgeItems := Items(Either(d, "edges", "relations"));
    if edgeItems.Err? {
      return Err(edgeItems.error);
    }
    var edges := CollectEdges(edgeItems.value);
    if edges.Err? {
      return Err(edges.error);
    }
    if "name" !in d {
      return Err(KeyError("name"));
    }
    if !d["name"].JStr? {
      return Err(Invalid("name"));
    }
    r := Ok(CypherSchema(d["name"].s, nodes.value, edges.value));
  }

  // ---------------------------------------------------------------------
  // to_dict, and reading it back
  // ---------------------------------------------------------------------

  function PropJson(p: PropertySchema): Json
  {
    JObj(map["name" := JStr(p.name), "data_type" := JStr(p.dataType)])
  }

  function PropsJson(ps: seq<PropertySchema>): Json
  {
    JArr(seq(|ps|, i requires 0 <= i < |ps| => PropJson(ps[i])))
  }

  function NodeJson(n: NodeSchema): Json
  {
    JObj(map["label" := JStr(n.nodeLabel), "properties" := PropsJson(n.properties)])
  }

  function EdgeJson(e: EdgeSchema): Json
  {
    JObj(map["label" := JStr(e.edgeLabel), "source_label" := JStr(e.sourceLabel),
             "target_label" := JStr(e.targetLabel), "properties" := PropsJson(e.properties)])
  }

  function NodesJson(ns: seq<NodeSchema>): seq<Json>
  {
    seq(|ns|, i requires 0 <= i < |ns| => NodeJson(ns[i]))
  }

  function EdgesJson(es: seq<EdgeSchema>): seq<Json>
  {
    seq(|es|, i requires 0 <= i < |es| => EdgeJson(es[i]))
  }

  /** `to_dict`, pydantic's `model_dump`. */
  function ToDict(s: CypherSchema): Json
  {
    JObj(map["name" := JStr(s.name), "nodes" := JArr(NodesJson(s.nodes)), "edges" := JArr(EdgesJson(s.edges))])
  }

  /** The node list of a dump is read from its `nodes` key, or found empty. */
  lemma DumpedNodes(s: CypherSchema)
    ensures Items(Either(ToDict(s).fields, "nodes", "entities")) == Ok(NodesJson(s.nodes))
  {
    var d := ToDict(s).fields;
    assert d["nodes"] == JArr(NodesJson(s.nodes));
    assert "entities" !in d;
  }

  /** The edge list of a dump is read from its `edges` key, or found empty. */
  lemma DumpedEdges(s: CypherSchema)
    ensures Items(Either(ToDict(s).fields, "edges", "relations")) == Ok(EdgesJson(s.edges))
  {
    var d := ToDict(s).fields;
    assert d["edges"] == JArr(EdgesJson(s.edges));
    assert "relations" !in d;
  }

  lemma {:induction false} PropListOfJson(ps: seq<PropertySchema>)
    ensures PropList(PropsJson(ps).items) == Ok(ps)
    decreases |ps|
  {
    if ps != [] {
      var n := |ps| - 1;
      PropListOfJson(ps[..n]);
      assert PropsJson(ps).items[..n] == PropsJson(ps[..n]).items;
      assert PropsJson(ps).items[n] == PropJson(ps[n]);
      assert PropOf(PropJson(ps[n])) == Ok(ps[n]);
      assert ps[..n] + [ps[n]] == ps;
    }
  }

  lemma NodeOfJson(n: NodeSchema)
    ensures NodeOf(NodeJson(n)) == Ok(n)
  {
    PropListOfJson(n.properties);
  }

  /** An edge reads back when both endpoints are non-empty. */
  lemma EdgeOfJson(e: EdgeSchema)
    requires e.sourceLabel != "" && e.targetLabel != ""
    ensures EdgeOf(EdgeJson(e)) == Ok(e)
  {
    PropListOfJson(e.properties);
  }

  /** An edge with an empty source label does not read back: the empty label falls through to the absent `subj_label`. */
  lemma EdgeEmptySource(e: EdgeSchema)
    requires e.sourceLabel == ""
    ensures EdgeOf(EdgeJson(e)).Err?
  {
    PropListOfJson(e.properties);
  }

  /** When item `i` reads as node `i` for every `i`, the first `k` items read as the first `k` nodes. */
  lemma {:induction false} NodesUpToOf(items: seq<Json>, ns: seq<NodeSchema>, k: nat)
    requires |items| == |ns| && k <= |ns|
    requires forall i :: 0 <= i < |ns| ==> NodeOf(items[i]) == Ok(ns[i])
    ensures NodesUpTo(items, k) == Ok(ns[..k])
    decreases k
  {
    if k > 0 {
      NodesUpToOf(items, ns, k - 1);
      assert ns[..k] == ns[..k - 1] + [ns[k - 1]];
    }
  }

  /** When item `i` reads as edge `i` for every `i`, the first `k` items read as the first `k` edges. */
  lemma {:induction false} EdgesUpToOf(items: seq<Json>, es: seq<EdgeSchema>, k: nat)
    requires |items| == |es| && k <= |es|
    requires forall i :: 0 <= i < |es| ==> EdgeOf(items[i]) == Ok(es[i])
    ensures EdgesUpTo(items, k) == Ok(es[..k])
    decreases k
  {
    if k > 0 {
      EdgesUpToOf(items, es, k - 1);
      assert es[..k] == es[..k - 1] + [es[k - 1]];
    }
  }

  lemma NodeItemOfJson(ns: seq<NodeSchema>, i: nat)
    requires i < |ns|
    ensures NodeOf(NodesJson(ns)[i]) == Ok(ns[i])
  {
    NodeOfJson(ns[i]);
  }

  lemma EdgeItemOfJson(es: seq<EdgeSchema>, i: nat)
    requires i < |es| && es[i].sourceLabel != "" && es[i].targetLabel != ""
    ensures EdgeOf(EdgesJson(es)[i]) == Ok(es[i])
  {
    EdgeOfJson(es[i]);
  }

  /** A dumped node list reads back as itself. */
  lemma NodesOfJson(ns: seq<NodeSchema>)
    ensures NodesUpTo(NodesJson(ns), |ns|) == Ok(ns)
  {
    forall i | 0 <= i < |ns|
      ensures NodeOf(NodesJson(ns)[i]) == Ok(ns[i])
    {
      NodeItemOfJson(ns, i);
    }
    NodesUpToOf(NodesJson(ns), ns, |ns|);
    assert ns[..|ns|] == ns;
  }

  /** A dumped edge list reads back as itself when no endpoint is empty. */
  lemma EdgesOfJson(es: seq<EdgeSchema>)
    requires forall i :: 0 <= i < |es| ==> es[i].sourceLabel != "" && es[i].targetLabel != ""
    ensures EdgesUpTo(EdgesJson(es), |es|) == Ok(es)
  {
    forall i | 0 <= i < |es|
      ensures EdgeOf(EdgesJson(es)[i]) == Ok(es[i])
    {
      EdgeItemOfJson(es, i);
    }
    EdgesUpToOf(EdgesJson(es), es, |es|);
    assert es[..|es|] == es;
  }

  /** A dumped schema reads back as itself, provided no edge endpoint is empty. */
  lemma RoundTrip(s: CypherSchema)
    requires forall e :: e in s.edges ==> e.sourceLabel != "" && e.targetLabel != ""
    ensures Parse(ToDict(s)) == Ok(s)
  {
    assert forall i :: 0 <= i < |s.edges| ==> s.edges[i] in s.edges;
    DumpedNodes(s);
    DumpedEdges(s);
    NodesOfJson(s.nodes);
    EdgesOfJson(s.edges);
  }
}
