/**
 * The RDF schema of the execution package
 * (src/nl2graph/execution/schema/rdf.py): its rendering into the prompt
 * text, its reading from a JSON dictionary, and `to_dict`.
 */
module RdfSchemas {
  import opened Wrappers
  import opened Strs
  import opened Json
  import opened SchemaInput

  datatype ClassSchema = ClassSchema(uri: string, displayName: Option<string>, parent: Option<string>)

  datatype PropertyDef = PropertyDef(
    uri: string, displayName: Option<string>, domain: Option<string>, range: Option<string>, isObjectProperty: bool)

  datatype RdfSchema = RdfSchema(
    name: string, prefixes: map<string, string>, classes: seq<ClassSchema>, properties: seq<PropertyDef>)

  // ---------------------------------------------------------------------
  // The line formats, shared with the SPARQL schema
  // ---------------------------------------------------------------------

  /** `o` is set and not empty, as Python's truth test of an optional string. */
  predicate Shown(o: Option<string>)
  {
    o.Some? && o.value != ""
  }

  /** `f" ({label})" if label else ""`. */
  function LabelText(displayName: Option<string>): string
  {
    if Shown(displayName) then " (" + displayName.value + ")" else ""
  }

  /** `f"{tag}{o}" if o else ""`. */
  function Tagged(tag: string, o: Option<string>): string
  {
    if Shown(o) then tag + o.value else ""
  }

  /** One prefix line, `  {prefix}: <{uri}>`. */
  function PrefixLine(prefix: string, uri: string): string
  {
    "  " + prefix + ": <" + uri + ">"
  }

  /** One line per prefix, in the order of `keys`. */
  function PrefixLines(m: map<string, string>, keys: seq<string>): (ls: seq<string>)
    requires forall i :: 0 <= i < |keys| ==> keys[i] in m
    ensures |ls| == |keys|
    decreases |keys|
  {
    if keys == [] then []
    else
      var n := |keys| - 1;
      PrefixLines(m, keys[..n]) + [PrefixLine(keys[n], m[keys[n]])]
  }

  lemma {:induction false} PrefixLinesAt(m: map<string, string>, keys: seq<string>, i: nat)
    requires forall i :: 0 <= i < |keys| ==> keys[i] in m
    requires i < |keys|
    ensures PrefixLines(m, keys)[i] == PrefixLine(keys[i], m[keys[i]])
    decreases |keys|
  {
    var n := |keys| - 1;
    if i < n {
      PrefixLinesAt(m, keys[..n], i);
    }
  }

  lemma PrefixLinesSnoc(m: map<string, string>, keys: seq<string>, i: nat)
    requires forall i :: 0 <= i < |keys| ==> keys[i] in m
    requires i < |keys|
    ensures PrefixLines(m, keys[..i + 1]) == PrefixLines(m, keys[..i]) + [PrefixLine(keys[i], m[keys[i]])]
  {
    assert keys[..i + 1][..i] == keys[..i];
  }

  /** The prefixes in the order `sorted(prefixes.items())` gives them: by prefix. */
  function PrefixOrder(m: map<string, string>): (keys: seq<string>)
    ensures forall i :: 0 <= i < |keys| ==> keys[i] in m
    ensures |keys| == |m|
  {
    var keys := SortedSet(m.Keys);
    assert |m.Keys| == |m|;
    keys
  }

  /** `f"  {cls.uri}{label}{parent}"`. */
  function ClassLine(c: ClassSchema): string
  {
    "  " + c.uri + LabelText(c.displayName) + Tagged(" rdfs:subClassOf ", c.parent)
  }

  function ClassKey(c: ClassSchema): string { c.uri }

  // ---------------------------------------------------------------------
  // to_prompt_string
  // ---------------------------------------------------------------------

  const ObjectTag := " [ObjectProperty]"
  const DatatypeTag := " [DatatypeProperty]"

  /** The kind of a property, as its line ends. */
  function KindTag(isObject: bool): string
  {
    if isObject then ObjectTag else DatatypeTag
  }

  /** `f"  {prop.uri}{label}{domain}{range_str}{prop_type}"`. */
  function PropLine(p: PropertyDef): string
  {
    "  " + p.uri + LabelText(p.displayName) + Tagged(" domain=", p.domain) + Tagged(" range=", p.range) + KindTag(p.isObjectProperty)
  }

  /** A property line ends in its kind: object properties and datatype properties are told apart. */
  lemma PropLineKind(p: PropertyDef)
    ensures var line := PropLine(p);
      var tag := if p.isObjectProperty then ObjectTag else DatatypeTag;
      |line| >= |tag| && line[|line| - |tag|..] == tag
  {
    var tag := KindTag(p.isObjectProperty);
    var head := "  " + p.uri + LabelText(p.displayName) + Tagged(" domain=", p.domain) + Tagged(" range=", p.range);
    assert PropLine(p) == head + tag;
    assert (head + tag)[|head|..] == tag;
  }

  function PropKey(p: PropertyDef): string { p.uri }

  /** The prefixes section: its header, one line per prefix and a blank line, or nothing when there are no prefixes. */
  function PrefixSection(m: map<string, string>): (ls: seq<string>)
    ensures |ls| == (if |m| == 0 then 0 else |m| + 2)
  {
    if |m| == 0 then [] else ["Prefixes:"] + PrefixLines(m, PrefixOrder(m)) + [""]
  }

  /** The classes and properties sections, given their lines. */
  function Body(cls: seq<string>, pls: seq<string>): seq<string>
  {
    ["Classes:"] + cls + ["", "Properties:"] + pls
  }

  /** The prompt's lines, given the prefixes section and the class and property lines. */
  function Lines(name: string, pre: seq<string>, cls: seq<string>, pls: seq<string>): seq<string>
  {
    ["RDF Graph: " + name, ""] + pre + Body(cls, pls)
  }

  /** The lines of the prompt text, with classes and properties sorted by URI. */
  function PromptLines(s: RdfSchema): seq<string>
  {
    Lines(s.name, PrefixSection(s.prefixes), ClassLinesOf(s), PropLinesOf(s))
  }

  /** The class lines, by URI. */
  function ClassLinesOf(s: RdfSchema): seq<string>
  {
    Each(SortBy(s.classes, ClassKey), ClassLine)
  }

  /** The property lines, by URI. */
  function PropLinesOf(s: RdfSchema): seq<string>
  {
    Each(SortBy(s.properties, PropKey), PropLine)
  }

  /** Where the headers are, after the title and the prefixes section. */
  lemma LinesShape(name: string, pre: seq<string>, cls: seq<string>, pls: seq<string>)
    ensures var lines := Lines(name, pre, cls, pls);
      && |lines| == 5 + |pre| + |cls| + |pls|
      && lines[0] == "RDF Graph: " + name && lines[1] == ""
      && lines[2 + |pre|] == "Classes:" && lines[3 + |pre| + |cls|] == "" && lines[4 + |pre| + |cls|] == "Properties:"
  {
  }

  /** Line `2 + i` is line `i` of the prefixes section. */
  lemma LinesPre(name: string, pre: seq<string>, cls: seq<string>, pls: seq<string>, i: nat)
    requires i < |pre|
    ensures Lines(name, pre, cls, pls)[2 + i] == pre[i]
  {
  }

  /** Line `3 + |pre| + i` is the `i`-th class line. */
  lemma LinesClass(name: string, pre: seq<string>, cls: seq<string>, pls: seq<string>, i: nat)
    requires i < |cls|
    ensures Lines(name, pre, cls, pls)[3 + |pre| + i] == cls[i]
  {
  }

  /** Line `5 + |pre| + |cls| + i` is the `i`-th property line. */
  lemma LinesProp(name: string, pre: seq<string>, cls: seq<string>, pls: seq<string>, i: nat)
    requires i < |pls|
    ensures Lines(name, pre, cls, pls)[5 + |pre| + |cls| + i] == pls[i]
  {
  }

  /** The prefixes section opens with its header and closes with a blank line. */
  lemma SectionShape(m: map<string, string>)
    requires |m| > 0
    ensures PrefixSection(m)[0] == "Prefixes:" && PrefixSection(m)[1 + |m|] == ""
  {
  }

  /** Line `1 + i` of the prefixes section is the `i`-th prefix's. */
  lemma SectionPrefix(m: map<string, string>, i: nat)
    requires i < |m|
    ensures PrefixSection(m)[1 + i] == PrefixLine(PrefixOrder(m)[i], m[PrefixOrder(m)[i]])
  {
    var keys := PrefixOrder(m);
    PrefixLinesAt(m, keys, i);
    assert PrefixSection(m) == ["Prefixes:"] + PrefixLines(m, keys) + [""];
  }

  /** The prompt opens with the graph's name; the prefixes section takes no line without prefixes;
      the classes and properties headers always follow it. */
  lemma PromptShape(s: RdfSchema)
    ensures var lines := PromptLines(s);
      var p := if |s.prefixes| == 0 then 0 else |s.prefixes| + 2;
      && |lines| == 5 + p + |s.classes| + |s.properties|
      && lines[0] == "RDF Graph: " + s.name && lines[1] == ""
      && lines[2 + p] == "Classes:" && lines[3 + p + |s.classes|] == "" && lines[4 + p + |s.classes|] == "Properties:"
  {
    var pre := PrefixSection(s.prefixes);
    assert |pre| == if |s.prefixes| == 0 then 0 else |s.prefixes| + 2;
    LinesShape(s.name, pre, ClassLinesOf(s), PropLinesOf(s));
  }

  /** With prefixes, the prefixes header comes after the title, and a blank line after the prefix lines. */
  lemma PromptPrefixHeader(s: RdfSchema)
    requires |s.prefixes| > 0
    ensures PromptLines(s)[2] == "Prefixes:" && PromptLines(s)[3 + |s.prefixes|] == ""
  {
    var pre := PrefixSection(s.prefixes);
    SectionShape(s.prefixes);
    LinesPre(s.name, pre, ClassLinesOf(s), PropLinesOf(s), 0);
    LinesPre(s.name, pre, ClassLinesOf(s), PropLinesOf(s), 1 + |s.prefixes|);
  }

  /** Prefix line `i` shows the `i`-th prefix by name, and the prefixes strictly ascend. */
  lemma PromptPrefixAt(s: RdfSchema, i: nat)
    requires i < |s.prefixes|
    ensures var k := PrefixOrder(s.prefixes)[i];
      k in s.prefixes && PromptLines(s)[3 + i] == PrefixLine(k, s.prefixes[k])
    ensures StrictlySorted(PrefixOrder(s.prefixes))
  {
    var pre := PrefixSection(s.prefixes);
    SectionPrefix(s.prefixes, i);
    LinesPre(s.name, pre, ClassLinesOf(s), PropLinesOf(s), 1 + i);
  }

  /** Every prefix has its line. */
  lemma PromptListsPrefix(s: RdfSchema, k: string)
    requires k in s.prefixes
    ensures exists j :: 3 <= j < 3 + |s.prefixes| && PromptLines(s)[j] == PrefixLine(k, s.prefixes[k])
  {
    var keys := PrefixOrder(s.prefixes);
    assert k in s.prefixes.Keys;
    var i :| 0 <= i < |keys| && keys[i] == k;
    PromptPrefixAt(s, i);
  }

  /** The sorted classes are the schema's. */
  lemma SortedClassIn(s: RdfSchema, i: nat)
    requires i < |s.classes|
    ensures SortBy(s.classes, ClassKey)[i] in s.classes
  {
    var cs := SortBy(s.classes, ClassKey);
    assert cs[i] in multiset(cs);
  }

  /** The sorted properties are the schema's. */
  lemma SortedPropIn(s: RdfSchema, i: nat)
    requires i < |s.properties|
    ensures SortBy(s.properties, PropKey)[i] in s.properties
  {
    var ps := SortBy(s.properties, PropKey);
    assert ps[i] in multiset(ps);
  }

  lemma PromptClassLine(s: RdfSchema, i: nat)
    requires i < |s.classes|
    ensures PromptLines(s)[3 + |PrefixSection(s.prefixes)| + i] == ClassLine(SortBy(s.classes, ClassKey)[i])
  {
    LinesClass(s.name, PrefixSection(s.prefixes), ClassLinesOf(s), PropLinesOf(s), i);
    EachAt(SortBy(s.classes, ClassKey), ClassLine, i);
  }

  lemma PromptPropLine(s: RdfSchema, i: nat)
    requires i < |s.properties|
    ensures PromptLines(s)[5 + |PrefixSection(s.prefixes)| + |s.classes| + i] == PropLine(SortBy(s.properties, PropKey)[i])
  {
    LinesProp(s.name, PrefixSection(s.prefixes), ClassLinesOf(s), PropLinesOf(s), i);
    EachAt(SortBy(s.properties, PropKey), PropLine, i);
  }

  /** Class line `i` is the line of the `i`-th class by URI, a class of the schema. */
  lemma PromptClassAt(s: RdfSchema, i: nat)
    requires i < |s.classes|
    ensures var p := if |s.prefixes| == 0 then 0 else |s.prefixes| + 2;
      PromptLines(s)[3 + p + i] == ClassLine(SortBy(s.classes, ClassKey)[i])
    ensures SortBy(s.classes, ClassKey)[i] in s.classes
  {
    PromptClassLine(s, i);
    SortedClassIn(s, i);
  }

  /** Property line `i` is the line of the `i`-th property by URI, a property of the schema. */
  lemma PromptPropAt(s: RdfSchema, i: nat)
    requires i < |s.properties|
    ensures var p := if |s.prefixes| == 0 then 0 else |s.prefixes| + 2;
      PromptLines(s)[5 + p + |s.classes| + i] == PropLine(SortBy(s.properties, PropKey)[i])
    ensures SortBy(s.properties, PropKey)[i] in s.properties
  {
    PromptPropLine(s, i);
    SortedPropIn(s, i);
  }

  /** The classes are listed by URI. */
  lemma PromptClassesSorted(s: RdfSchema, i: nat, j: nat)
    requires i < j < |s.classes|
    ensures LessEq(SortBy(s.classes, ClassKey)[i].uri, SortBy(s.classes, ClassKey)[j].uri)
  {
    var cs := SortBy(s.classes, ClassKey);
    assert LessEq(ClassKey(cs[i]), ClassKey(cs[j]));
  }

  /** The properties are listed by URI. */
  lemma PromptPropertiesSorted(s: RdfSchema, i: nat, j: nat)
    requires i < j < |s.properties|
    ensures LessEq(SortBy(s.properties, PropKey)[i].uri, SortBy(s.properties, PropKey)[j].uri)
  {
    var ps := SortBy(s.properties, PropKey);
    assert LessEq(PropKey(ps[i]), PropKey(ps[j]));
  }

  /** The prefix loop of `to_prompt_string`. */
  method AppendPrefixLines(lines0: seq<string>, m: map<string, string>, keys: seq<string>) returns (lines: seq<string>)
    requires forall i :: 0 <= i < |keys| ==> keys[i] in m
    ensures lines == lines0 + PrefixLines(m, keys)
  {
    lines := lines0;
    var i := 0;
    while i < |keys|
      invariant 0 <= i <= |keys|
      invariant lines == lines0 + PrefixLines(m, keys[..i])
    {
      PrefixLinesSnoc(m, keys, i);
      var prefix := keys[i];
      var uri := m[prefix];
      lines := lines + ["  " + prefix + ": <" + uri + ">"];
      i := i + 1;
    }
    assert keys[..|keys|] == keys;
  }

  /** The body of the class loop of `to_prompt_string`. */
  method FormatClass(c: ClassSchema) returns (line: string)
    ensures line == ClassLine(c)
  {
    var labelStr := if Shown(c.displayName) then " (" + c.displayName.value + ")" else "";
    var parent := if Shown(c.parent) then " rdfs:subClassOf " + c.parent.value else "";
    line := "  " + c.uri + labelStr + parent;
  }

  /** The class loop of `to_prompt_string`. */
  method AppendClassLines(lines0: seq<string>, cs: seq<ClassSchema>) returns (lines: seq<string>)
    ensures lines == lines0 + Each(cs, ClassLine)
  {
    lines := lines0;
    var i := 0;
    while i < |cs|
      invariant 0 <= i <= |cs|
      invariant lines == lines0 + Each(cs[..i], ClassLine)
    {
      EachSnoc(cs, ClassLine, i);
      var line := FormatClass(cs[i]);
      lines := lines + [line];
      i := i + 1;
    }
    assert cs[..|cs|] == cs;
  }

  /** The body of the property loop of `to_prompt_string`. */
  method FormatProp(p: PropertyDef) returns (line: string)
    ensures line == PropLine(p)
  {
    var labelStr := if Shown(p.displayName) then " (" + p.displayName.value + ")" else "";
    var domain := if Shown(p.domain) then " domain=" + p.domain.value else "";
    var rangeStr := if Shown(p.range) then " range=" + p.range.value else "";
    var propType := if p.isObjectProperty then " [ObjectProperty]" else " [DatatypeProperty]";
    line := "  " + p.uri + labelStr + domain + rangeStr + propType;
  }

  /** The property loop of `to_prompt_string`. */
  method AppendPropLines(lines0: seq<string>, ps: seq<PropertyDef>) returns (lines: seq<string>)
    ensures lines == lines0 + Each(ps, PropLine)
  {
    lines := lines0;
    var i := 0;
    while i < |ps|
      invariant 0 <= i <= |ps|
      invariant lines == lines0 + Each(ps[..i], PropLine)
    {
      EachSnoc(ps, PropLine, i);
      var line := FormatProp(ps[i]);
      lines := lines + [line];
      i := i + 1;
    }
    assert ps[..|ps|] == ps;
  }

  /** The classes and properties sections of `to_prompt_string`. */
  method AppendBody(lines0: seq<string>, cs: seq<ClassSchema>, ps: seq<PropertyDef>) returns (lines: seq<string>)
    ensures lines == lines0 + Body(Each(cs, ClassLine), Each(ps, PropLine))
  {
    lines := lines0 + ["Classes:"];
    lines := AppendClassLines(lines, cs);
    lines := lines + [""];
    lines := lines + ["Properties:"];
    ghost var head := lines;
    assert head == lines0 + (["Classes:"] + Each(cs, ClassLine) + ["", "Properties:"]);
    lines := AppendPropLines(lines, ps);
  }

  /** `to_prompt_string`: the lines are built by appending, then joined with newlines. */
  method ToPromptString(s: RdfSchema) returns (text: string)
    ensures text == Join("\n", PromptLines(s))
  {
    var lines := ["RDF Graph: " + s.name, ""];
    ghost var start := lines;
    if |s.prefixes| > 0 {
      lines := lines + ["Prefixes:"];
      lines := AppendPrefixLines(lines, s.prefixes, PrefixOrder(s.prefixes));
      lines := lines + [""];
    }
    assert lines == start + PrefixSection(s.prefixes);
    lines := AppendBody(lines, SortBy(s.classes, ClassKey), SortBy(s.properties, PropKey));
    text := Join("\n", lines);
  }

  // ---------------------------------------------------------------------
  // from_dict
  // ---------------------------------------------------------------------

  /** `ClassSchema(**c)`. */
  function ClassOf(c: Json): (r: Result<ClassSchema, string>)
    ensures r.Ok? ==> c.JObj? && StrField(c.fields, "uri") == Ok(r.value.uri)
    ensures r.Ok? ==> (OptStrField(c.fields, "label") == Ok(r.value.displayName)
      && OptStrField(c.fields, "parent") == Ok(r.value.parent))
  {
    match AsKwargs(c)
    case Err(e) => Err(e)
    case Ok(d) =>
      match StrField(d, "uri")
      case Err(e) => Err(e)
      case Ok(uri) =>
        match OptStrField(d, "label")
        case Err(e) => Err(e)
        case Ok(displayName) =>
          match OptStrField(d, "parent")
          case Err(e) => Err(e)
          case Ok(parent) => Ok(ClassSchema(uri, displayName, parent))
  }

  /** `PropertyDef(**p)`. */
  function PropOf(p: Json): (r: Result<PropertyDef, string>)
    ensures r.Ok? ==> p.JObj? && StrField(p.fields, "uri") == Ok(r.value.uri)
    ensures r.Ok? ==> (OptStrField(p.fields, "label") == Ok(r.value.displayName)
      && OptStrField(p.fields, "domain") == Ok(r.value.domain) && OptStrField(p.fields, "range") == Ok(r.value.range))
    ensures r.Ok? ==> BoolField(p.fields, "is_object_property") == Ok(r.value.isObjectProperty)
  {
    match AsKwargs(p)
    case Err(e) => Err(e)
    case Ok(d) =>
      match StrField(d, "uri")
      case Err(e) => Err(e)
      case Ok(uri) =>
        match OptStrField(d, "label")
        case Err(e) => Err(e)
        case Ok(displayName) =>
          match OptStrField(d, "domain")
          case Err(e) => Err(e)
          case Ok(domain) =>
            match OptStrField(d, "range")
            case Err(e) => Err(e)
            case Ok(range) =>
              match BoolField(d, "is_object_property")
              case Err(e) => Err(e)
              case Ok(isObject) => Ok(PropertyDef(uri, displayName, domain, range, isObject))
  }

  /** `[ClassSchema(**c) for c in items[:k]]`. */
  function ClassesUpTo(items: seq<Json>, k: nat): (r: Result<seq<ClassSchema>, string>)
    requires k <= |items|
    ensures r.Ok? ==> |r.value| == k
  {
    if k == 0 then Ok([])
    else
      match ClassesUpTo(items, k - 1)
      case Err(e) => Err(e)
      case Ok(cs) =>
        match ClassOf(items[k - 1])
        case Err(e) => Err(e)
        case Ok(c) => Ok(cs + [c])
  }

  /** `[PropertyDef(**p) for p in items[:k]]`. */
  function PropsUpTo(items: seq<Json>, k: nat): (r: Result<seq<PropertyDef>, string>)
    requires k <= |items|
    ensures r.Ok? ==> |r.value| == k
  {
    if k == 0 then Ok([])
    else
      match PropsUpTo(items, k - 1)
      case Err(e) => Err(e)
      case Ok(ps) =>
        match PropOf(items[k - 1])
        case Err(e) => Err(e)
        case Ok(p) => Ok(ps + [p])
  }

  /** Class `i` is read from item `i`. */
  lemma {:induction false} ClassesUpToAt(items: seq<Json>, k: nat, i: nat)
    requires i < k <= |items| && ClassesUpTo(items, k).Ok?
    ensures ClassOf(items[i]) == Ok(ClassesUpTo(items, k).value[i])
    decreases k
  {
    if i < k - 1 {
      ClassesUpToAt(items, k - 1, i);
    }
  }

  /** Property `i` is read from item `i`. */
  lemma {:induction false} PropsUpToAt(items: seq<Json>, k: nat, i: nat)
    requires i < k <= |items| && PropsUpTo(items, k).Ok?
    ensures PropOf(items[i]) == Ok(PropsUpTo(items, k).value[i])
    decreases k
  {
    if i < k - 1 {
      PropsUpToAt(items, k - 1, i);
    }
  }

  /** The first item that is not a class ends the list with its error. */
  lemma {:induction false} ClassesFirstError(items: seq<Json>, i: nat, k: nat)
    requires i < k <= |items| && ClassesUpTo(items, i).Ok? && ClassOf(items[i]).Err?
    ensures ClassesUpTo(items, k) == Err(ClassOf(items[i]).error)
    decreases k
  {
    if i < k - 1 {
      ClassesFirstError(items, i, k - 1);
    }
  }

  /** `from_dict`: classes, then properties, then the name and the prefixes; every list defaults to empty. */
  function Parse(data: Json): Result<RdfSchema, string>
  {
    match AsDict(data)
    case Err(e) => Err(e)
    case Ok(d) =>
      match Items(GetOr(d, "classes", JArr([])))
      case Err(e) => Err(e)
      case Ok(classItems) =>
        match ClassesUpTo(classItems, |classItems|)
        case Err(e) => Err(e)
        case Ok(classes) =>
          match Items(GetOr(d, "properties", JArr([])))
          case Err(e) => Err(e)
          case Ok(propItems) =>
            match PropsUpTo(propItems, |propItems|)
            case Err(e) => Err(e)
            case Ok(properties) =>
              match Index(d, "name")
              case Err(e) => Err(e)
              case Ok(n) =>
                match AsStr(n, "name")
                case Err(e) => Err(e)
                case Ok(name) =>
                  match AsStrMap(GetOr(d, "prefixes", JObj(map[])), "prefixes")
                  case Err(e) => Err(e)
                  case Ok(prefixes) => Ok(RdfSchema(name, prefixes, classes, properties))
  }

  /** A dict holding only a name reads as a schema with no prefixes, classes or properties. */
  lemma ParseDefaults(name: string)
    ensures Parse(JObj(map["name" := JStr(name)])) == Ok(RdfSchema(name, map[], [], []))
  {
    var d := map["name" := JStr(name)];
    assert "classes" !in d && "properties" !in d && "prefixes" !in d;
    assert AsStrMap(JObj(map[]), "prefixes") == Ok(map[]);
  }

  /** The name is the one required key. */
  lemma ParseNeedsName()
    ensures Parse(JObj(map[])) == Err(KeyError("name"))
  {
  }

  /** A read schema's classes come from the `classes` list item by item, and likewise its properties. */
  lemma ParseItems(d: Dict, i: nat)
    requires Parse(JObj(d)).Ok?
    ensures var items := Items(GetOr(d, "classes", JArr([]))).value;
      && |Parse(JObj(d)).value.classes| == |items|
      && (i < |items| ==> ClassOf(items[i]) == Ok(Parse(JObj(d)).value.classes[i]))
    ensures var items := Items(GetOr(d, "properties", JArr([]))).value;
      && |Parse(JObj(d)).value.properties| == |items|
      && (i < |items| ==> PropOf(items[i]) == Ok(Parse(JObj(d)).value.properties[i]))
    ensures "name" in d && d["name"] == JStr(Parse(JObj(d)).value.name)
  {
    var cItems := Items(GetOr(d, "classes", JArr([]))).value;
    var pItems := Items(GetOr(d, "properties", JArr([]))).value;
    if i < |cItems| {
      ClassesUpToAt(cItems, |cItems|, i);
    }
    if i < |pItems| {
      PropsUpToAt(pItems, |pItems|, i);
    }
  }

  // ---------------------------------------------------------------------
  // to_dict, and reading it back
  // ---------------------------------------------------------------------

  function ClassJson(c: ClassSchema): Json
  {
    JObj(map["uri" := JStr(c.uri), "label" := OptJson(c.displayName), "parent" := OptJson(c.parent)])
  }

  function PropJson(p: PropertyDef): Json
  {
    JObj(map["uri" := JStr(p.uri), "label" := OptJson(p.displayName), "domain" := OptJson(p.domain),
             "range" := OptJson(p.range), "is_object_property" := JBool(p.isObjectProperty)])
  }

  function ClassesJson(cs: seq<ClassSchema>): seq<Json>
  {
    seq(|cs|, i requires 0 <= i < |cs| => ClassJson(cs[i]))
  }

  function PropsJson(ps: seq<PropertyDef>): seq<Json>
  {
    seq(|ps|, i requires 0 <= i < |ps| => PropJson(ps[i]))
  }

  /** `to_dict`, pydantic's `model_dump`. */
  function ToDict(s: RdfSchema): Json
  {
    JObj(map["name" := JStr(s.name), "prefixes" := StrMapJson(s.prefixes),
             "classes" := JArr(ClassesJson(s.classes)), "properties" := JArr(PropsJson(s.properties))])
  }

  lemma OptOfJson(d: Dict, field: string, o: Option<string>)
    requires field in d && d[field] == OptJson(o)
    ensures OptStrField(d, field) == Ok(o)
  {
  }

  lemma ClassOfJson(c: ClassSchema)
    ensures ClassOf(ClassJson(c)) == Ok(c)
  {
    var d := ClassJson(c).fields;
    OptOfJson(d, "label", c.displayName);
    OptOfJson(d, "parent", c.parent);
  }

  lemma PropOfJson(p: PropertyDef)
    ensures PropOf(PropJson(p)) == Ok(p)
  {
    var d := PropJson(p).fields;
    OptOfJson(d, "label", p.displayName);
    OptOfJson(d, "domain", p.domain);
    OptOfJson(d, "range", p.range);
  }

  lemma {:induction false} ClassesUpToOf(items: seq<Json>, cs: seq<ClassSchema>, k: nat)
    requires |items| == |cs| && k <= |cs|
    requires forall i :: 0 <= i < |cs| ==> ClassOf(items[i]) == Ok(cs[i])
    ensures ClassesUpTo(items, k) == Ok(cs[..k])
    decreases k
  {
    if k > 0 {
      ClassesUpToOf(items, cs, k - 1);
      assert cs[..k] == cs[..k - 1] + [cs[k - 1]];
    }
  }

  lemma {:induction false} PropsUpToOf(items: seq<Json>, ps: seq<PropertyDef>, k: nat)
    requires |items| == |ps| && k <= |ps|
    requires forall i :: 0 <= i < |ps| ==> PropOf(items[i]) == Ok(ps[i])
    ensures PropsUpTo(items, k) == Ok(ps[..k])
    decreases k
  {
    if k > 0 {
      PropsUpToOf(items, ps, k - 1);
      assert ps[..k] == ps[..k - 1] + [ps[k - 1]];
    }
  }

  lemma ClassesOfJson(cs: seq<ClassSchema>)
    ensures ClassesUpTo(ClassesJson(cs), |cs|) == Ok(cs)
  {
    forall i | 0 <= i < |cs|
      ensures ClassOf(ClassesJson(cs)[i]) == Ok(cs[i])
    {
      ClassOfJson(cs[i]);
    }
    ClassesUpToOf(ClassesJson(cs), cs, |cs|);
    assert cs[..|cs|] == cs;
  }

  lemma PropsOfJson(ps: seq<PropertyDef>)
    ensures PropsUpTo(PropsJson(ps), |ps|) == Ok(ps)
  {
    forall i | 0 <= i < |ps|
      ensures PropOf(PropsJson(ps)[i]) == Ok(ps[i])
    {
      PropOfJson(ps[i]);
    }
    PropsUpToOf(PropsJson(ps), ps, |ps|);
    assert ps[..|ps|] == ps;
  }

  /** A dumped schema reads back as itself. */
  lemma RoundTrip(s: RdfSchema)
    ensures Parse(ToDict(s)) == Ok(s)
  {
    var d := ToDict(s).fields;
    assert d["classes"] == JArr(ClassesJson(s.classes));
    assert d["properties"] == JArr(PropsJson(s.properties));
    assert d["prefixes"] == StrMapJson(s.prefixes);
    ClassesOfJson(s.classes);
    PropsOfJson(s.properties);
    StrMapOfJson(s.prefixes, "prefixes");
  }
}
