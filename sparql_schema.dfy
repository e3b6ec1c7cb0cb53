/**
 * The SPARQL schema of the data package (src/nl2graph/data/schema/sparql.py):
 * its rendering into the prompt text, its reading from a JSON dictionary
 * (typed property lists first, then the generic one), and `to_dict`. The
 * class records, the prefix lines and the label suffix are the RDF schema's.
 */
module SparqlSchemas {
  import opened Wrappers
  import opened Strs
  import opened Json
  import opened SchemaInput
  import opened RdfSchemas

  /** `PropertyDef`: here the domain and the range are lists of class URIs. */
  datatype SparqlProperty = SparqlProperty(
    uri: string, displayName: Option<string>, domain: seq<string>, range: seq<string>, isObjectProperty: bool)

  datatype SparqlSchema = SparqlSchema(
    name: string, returnHint: Option<string>, entityRule: Option<string>,
    prefixes: map<string, string>, classes: seq<ClassSchema>, properties: seq<SparqlProperty>)

  // ---------------------------------------------------------------------
  // to_prompt_string
  // ---------------------------------------------------------------------

  /** The items of `str(xs)` for a list of strings, each quoted and separated by a comma and a space. */
  function QuotedItems(xs: seq<string>): string
  {
    if xs == [] then ""
    else if |xs| == 1 then "'" + xs[0] + "'"
    else "'" + xs[0] + "', " + QuotedItems(xs[1..])
  }

  /** `str(xs)` for a list of strings: `['a', 'b']`. */
  function ListText(xs: seq<string>): string
  {
    "[" + QuotedItems(xs) + "]"
  }

  /** `f"{tag}{xs}" if xs else ""`. */
  function ListTagged(tag: string, xs: seq<string>): string
  {
    if xs == [] then "" else tag + ListText(xs)
  }

  /** `f"  {prop.uri}{label}{domain}{range_str}{prop_type}"`. */
  function PropLine(p: SparqlProperty): string
  {
    "  " + p.uri + LabelText(p.displayName) + ListTagged(" domain=", p.domain) + ListTagged(" range=", p.range)
      + KindTag(p.isObjectProperty)
  }

  function PropKey(p: SparqlProperty): string { p.uri }

  /** A property line ends in its kind. */
  lemma PropLineKind(p: SparqlProperty)
    ensures var line := PropLine(p);
      var tag := if p.isObjectProperty then ObjectTag else DatatypeTag;
      |line| >= |tag| && line[|line| - |tag|..] == tag
  {
    var tag := KindTag(p.isObjectProperty);
    var head := "  " + p.uri + LabelText(p.displayName) + ListTagged(" domain=", p.domain) + ListTagged(" range=", p.range);
    assert PropLine(p) == head + tag;
    assert (head + tag)[|head|..] == tag;
  }

  /** A domain or range suffix is printed exactly when the list is not empty. */
  lemma ListTaggedShown(tag: string, xs: seq<string>)
    requires tag != ""
    ensures ListTagged(tag, xs) == "" <==> xs == []
    ensures xs != [] ==> ListTagged(tag, xs)[..|tag|] == tag
  {
    if xs != [] {
      assert (tag + ListText(xs))[..|tag|] == tag;
    }
  }

  /** `lines.append(f"{label}{value}"); lines.append("")` when the value is set, nothing otherwise. */
  function HintSection(heading: string, o: Option<string>): (ls: seq<string>)
    ensures |ls| == if Shown(o) then 2 else 0
  {
    if Shown(o) then [heading + o.value, ""] else []
  }

  /** The classes section: its header, the class lines and a blank line, or nothing when there are no classes. */
  function ClassSection(cls: seq<string>): (ls: seq<string>)
    ensures |ls| == if cls == [] then 0 else |cls| + 2
  {
    if cls == [] then [] else ["Classes:"] + cls + [""]
  }

  /** The prompt's lines, given its optional sections and the property lines. */
  function Lines(name: string, ret: seq<string>, ent: seq<string>, pre: seq<string>, cls: seq<string>, pls: seq<string>): seq<string>
  {
    ["RDF Graph: " + name, ""] + ret + ent + pre + cls + ["Properties:"] + pls
  }

  function ClassLinesOf(s: SparqlSchema): seq<string>
  {
    Each(SortBy(s.classes, ClassKey), ClassLine)
  }

  function PropLinesOf(s: SparqlSchema): seq<string>
  {
    Each(SortBy(s.properties, PropKey), PropLine)
  }

  /** The lines of the prompt text: each optional section is there only when its field is set or not empty. */
  function PromptLines(s: SparqlSchema): seq<string>
  {
    Lines(s.name, HintSection("Return: ", s.returnHint), HintSection("Entity Rule: ", s.entityRule),
          PrefixSection(s.prefixes), ClassSection(ClassLinesOf(s)), PropLinesOf(s))
  }

  lemma LinesShape(name: string, ret: seq<string>, ent: seq<string>, pre: seq<string>, cls: seq<string>, pls: seq<string>)
    ensures var lines := Lines(name, ret, ent, pre, cls, pls);
      var h := |ret| + |ent| + |pre| + |cls|;
      |lines| == 3 + h + |pls| && lines[0] == "RDF Graph: " + name && lines[1] == "" && lines[2 + h] == "Properties:"
  {
  }

  /** Line `k` is line `i` of the return-hint section. */
  lemma LinesRet(name: string, ret: seq<string>, ent: seq<string>, pre: seq<string>, cls: seq<string>, pls: seq<string>, i: nat, k: nat)
    requires i < |ret| && k == 2 + i
    ensures Lines(name, ret, ent, pre, cls, pls)[k] == ret[i]
  {
  }

  /** Line `k` is line `i` of the entity-rule section. */
  lemma LinesEnt(name: string, ret: seq<string>, ent: seq<string>, pre: seq<string>, cls: seq<string>, pls: seq<string>, i: nat, k: nat)
    requires i < |ent| && k == 2 + |ret| + i
    ensures Lines(name, ret, ent, pre, cls, pls)[k] == ent[i]
  {
    var a := ["RDF Graph: " + name, ""] + ret;
    assert (a + ent)[|a| + i] == ent[i];
  }

  /** Line `k` is line `i` of the prefixes section. */
  lemma LinesPre(name: string, ret: seq<string>, ent: seq<string>, pre: seq<string>, cls: seq<string>, pls: seq<string>, i: nat, k: nat)
    requires i < |pre| && k == 2 + |ret| + |ent| + i
    ensures Lines(name, ret, ent, pre, cls, pls)[k] == pre[i]
  {
    var a := ["RDF Graph: " + name, ""] + ret + ent;
    assert (a + pre)[|a| + i] == pre[i];
  }

  /** Line `k` is line `i` of the classes section. */
  lemma LinesCls(name: string, ret: seq<string>, ent: seq<string>, pre: seq<string>, cls: seq<string>, pls: seq<string>, i: nat, k: nat)
    requires i < |cls| && k == 2 + |ret| + |ent| + |pre| + i
    ensures Lines(name, ret, ent, pre, cls, pls)[k] == cls[i]
  {
    var a := ["RDF Graph: " + name, ""] + ret + ent + pre;
    assert (a + cls)[|a| + i] == cls[i];
  }

  /** Line `k` is the `i`-th property line. */
  lemma LinesProp(name: string, ret: seq<string>, ent: seq<string>, pre: seq<string>, cls: seq<string>, pls: seq<string>, i: nat, k: nat)
    requires i < |pls| && k == 3 + |ret| + |ent| + |pre| + |cls| + i
    ensures Lines(name, ret, ent, pre, cls, pls)[k] == pls[i]
  {
    var a := ["RDF Graph: " + name, ""] + ret + ent + pre + cls + ["Properties:"];
    assert (a + pls)[|a| + i] == pls[i];
  }

  lemma HintAt(heading: string, o: Option<string>)
    requires Shown(o)
    ensures HintSection(heading, o)[0] == heading + o.value && HintSection(heading, o)[1] == ""
  {
  }

  lemma ClassSectionAt(cls: seq<string>, i: nat)
    requires i < |cls|
    ensures ClassSection(cls)[0] == "Classes:" && ClassSection(cls)[1 + i] == cls[i] && ClassSection(cls)[1 + |cls|] == ""
  {
  }

  /** The number of lines of the return-hint section. */
  function ReturnCount(s: SparqlSchema): nat
  {
    if Shown(s.returnHint) then 2 else 0
  }

  /** The number of lines before the prefixes section: two for each of the return hint and the entity rule when set. */
  function HintCount(s: SparqlSchema): nat
  {
    ReturnCount(s) + (if Shown(s.entityRule) then 2 else 0)
  }

  /** The number of lines of the prefixes section. */
  function PrefixCount(s: SparqlSchema): nat
  {
    if |s.prefixes| == 0 then 0 else |s.prefixes| + 2
  }

  /** The number of lines of the prefixes and classes sections. */
  function SectionCount(s: SparqlSchema): nat
  {
    PrefixCount(s) + (if |s.classes| == 0 then 0 else |s.classes| + 2)
  }

  /** The prompt opens with the graph's name, and the properties header always follows the optional sections. */
  lemma PromptShape(s: SparqlSchema)
    ensures var lines := PromptLines(s);
      var h := HintCount(s) + SectionCount(s);
      |lines| == 3 + h + |s.properties| && lines[0] == "RDF Graph: " + s.name && lines[1] == "" && lines[2 + h] == "Properties:"
  {
    var cls := ClassLinesOf(s);
    assert |ClassSection(cls)| == if |s.classes| == 0 then 0 else |s.classes| + 2;
    LinesShape(s.name, HintSection("Return: ", s.returnHint), HintSection("Entity Rule: ", s.entityRule),
               PrefixSection(s.prefixes), ClassSection(cls), PropLinesOf(s));
  }

  /** A set return hint is printed right after the title, followed by a blank line. */
  lemma PromptReturn(s: SparqlSchema)
    requires Shown(s.returnHint)
    ensures PromptLines(s)[2] == "Return: " + s.returnHint.value && PromptLines(s)[3] == ""
  {
    var ret := HintSection("Return: ", s.returnHint);
    HintAt("Return: ", s.returnHint);
    LinesRet(s.name, ret, HintSection("Entity Rule: ", s.entityRule),
             PrefixSection(s.prefixes), ClassSection(ClassLinesOf(s)), PropLinesOf(s), 0, 2);
    LinesRet(s.name, ret, HintSection("Entity Rule: ", s.entityRule),
             PrefixSection(s.prefixes), ClassSection(ClassLinesOf(s)), PropLinesOf(s), 1, 3);
  }

  /** A set entity rule is printed after the return hint, followed by a blank line. */
  lemma PromptEntityRule(s: SparqlSchema)
    requires Shown(s.entityRule)
    ensures PromptLines(s)[2 + ReturnCount(s)] == "Entity Rule: " + s.entityRule.value
    ensures PromptLines(s)[3 + ReturnCount(s)] == ""
  {
    var ent := HintSection("Entity Rule: ", s.entityRule);
    HintAt("Entity Rule: ", s.entityRule);
    LinesEnt(s.name, HintSection("Return: ", s.returnHint), ent,
             PrefixSection(s.prefixes), ClassSection(ClassLinesOf(s)), PropLinesOf(s), 0, 2 + ReturnCount(s));
    LinesEnt(s.name, HintSection("Return: ", s.returnHint), ent,
             PrefixSection(s.prefixes), ClassSection(ClassLinesOf(s)), PropLinesOf(s), 1, 3 + ReturnCount(s));
  }

  /** Line `i` of the prefixes section, found after the hints. */
  lemma PromptPrefixSection(s: SparqlSchema, i: nat, k: nat)
    requires i < |PrefixSection(s.prefixes)| && k == 2 + HintCount(s) + i
    ensures PromptLines(s)[k] == PrefixSection(s.prefixes)[i]
  {
    LinesPre(s.name, HintSection("Return: ", s.returnHint), HintSection("Entity Rule: ", s.entityRule),
             PrefixSection(s.prefixes), ClassSection(ClassLinesOf(s)), PropLinesOf(s), i, k);
  }

  /** With prefixes, the prefixes header follows the hints, and the prefixes are in ascending order. */
  lemma PromptPrefixHeader(s: SparqlSchema)
    requires |s.prefixes| > 0
    ensures PromptLines(s)[2 + HintCount(s)] == "Prefixes:"
    ensures StrictlySorted(PrefixOrder(s.prefixes))
  {
    SectionShape(s.prefixes);
    PromptPrefixSection(s, 0, 2 + HintCount(s));
  }

  /** The prefix lines follow the prefixes header, one per prefix, in the order of the prefixes. */
  lemma PromptPrefixAt(s: SparqlSchema, i: nat)
    requires i < |s.prefixes|
    ensures var k := PrefixOrder(s.prefixes)[i];
      k in s.prefixes && PromptLines(s)[3 + HintCount(s) + i] == PrefixLine(k, s.prefixes[k])
  {
    SectionPrefix(s.prefixes, i);
    PromptPrefixSection(s, 1 + i, 3 + HintCount(s) + i);
  }

  lemma SortedClassIn(s: SparqlSchema, i: nat)
    requires i < |s.classes|
    ensures SortBy(s.classes, ClassKey)[i] in s.classes
  {
    var cs := SortBy(s.classes, ClassKey);
    assert cs[i] in multiset(cs);
  }

  /** Line `j` of the classes section, found after the hints and the prefixes. */
  lemma PromptClassSection(s: SparqlSchema, j: nat, k: nat)
    requires j < |ClassSection(ClassLinesOf(s))| && k == 2 + HintCount(s) + PrefixCount(s) + j
    ensures PromptLines(s)[k] == ClassSection(ClassLinesOf(s))[j]
  {
    LinesCls(s.name, HintSection("Return: ", s.returnHint), HintSection("Entity Rule: ", s.entityRule),
             PrefixSection(s.prefixes), ClassSection(ClassLinesOf(s)), PropLinesOf(s), j, k);
  }

  /** With classes, the classes section opens with its header. */
  lemma PromptClassHeader(s: SparqlSchema)
    requires |s.classes| > 0
    ensures PromptLines(s)[2 + HintCount(s) + PrefixCount(s)] == "Classes:"
  {
    ClassSectionAt(ClassLinesOf(s), 0);
    PromptClassSection(s, 0, 2 + HintCount(s) + PrefixCount(s));
  }

  /** With classes, the classes section closes with a blank line. */
  lemma PromptClassEnd(s: SparqlSchema)
    requires |s.classes| > 0
    ensures PromptLines(s)[3 + HintCount(s) + PrefixCount(s) + |s.classes|] == ""
  {
    ClassSectionAt(ClassLinesOf(s), 0);
    PromptClassSection(s, 1 + |s.classes|, 3 + HintCount(s) + PrefixCount(s) + |s.classes|);
  }

  /** Class line `i` of the classes section is the line of the `i`-th class by URI, a class of the schema. */
  lemma PromptClassAt(s: SparqlSchema, i: nat)
    requires i < |s.classes|
    ensures PromptLines(s)[3 + HintCount(s) + PrefixCount(s) + i] == ClassLine(SortBy(s.classes, ClassKey)[i])
    ensures SortBy(s.classes, ClassKey)[i] in s.classes
  {
    ClassSectionAt(ClassLinesOf(s), i);
    PromptClassSection(s, 1 + i, 3 + HintCount(s) + PrefixCount(s) + i);
    EachAt(SortBy(s.classes, ClassKey), ClassLine, i);
    SortedClassIn(s, i);
  }

  lemma PromptPropLine(s: SparqlSchema, i: nat, k: nat)
    requires i < |s.properties| && k == 3 + HintCount(s) + SectionCount(s) + i
    ensures PromptLines(s)[k] == PropLinesOf(s)[i]
  {
    assert |ClassSection(ClassLinesOf(s))| == if |s.classes| == 0 then 0 else |s.classes| + 2;
    LinesProp(s.name, HintSection("Return: ", s.returnHint), HintSection("Entity Rule: ", s.entityRule),
              PrefixSection(s.prefixes), ClassSection(ClassLinesOf(s)), PropLinesOf(s), i, k);
  }

  lemma SortedPropIn(s: SparqlSchema, i: nat)
    requires i < |s.properties|
    ensures SortBy(s.properties, PropKey)[i] in s.properties
  {
    var ps := SortBy(s.properties, PropKey);
    assert ps[i] in multiset(ps);
  }

  /** Property line `i`, after the properties header, is the line of the `i`-th property by URI. */
  lemma PromptPropAt(s: SparqlSchema, i: nat)
    requires i < |s.properties|
    ensures PromptLines(s)[3 + HintCount(s) + SectionCount(s) + i] == PropLine(SortBy(s.properties, PropKey)[i])
    ensures SortBy(s.properties, PropKey)[i] in s.properties
  {
    PromptPropLine(s, i, 3 + HintCount(s) + SectionCount(s) + i);
    EachAt(SortBy(s.properties, PropKey), PropLine, i);
    SortedPropIn(s, i);
  }

  /** The properties are listed by URI. */
  lemma PromptPropertiesSorted(s: SparqlSchema, i: nat, j: nat)
    requires i < j < |s.properties|
    ensures LessEq(SortBy(s.properties, PropKey)[i].uri, SortBy(s.properties, PropKey)[j].uri)
  {
    var ps := SortBy(s.properties, PropKey);
    assert LessEq(PropKey(ps[i]), PropKey(ps[j]));
  }

  /** The body of the property loop of `to_prompt_string`. */
  method FormatProp(p: SparqlProperty) returns (line: string)
    ensures line == PropLine(p)
  {
    var labelStr := if Shown(p.displayName) then " (" + p.displayName.value + ")" else "";
    var domain := if p.domain != [] then " domain=" + ListText(p.domain) else "";
    var rangeStr := if p.range != [] then " range=" + ListText(p.range) else "";
    var propType := if p.isObjectProperty then " [ObjectProperty]" else " [DatatypeProperty]";
    line := "  " + p.uri + labelStr + domain + rangeStr + propType;
  }

  /** The property loop of `to_prompt_string`. */
  method AppendPropLines(lines0: seq<string>, ps: seq<SparqlProperty>) returns (lines: seq<string>)
    ensures lines == lines0 + Each(ps, PropLine)
  {
    lines := lines0;
    var i := 0;
    while i < |ps|
      invariant 0 <= i <= |ps|
      invariant lines == lines0 + Each(ps[..i], PropLine)
    {
      EachSnoc(ps, PropLine, i);
      var line := FormatProp(ps[i]);
      lines := lines + [line];
      i := i + 1;
    }
    assert ps[..|ps|] == ps;
  }

  /** The two optional hint lines of `to_prompt_string`. */
  method AppendHint(lines0: seq<string>, heading: string, o: Option<string>) returns (lines: seq<string>)
    ensures lines == lines0 + HintSection(heading, o)
  {
    lines := lines0;
    if o.Some? && o.value != "" {
      lines := lines + [heading + o.value];
      lines := lines + [""];
    }
  }

  /** The prefixes section of `to_prompt_string`, when there are prefixes. */
  method AppendPrefixes(lines0: seq<string>, m: map<string, string>) returns (lines: seq<string>)
    ensures lines == lines0 + PrefixSection(m)
  {
    lines := lines0;
    if |m| > 0 {
      lines := lines + ["Prefixes:"];
      lines := AppendPrefixLines(lines, m, PrefixOrder(m));
      lines := lines + [""];
    }
  }

  /** The classes section of `to_prompt_string`, when there are classes. */
  method AppendClasses(lines0: seq<string>, cs: seq<ClassSchema>) returns (lines: seq<string>)
    ensures lines == lines0 + ClassSection(Each(cs, ClassLine))
  {
    lines := lines0;
    if |cs| > 0 {
      lines := lines + ["Classes:"];
      lines := AppendClassLines(lines, cs);
      lines := lines + [""];
    }
  }

  /** `to_prompt_string`: the lines are built by appending, then joined with newlines. */
  method ToPromptString(s: SparqlSchema) returns (text: string)
    ensures text == Join("\n", PromptLines(s))
  {
    var lines := ["RDF Graph: " + s.name, ""];
    lines := AppendHint(lines, "Return: ", s.returnHint);
    lines := AppendHint(lines, "Entity Rule: ", s.entityRule);
    lines := AppendPrefixes(lines, s.prefixes);
    lines := AppendClasses(lines, SortBy(s.classes, ClassKey));
    ghost var head := lines;
    lines := lines + ["Properties:"];
    lines := AppendPropLines(lines, SortBy(s.properties, PropKey));
    assert lines == head + ["Properties:"] + PropLinesOf(s);
    text := Join("\n", lines);
  }

  // ---------------------------------------------------------------------
  // from_dict
  // ---------------------------------------------------------------------

  /** Where a property is read from: `object_properties`, `datatype_properties` or `properties`. */
  datatype Origin = ObjectList | DatatypeList | GenericList

  /** Subscripting a value that is not a dict with a string key. */
  const NotSubscriptable := "indices must be integers"

  /** A `List[str] = []` field given as a keyword argument. */
  function ListField(d: Dict, field: string): (r: Result<seq<string>, string>)
    ensures field !in d ==> r == Ok([])
    ensures field in d ==> r == AsStrList(d[field], field)
  {
    if field in d then AsStrList(d[field], field) else Ok([])
  }

  /** An `Optional[str]` value: null is None. */
  function AsOptStr(j: Json, field: string): (r: Result<Option<string>, string>)
    ensures r.Ok? <==> j.JNull? || j.JStr?
    ensures j.JNull? ==> r == Ok(None)
    ensures j.JStr? ==> r == Ok(Some(j.s))
  {
    match j
    case JNull => Ok(None)
    case JStr(s) => Ok(Some(s))
    case _ => Err(Invalid(field))
  }

  /** An item of a typed list: `PropertyDef(uri=p["uri"], label=p.get("label"), domain=p.get("domain", []),
      range=p.get("range", []), is_object_property=...)`. A missing `uri` fails before any field is validated. */
  function TypedProp(p: Json, isObject: bool): (r: Result<SparqlProperty, string>)
    ensures r.Ok? ==> r.value.isObjectProperty == isObject
    ensures p.JObj? && "uri" !in p.fields ==> r == Err(KeyError("uri"))
    ensures r.Ok? ==> p.JObj? && p.fields["uri"] == JStr(r.value.uri)
  {
    if !p.JObj? then Err(NotSubscriptable)
    else
      var d := p.fields;
      match Index(d, "uri")
      case Err(e) => Err(e)
      case Ok(u) =>
        match AsStr(u, "uri")
        case Err(e) => Err(e)
        case Ok(uri) =>
          match AsOptStr(GetOr(d, "label", JNull), "label")
          case Err(e) => Err(e)
          case Ok(labelValue) =>
            match AsStrList(GetOr(d, "domain", JArr([])), "domain")
            case Err(e) => Err(e)
            case Ok(domain) =>
              match AsStrList(GetOr(d, "range", JArr([])), "range")
              case Err(e) => Err(e)
              case Ok(range) => Ok(SparqlProperty(uri, labelValue, domain, range, isObject))
  }

  /** An item of the generic list: `PropertyDef(**p)`, whose flag defaults to False. */
  function GenericProp(p: Json): (r: Result<SparqlProperty, string>)
    ensures r.Ok? ==> p.JObj? && BoolField(p.fields, "is_object_property") == Ok(r.value.isObjectProperty)
    ensures r.Ok? ==> StrField(p.fields, "uri") == Ok(r.value.uri)
  {
    match AsKwargs(p)
    case Err(e) => Err(e)
    case Ok(d) =>
      match StrField(d, "uri")
      case Err(e) => Err(e)
      case Ok(uri) =>
        match OptStrField(d, "label")
        case Err(e) => Err(e)
        case Ok(labelValue) =>
          match ListField(d, "domain")
          case Err(e) => Err(e)
          case Ok(domain) =>
            match ListField(d, "range")
            case Err(e) => Err(e)
            case Ok(range) =>
              match BoolField(d, "is_object_property")
              case Err(e) => Err(e)
              case Ok(isObject) => Ok(SparqlProperty(uri, labelValue, domain, range, isObject))
  }

  /** One property read from the list it came from. */
  function PropFrom(p: Json, o: Origin): Result<SparqlProperty, string>
  {
    match o
    case ObjectList => TypedProp(p, true)
    case DatatypeList => TypedProp(p, false)
    case GenericList => GenericProp(p)
  }

  /** The properties read from the first `k` items of one list. */
  function PropsUpTo(items: seq<Json>, k: nat, o: Origin): (r: Result<seq<SparqlProperty>, string>)
    requires k <= |items|
    ensures r.Ok? ==> |r.value| == k
  {
    if k == 0 then Ok([])
    else
      match PropsUpTo(items, k - 1, o)
      case Err(e) => Err(e)
      case Ok(ps) =>
        match PropFrom(items[k - 1], o)
        case Err(e) => Err(e)
        case Ok(p) => Ok(ps + [p])
  }

  lemma {:induction false} PropsUpToAt(items: seq<Json>, k: nat, o: Origin, i: nat)
    requires i < k <= |items| && PropsUpTo(items, k, o).Ok?
    ensures PropFrom(items[i], o) == Ok(PropsUpTo(items, k, o).value[i])
    decreases k
  {
    if i < k - 1 {
      PropsUpToAt(items, k - 1, o, i);
    }
  }

  lemma {:induction false} PropsFirstError(items: seq<Json>, o: Origin, i: nat, k: nat)
    requires i < k <= |items| && PropsUpTo(items, i, o).Ok? && PropFrom(items[i], o).Err?
    ensures PropsUpTo(items, k, o) == Err(PropFrom(items[i], o).error)
    decreases k
  {
    if i < k - 1 {
      PropsFirstError(items, o, i, k - 1);
    }
  }

  /** `acc` followed by the properties of one list, or that list's first error. */
  function Extend(acc: seq<SparqlProperty>, items: seq<Json>, o: Origin): (r: Result<seq<SparqlProperty>, string>)
    ensures r.Ok? ==> PropsUpTo(items, |items|, o).Ok? && r.value == acc + PropsUpTo(items, |items|, o).value
    ensures r.Err? ==> PropsUpTo(items, |items|, o).Err?
  {
    match PropsUpTo(items, |items|, o)
    case Err(e) => Err(e)
    case Ok(ps) => Ok(acc + ps)
  }

  /** The list stored under `field`, `[]` when the key is absent: `data.get(field, [])`. */
  function ListAt(d: Dict, field: string): Json
  {
    GetOr(d, field, JArr([]))
  }

  /** One `for` loop of `from_dict`: the list under `field` is iterated and its properties follow `acc`. */
  function ListProps(acc: seq<SparqlProperty>, d: Dict, field: string, o: Origin): (r: Result<seq<SparqlProperty>, string>)
    ensures Items(ListAt(d, field)).Err? ==> r == Err(Items(ListAt(d, field)).error)
    ensures Items(ListAt(d, field)).Ok? ==> r == Extend(acc, Items(ListAt(d, field)).value, o)
  {
    match Items(ListAt(d, field))
    case Err(e) => Err(e)
    case Ok(xs) => Extend(acc, xs, o)
  }

  /** The three property loops in the order `from_dict` runs them; each list is read only after the previous loop has finished. */
  function AllProps(d: Dict): Result<seq<SparqlProperty>, string>
  {
    match ListProps([], d, "object_properties", ObjectList)
    case Err(e) => Err(e)
    case Ok(a) =>
      match ListProps(a, d, "datatype_properties", DatatypeList)
      case Err(e) => Err(e)
      case Ok(b) => ListProps(b, d, "properties", GenericList)
  }

  /** `from_dict`: classes, then the three property lists, then the name, the hints and the prefixes. */
  function Parse(data: Json): Result<SparqlSchema, string>
  {
    match AsDict(data)
    case Err(e) => Err(e)
    case Ok(d) =>
      match Items(GetOr(d, "classes", JArr([])))
      case Err(e) => Err(e)
      case Ok(classItems) =>
        match ClassesUpTo(classItems, |classItems|)
        case Err(e) => Err(e)
        case Ok(classes) =>
          match AllProps(d)
          case Err(e) => Err(e)
          case Ok(properties) => Finish(d, classes, properties)
  }

  /** The constructor call that ends `from_dict`: `name=data["name"]` and the optional fields. */
  function Finish(d: Dict, classes: seq<ClassSchema>, properties: seq<SparqlProperty>): (r: Result<SparqlSchema, string>)
    ensures "name" !in d ==> r == Err(KeyError("name"))
    ensures r.Ok? ==> r.value.classes == classes && r.value.properties == properties
  {
    match Index(d, "name")
    case Err(e) => Err(e)
    case Ok(n) =>
      match AsStr(n, "name")
      case Err(e) => Err(e)
      case Ok(name) =>
        match OptStrField(d, "return_hint")
        case Err(e) => Err(e)
        case Ok(returnHint) =>
          match OptStrField(d, "entity_rule")
          case Err(e) => Err(e)
          case Ok(entityRule) =>
            match AsStrMap(GetOr(d, "prefixes", JObj(map[])), "prefixes")
            case Err(e) => Err(e)
            case Ok(prefixes) => Ok(SparqlSchema(name, returnHint, entityRule, prefixes, classes, properties))
  }

  /** One property loop of `from_dict`: append each item's property, stopping at the first error. */
  method AppendProps(acc: seq<SparqlProperty>, items: seq<Json>, o: Origin) returns (r: Result<seq<SparqlProperty>, string>)
    ensures r == Extend(acc, items, o)
  {
    var properties := acc;
    var i := 0;
    while i < |items|
      invariant 0 <= i <= |items|
      invariant PropsUpTo(items, i, o).Ok?
      invariant properties == acc + PropsUpTo(items, i, o).value
    {
      var p := PropFrom(items[i], o);
      if p.Err? {
        PropsFirstError(items, o, i, |items|);
        return Err(p.error);
      }
      properties := properties + [p.value];
      i := i + 1;
    }
    r := Ok(properties);
  }

  /** `from_dict` with its three appending loops. */
  method FromDict(data: Json) returns (r: Result<SparqlSchema, string>)
    ensures r == Parse(data)
  {
    if !data.JObj? {
      return Err(NoGet);
    }
    var d := data.fields;
    var classItems := Items(GetOr(d, "classes", JArr([])));
    if classItems.Err? {
      return Err(classItems.error);
    }
    var classes := ClassesUpTo(classItems.value, |classItems.value|);
    if classes.Err? {
      return Err(classes.error);
    }
    var objs := Items(ListAt(d, "object_properties"));
    if objs.Err? {
      return Err(objs.error);
    }
    var properties := AppendProps([], objs.value, ObjectList);
    if properties.Err? {
      return Err(properties.error);
    }
    var dts := Items(ListAt(d, "datatype_properties"));
    if dts.Err? {
      return Err(dts.error);
    }
    properties := AppendProps(properties.value, dts.value, DatatypeList);
    if properties.Err? {
      return Err(properties.error);
    }
    var gens := Items(ListAt(d, "properties"));
    if gens.Err? {
      return Err(gens.error);
    }
    properties := AppendProps(properties.value, gens.value, GenericList);
    if properties.Err? {
      return Err(properties.error);
    }
    r := Finish(d, classes.value, properties.value);
  }

  /** The properties read are the object list's, then the datatype list's, then the generic list's. */
  lemma AllPropsParts(d: Dict)
    requires AllProps(d).Ok?
    ensures Items(ListAt(d, "object_properties")).Ok? && Items(ListAt(d, "datatype_properties")).Ok?
    ensures Items(ListAt(d, "properties")).Ok?
    ensures var objs := Items(ListAt(d, "object_properties")).value;
      var dts := Items(ListAt(d, "datatype_properties")).value;
      var gens := Items(ListAt(d, "properties")).value;
      && PropsUpTo(objs, |objs|, ObjectList).Ok? && PropsUpTo(dts, |dts|, DatatypeList).Ok?
      && PropsUpTo(gens, |gens|, GenericList).Ok?
      && AllProps(d).value == PropsUpTo(objs, |objs|, ObjectList).value + PropsUpTo(dts, |dts|, DatatypeList).value
                              + PropsUpTo(gens, |gens|, GenericList).value
  {
    var objs := Items(ListAt(d, "object_properties")).value;
    var a := PropsUpTo(objs, |objs|, ObjectList).value;
    assert [] + a == a;
  }

  /** The properties come object list first, then datatype list, then the generic list; the typed lists set the flag. */
  lemma AllPropsOrder(d: Dict, objs: seq<Json>, dts: seq<Json>, gens: seq<Json>, i: nat)
    requires Items(ListAt(d, "object_properties")) == Ok(objs) && Items(ListAt(d, "datatype_properties")) == Ok(dts)
    requires Items(ListAt(d, "properties")) == Ok(gens)
    requires AllProps(d).Ok?
    ensures var ps := AllProps(d).value;
      && |ps| == |objs| + |dts| + |gens|
      && (i < |objs| ==> TypedProp(objs[i], true) == Ok(ps[i]) && ps[i].isObjectProperty)
      && (|objs| <= i < |objs| + |dts| ==> TypedProp(dts[i - |objs|], false) == Ok(ps[i]) && !ps[i].isObjectProperty)
      && (|objs| + |dts| <= i < |ps| ==> GenericProp(gens[i - |objs| - |dts|]) == Ok(ps[i]))
  {
    AllPropsParts(d);
    PartsAt(objs, dts, gens, i);
  }

  /** Position `i` of the three lists' properties, concatenated, comes from the list that holds it. */
  lemma PartsAt(objs: seq<Json>, dts: seq<Json>, gens: seq<Json>, i: nat)
    requires PropsUpTo(objs, |objs|, ObjectList).Ok? && PropsUpTo(dts, |dts|, DatatypeList).Ok?
    requires PropsUpTo(gens, |gens|, GenericList).Ok?
    ensures var ps := PropsUpTo(objs, |objs|, ObjectList).value + PropsUpTo(dts, |dts|, DatatypeList).value
                      + PropsUpTo(gens, |gens|, GenericList).value;
      && |ps| == |objs| + |dts| + |gens|
      && (i < |objs| ==> TypedProp(objs[i], true) == Ok(ps[i]) && ps[i].isObjectProperty)
      && (|objs| <= i < |objs| + |dts| ==> TypedProp(dts[i - |objs|], false) == Ok(ps[i]) && !ps[i].isObjectProperty)
      && (|objs| + |dts| <= i < |ps| ==> GenericProp(gens[i - |objs| - |dts|]) == Ok(ps[i]))
  {
    Concat3At(PropsUpTo(objs, |objs|, ObjectList).value, PropsUpTo(dts, |dts|, DatatypeList).value,
              PropsUpTo(gens, |gens|, GenericList).value, i);
    if i < |objs| {
      PropsUpToAt(objs, |objs|, ObjectList, i);
    } else if i < |objs| + |dts| {
      PropsUpToAt(dts, |dts|, DatatypeList, i - |objs|);
    } else if i < |objs| + |dts| + |gens| {
      PropsUpToAt(gens, |gens|, GenericList, i - |objs| - |dts|);
    }
  }

  /** Where position `i` of `a + b + c` falls. */
  lemma Concat3At<T>(a: seq<T>, b: seq<T>, c: seq<T>, i: nat)
    ensures |a + b + c| == |a| + |b| + |c|
    ensures i < |a| ==> (a + b + c)[i] == a[i]
    ensures |a| <= i < |a| + |b| ==> (a + b + c)[i] == b[i - |a|]
    ensures |a| + |b| <= i < |a| + |b| + |c| ==> (a + b + c)[i] == c[i - |a| - |b|]
  {
  }

  /**
   * Each loop runs to its end before the next list is looked up: an object
   * property without a `uri` is reported as `KeyError('uri')` although the
   * datatype list that follows is not a list at all.
   */
  lemma ObjectLoopFirst()
    ensures Parse(JObj(map["name" := JStr("n"), "object_properties" := JArr([JObj(map[])]),
                           "datatype_properties" := JInt(5)])) == Err(KeyError("uri"))
  {
    var d := map["name" := JStr("n"), "object_properties" := JArr([JObj(map[])]), "datatype_properties" := JInt(5)];
    assert "classes" !in d;
    assert ListAt(d, "object_properties") == JArr([JObj(map[])]);
    assert PropFrom(JObj(map[]), ObjectList) == Err(KeyError("uri"));
    assert PropsUpTo([JObj(map[])], 1, ObjectList) == Err(KeyError("uri"));
    assert AllProps(d) == Err(KeyError("uri"));
  }

  /** A dict holding only a name reads as a schema with every optional field empty. */
  lemma ParseDefaults(name: string)
    ensures Parse(JObj(map["name" := JStr(name)])) == Ok(SparqlSchema(name, None, None, map[], [], []))
  {
    var d := map["name" := JStr(name)];
    assert "classes" !in d && "properties" !in d && "prefixes" !in d;
    assert "object_properties" !in d && "datatype_properties" !in d;
    assert "return_hint" !in d && "entity_rule" !in d;
    AllPropsGeneric(d);
    assert ListAt(d, "properties") == JArr([]);
    assert PropsUpTo([], 0, GenericList) == Ok([]);
    assert AsStrMap(JObj(map[]), "prefixes") == Ok(map[]);
    assert Finish(d, [], []) == Ok(SparqlSchema(name, None, None, map[], [], []));
  }

  // ---------------------------------------------------------------------
  // to_dict, and reading it back
  // ---------------------------------------------------------------------

  function PropJson(p: SparqlProperty): Json
  {
    JObj(map["uri" := JStr(p.uri), "label" := OptJson(p.displayName), "domain" := StrsJson(p.domain),
             "range" := StrsJson(p.range), "is_object_property" := JBool(p.isObjectProperty)])
  }

  function PropsJson(ps: seq<SparqlProperty>): seq<Json>
  {
    seq(|ps|, i requires 0 <= i < |ps| => PropJson(ps[i]))
  }

  /** `to_dict`, pydantic's `model_dump`: every property goes to the generic `properties` list. */
  function ToDict(s: SparqlSchema): Json
  {
    JObj(map["name" := JStr(s.name), "return_hint" := OptJson(s.returnHint), "entity_rule" := OptJson(s.entityRule),
             "prefixes" := StrMapJson(s.prefixes), "classes" := JArr(ClassesJson(s.classes)),
             "properties" := JArr(PropsJson(s.properties))])
  }

  lemma GenericOfJson(p: SparqlProperty)
    ensures GenericProp(PropJson(p)) == Ok(p)
  {
    var d := PropJson(p).fields;
    OptOfJson(d, "label", p.displayName);
    StrItemsOfStrs(p.domain, "domain");
    StrItemsOfStrs(p.range, "range");
  }

  lemma {:induction false} PropsUpToOf(items: seq<Json>, ps: seq<SparqlProperty>, k: nat)
    requires |items| == |ps| && k <= |ps|
    requires forall i :: 0 <= i < |ps| ==> GenericProp(items[i]) == Ok(ps[i])
    ensures PropsUpTo(items, k, GenericList) == Ok(ps[..k])
    decreases k
  {
    if k > 0 {
      PropsUpToOf(items, ps, k - 1);
      assert ps[..k] == ps[..k - 1] + [ps[k - 1]];
    }
  }

  lemma PropsOfJson(ps: seq<SparqlProperty>)
    ensures PropsUpTo(PropsJson(ps), |ps|, GenericList) == Ok(ps)
  {
    forall i | 0 <= i < |ps|
      ensures GenericProp(PropsJson(ps)[i]) == Ok(ps[i])
    {
      GenericOfJson(ps[i]);
    }
    PropsUpToOf(PropsJson(ps), ps, |ps|);
    assert ps[..|ps|] == ps;
  }

  /** The dumped fields read back: the name, the hints and the prefixes. */
  lemma FinishOfJson(s: SparqlSchema)
    ensures Finish(ToDict(s).fields, s.classes, s.properties) == Ok(s)
  {
    var d := ToDict(s).fields;
    OptOfJson(d, "return_hint", s.returnHint);
    OptOfJson(d, "entity_rule", s.entityRule);
    assert d["prefixes"] == StrMapJson(s.prefixes);
    StrMapOfJson(s.prefixes, "prefixes");
  }

  /** Without typed lists, the properties are the generic list's. */
  lemma AllPropsGeneric(d: Dict)
    requires "object_properties" !in d && "datatype_properties" !in d
    ensures AllProps(d) == ListProps([], d, "properties", GenericList)
  {
    assert ListAt(d, "object_properties") == JArr([]) && ListAt(d, "datatype_properties") == JArr([]);
    var a := Extend([], [], ObjectList);
    assert a.Ok? && PropsUpTo([], 0, ObjectList).value == [];
    assert a.value == [];
    var b := Extend([], [], DatatypeList);
    assert b.Ok? && PropsUpTo([], 0, DatatypeList).value == [];
    assert b.value == [];
  }

  /** The dumped lists: the classes and the generic properties, and no typed property lists. */
  lemma DumpedLists(s: SparqlSchema)
    ensures var d := ToDict(s).fields;
      && Items(GetOr(d, "classes", JArr([]))) == Ok(ClassesJson(s.classes))
      && "object_properties" !in d && "datatype_properties" !in d
      && Items(ListAt(d, "properties")) == Ok(PropsJson(s.properties))
  {
    var d := ToDict(s).fields;
    assert d["classes"] == JArr(ClassesJson(s.classes));
    assert d["properties"] == JArr(PropsJson(s.properties));
  }

  /** The dumped properties read back through the generic list. */
  lemma AllPropsOfJson(s: SparqlSchema)
    ensures AllProps(ToDict(s).fields) == Ok(s.properties)
  {
    var d := ToDict(s).fields;
    DumpedLists(s);
    AllPropsGeneric(d);
    PropsOfJson(s.properties);
    assert |PropsJson(s.properties)| == |s.properties|;
    assert PropsUpTo(PropsJson(s.properties), |PropsJson(s.properties)|, GenericList) == Ok(s.properties);
    assert [] + s.properties == s.properties;
  }

  /** A dumped schema reads back as itself; its properties come back through the generic list, flags and all. */
  lemma RoundTrip(s: SparqlSchema)
    ensures Parse(ToDict(s)) == Ok(s)
  {
    DumpedLists(s);
    ClassesOfJson(s.classes);
    assert |ClassesJson(s.classes)| == |s.classes|;
    AllPropsOfJson(s);
    FinishOfJson(s);
  }
}
