/**
 * `TemplateService` (src/nl2graph/base/templates/service.py): a registry of
 * prompt templates, one category per configured directory, one template
 * per `*.jinja2` file in it. Directory listings and the Jinja engine are
 * outside the model: a listing is a parameter (`None` for a directory that
 * does not exist) and rendering a present template is an oracle.
 */
module Templates {
  import opened Wrappers
  import opened Strs
  import opened OrderedMaps

  const Suffix := ".jinja2"

  datatype Template = Template(name: string, category: string, path: string)

  /** The file names in each directory, in the order `glob` yields them; `None` when the directory does not exist. */
  type Listing = string -> Option<seq<string>>

  /** Jinja rendering of a file of a directory with the keyword arguments. */
  type Engine = (string, string, map<string, string>) -> Result<string, string>

  /** `glob("*.jinja2")` keeps the names ending in the suffix. */
  predicate IsTemplateFile(f: string) {
    EndsWith(f, Suffix)
  }

  /** `Path.stem`: the name without its last suffix; a bare ".jinja2" is a hidden name with no suffix and keeps it. */
  function Stem(f: string): (s: string)
    requires IsTemplateFile(f)
    ensures |f| > |Suffix| ==> s + Suffix == f
    ensures |f| == |Suffix| ==> s == f
  {
    if |f| > |Suffix| then f[..|f| - |Suffix|] else f
  }

  /** The templates of one directory after the file loop has visited `files`. */
  function Catalog(category: string, dir: string, files: seq<string>): OrderedMap<string, Template>
    decreases |files|
  {
    if files == [] then Empty()
    else
      var f := files[|files| - 1];
      var before := Catalog(category, dir, files[..|files| - 1]);
      if IsTemplateFile(f) then Put(before, Stem(f), Template(Stem(f), category, dir + "/" + f))
      else before
  }

  /** The category table after the configuration loop has visited `entries`: a renderer and a catalog per existing directory. */
  function Categories(entries: seq<(string, string)>, listing: Listing): CategoryTable
    decreases |entries|
  {
    if entries == [] then Empty()
    else
      var (category, dir) := entries[|entries| - 1];
      var before := Categories(entries[..|entries| - 1], listing);
      match listing(dir)
      case None => before
      case Some(files) => Put(before, category, (dir, Catalog(category, dir, files)))
  }

  /** A template of a category is named after a template file of its directory, and every such file gives one. */
  lemma {:induction false} CatalogNames(category: string, dir: string, files: seq<string>, name: string)
    ensures Valid(Catalog(category, dir, files))
    ensures name in Catalog(category, dir, files).values <==>
      exists i :: 0 <= i < |files| && IsTemplateFile(files[i]) && Stem(files[i]) == name
    decreases |files|
  {
    if files != [] {
      var init := files[..|files| - 1];
      CatalogNames(category, dir, init, name);
      if exists i :: 0 <= i < |init| && IsTemplateFile(init[i]) && Stem(init[i]) == name {
        var i :| 0 <= i < |init| && IsTemplateFile(init[i]) && Stem(init[i]) == name;
        assert files[i] == init[i];
      }
      if exists i :: 0 <= i < |files| && IsTemplateFile(files[i]) && Stem(files[i]) == name {
        var i :| 0 <= i < |files| && IsTemplateFile(files[i]) && Stem(files[i]) == name;
        if i < |init| {
          assert init[i] == files[i];
        }
      }
    }
  }

  /** A category is loaded exactly when it is configured with a directory that exists. */
  lemma {:induction false} CategoryLoaded(entries: seq<(string, string)>, listing: Listing, category: string)
    ensures Valid(Categories(entries, listing))
    ensures category in Categories(entries, listing).values <==>
      exists i :: 0 <= i < |entries| && entries[i].0 == category && listing(entries[i].1).Some?
    decreases |entries|
  {
    if entries != [] {
      var init := entries[..|entries| - 1];
      CategoryLoaded(init, listing, category);
      if exists i :: 0 <= i < |init| && init[i].0 == category && listing(init[i].1).Some? {
        var i :| 0 <= i < |init| && init[i].0 == category && listing(init[i].1).Some?;
        assert entries[i] == init[i];
      }
      if exists i :: 0 <= i < |entries| && entries[i].0 == category && listing(entries[i].1).Some? {
        var i :| 0 <= i < |entries| && entries[i].0 == category && listing(entries[i].1).Some?;
        if i < |init| {
          assert init[i] == entries[i];
        }
      }
    }
  }

  /** `_load_categories` visiting one directory's files. */
  method LoadCatalog(category: string, dir: string, files: seq<string>) returns (catalog: OrderedMap<string, Template>)
    ensures catalog == Catalog(category, dir, files)
  {
    catalog := Empty();
    var i := 0;
    while i < |files|
      invariant 0 <= i <= |files|
      invariant catalog == Catalog(category, dir, files[..i])
    {
      assert files[..i + 1][..i] == files[..i];
      var f := files[i];
      if IsTemplateFile(f) {
        var name := Stem(f);
        catalog := Put(catalog, name, Template(name, category, dir + "/" + f));
      }
      i := i + 1;
    }
    assert files[..|files|] == files;
  }

  type CategoryTable = OrderedMap<string, (string, OrderedMap<string, Template>)>

  /**
   * `render`: a `KeyError` for an unknown category or template name (after
   * dropping a trailing ".jinja2"), otherwise the engine's output for the
   * template's file in the category's directory.
   */
  function RenderFrom(table: CategoryTable, engine: Engine, category: string, name: string, vars: map<string, string>)
    : (r: Result<string, string>)
    ensures category !in table.values ==> r == Err("category not found: '" + category + "'")
    ensures category in table.values && RemoveSuffix(name, Suffix) !in table.values[category].1.values ==>
      r == Err("template not found: '" + category + "/" + name + "'")
    ensures category in table.values && RemoveSuffix(name, Suffix) in table.values[category].1.values ==>
      r == engine(table.values[category].0, RemoveSuffix(name, Suffix) + Suffix, vars)
  {
    if category !in table.values then Err("category not found: '" + category + "'")
    else
      var templateName := RemoveSuffix(name, Suffix);
      if templateName !in table.values[category].1.values then
        Err("template not found: '" + category + "/" + name + "'")
      else
        engine(table.values[category].0, templateName + Suffix, vars)
  }

  class TemplateService {
    /** The Jinja engine every category's renderer uses. */
    const engine: Engine
    /** `_renderers` and `_templates` together: each loaded category, its directory and its templates. */
    const categories: CategoryTable

    /** `__init__`/`_load_categories` over the `templates` configuration entries (empty when absent). */
    constructor (entries: seq<(string, string)>, listing: Listing, engine: Engine)
      ensures categories == Categories(entries, listing) && this.engine == engine
    {
      this.engine := engine;
      var table := Empty();
      var i := 0;
      while i < |entries|
        invariant 0 <= i <= |entries|
        invariant table == Categories(entries[..i], listing)
      {
        assert entries[..i + 1][..i] == entries[..i];
        var (category, dir) := entries[i];
        var files := listing(dir);
        if files.Some? {
          var catalog := LoadCatalog(category, dir, files.value);
          table := Put(table, category, (dir, catalog));
        }
        i := i + 1;
      }
      assert entries[..|entries|] == entries;
      categories := table;
    }

    /** `ls_categories`. */
    function LsCategories(): (r: seq<string>)
      ensures forall c :: c in r <==> c in categories.keys
    {
      categories.keys
    }

    /** `ls_templates`: the template names of a category, nothing for an unknown one. */
    function LsTemplates(category: string): (r: seq<string>)
      ensures category !in categories.values ==> r == []
      ensures category in categories.values ==> r == categories.values[category].1.keys
    {
      if category in categories.values then categories.values[category].1.keys else []
    }

    /** `render`, with this service's categories and engine. */
    function Render(category: string, name: string, vars: map<string, string>): (r: Result<string, string>)
      ensures r == RenderFrom(categories, engine, category, name, vars)
    {
      RenderFrom(categories, engine, category, name, vars)
    }
  }

  /** A name given with the ".jinja2" suffix renders exactly as the bare name does, once that name is a known template. */
  lemma SuffixIsOptional(table: CategoryTable, engine: Engine, category: string, name: string, vars: map<string, string>)
    requires !EndsWith(name, Suffix)
    requires category in table.values && name in table.values[category].1.values
    ensures RenderFrom(table, engine, category, name + Suffix, vars) == RenderFrom(table, engine, category, name, vars)
    ensures RenderFrom(table, engine, category, name, vars) == engine(table.values[category].0, name + Suffix, vars)
  {
    assert (name + Suffix)[|name + Suffix| - |Suffix|..] == Suffix;
    assert (name + Suffix)[..|name + Suffix| - |Suffix|] == name;
  }
}
