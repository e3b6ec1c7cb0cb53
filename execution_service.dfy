/**
 * The execution package's `GraphService` (src/nl2graph/execution/service.py):
 * one connected connector per dataset and query language, created from
 * `data.<dataset>.connection.<lang>` on first use and cached under
 * `dataset/lang` until `close_all`.
 */
module ExecutionConnections {
  import opened Wrappers
  import opened Json
  import opened Connectors
  import SchemaInput
  import Configs

  /** `{**config, ...}` on a value that is not a dict. */
  const NotMapping := "object is not a mapping"

  /** The configuration key of a dataset's connection for a language. */
  function ConnectionKey(dataset: string, lang: string): string
  {
    "data." + dataset + ".connection." + lang
  }

  /**
   * `_create_connector`: the configuration with `name` set to the language,
   * handed to the language's connector class; a `ValueError` for any other
   * language.
   */
  function CreateSettings(lang: string, config: Json): (r: Result<(Backend, Dict), string>)
    ensures !config.JObj? ==> r == Err(NotMapping)
    ensures config.JObj? && BackendOf(lang).None? ==> r == Err(Unsupported(lang))
    ensures r.Ok? <==> config.JObj? && BackendOf(lang).Some?
    ensures r.Ok? ==> r.value.0 == BackendOf(lang).value
    ensures r.Ok? ==> r.value.1.Keys == config.fields.Keys + {"name"} && r.value.1["name"] == JStr(lang)
    ensures r.Ok? ==> forall k :: k in config.fields && k != "name" ==> r.value.1[k] == config.fields[k]
  {
    if !config.JObj? then Err(NotMapping)
    else
      var settings := config.fields["name" := JStr(lang)];
      match BackendOf(lang)
      case None => Err(Unsupported(lang))
      case Some(b) => Ok((b, settings))
  }

  /** What a cache miss of `get_connector` creates: a `KeyError` when the connection is not configured. */
  function Resolve(config: Configs.ConfigService, dataset: string, lang: string): (r: Result<(Backend, Dict), string>)
    ensures Falsy(Configs.Setting(config, ConnectionKey(dataset, lang), JNull)) ==>
      r == Err(SchemaInput.KeyError(NotFound(ConnectionKey(dataset, lang))))
    ensures !Falsy(Configs.Setting(config, ConnectionKey(dataset, lang), JNull)) ==>
      r == CreateSettings(lang, Configs.Setting(config, ConnectionKey(dataset, lang), JNull))
  {
    var section := Configs.Setting(config, ConnectionKey(dataset, lang), JNull);
    if Falsy(section) then Err(SchemaInput.KeyError(NotFound(ConnectionKey(dataset, lang))))
    else CreateSettings(lang, section)
  }

  /** A configured connection for a known language always yields a connector named after the language. */
  lemma ResolveKnown(config: Configs.ConfigService, dataset: string, lang: string)
    requires Configs.Setting(config, ConnectionKey(dataset, lang), JNull).JObj?
    requires Configs.Setting(config, ConnectionKey(dataset, lang), JNull).fields != map[]
    requires lang == "cypher" || lang == "sparql" || lang == "gremlin"
    ensures Resolve(config, dataset, lang).Ok?
    ensures Resolve(config, dataset, lang).value.1["name"] == JStr(lang)
  {
  }

  class GraphService {
    const config: Configs.ConfigService
    /** `_connectors`. */
    var connectors: map<string, Connector<Dict>>

    /** Every cached connector was connected once and not closed, and no connector is cached twice. */
    ghost predicate Valid()
      reads this, connectors.Values
    {
      && (forall k :: k in connectors ==> connectors[k].connects == 1 && connectors[k].closes == 0)
      && (forall k1, k2 :: k1 in connectors && k2 in connectors && k1 != k2 ==> connectors[k1] != connectors[k2])
    }

    constructor (config: Configs.ConfigService)
      ensures this.config == config && connectors == map[] && Valid()
    {
      this.config := config;
      connectors := map[];
    }

    /**
     * `get_connector`: the cached connector when there is one, untouched;
     * otherwise a new connector for the configured connection, connected
     * once and cached, or the error with nothing cached.
     */
    method GetConnector(dataset: string, lang: string) returns (r: Result<Connector<Dict>, string>)
      requires Valid()
      modifies this
      ensures Valid()
      ensures CacheKey(dataset, lang) in old(connectors) ==>
        r == Ok(old(connectors)[CacheKey(dataset, lang)]) && connectors == old(connectors)
      ensures CacheKey(dataset, lang) !in old(connectors) ==>
        var want := Resolve(config, dataset, lang);
        && (r.Ok? <==> want.Ok?)
        && (r.Err? ==> r.error == want.error && connectors == old(connectors))
        && (r.Ok? ==>
              && fresh(r.value) && r.value.backend == want.value.0 && r.value.settings == want.value.1
              && r.value.connects == 1 && r.value.closes == 0
              && connectors == old(connectors)[CacheKey(dataset, lang) := r.value])
    {
      var key := CacheKey(dataset, lang);
      if key in connectors {
        return Ok(connectors[key]);
      }
      var section := config.Get(ConnectionKey(dataset, lang), JNull);
      if Falsy(section) {
        return Err(SchemaInput.KeyError(NotFound(ConnectionKey(dataset, lang))));
      }
      var created := CreateSettings(lang, section);
      if created.Err? {
        return Err(created.error);
      }
      var connector := new Connector(created.value.0, created.value.1);
      connector.Connect();
      connectors := connectors[key := connector];
      return Ok(connector);
    }

    /** `close_all`: every cached connector closed once, and the cache emptied. */
    method CloseAll()
      requires Valid()
      modifies this, connectors.Values
      ensures connectors == map[] && Valid()
      ensures forall c :: c in old(connectors).Values ==> c.closes == old(c.closes) + 1 && c.connects == old(c.connects)
    {
      var todo := connectors.Values;
      ghost var all := todo;
      while todo != {}
        invariant todo <= all
        invariant forall c :: c in all - todo ==> c.closes == old(c.closes) + 1 && c.connects == old(c.connects)
        invariant forall c :: c in todo ==> c.closes == old(c.closes) && c.connects == old(c.connects)
        invariant connectors == old(connectors)
        decreases |todo|
      {
        var c :| c in todo;
        c.Close();
        todo := todo - {c};
      }
      connectors := map[];
    }
  }
}
