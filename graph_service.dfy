/**
 * The graph package's `GraphService` (src/nl2graph/graph/service.py): one
 * connected connector per dataset and query language, built from a
 * `ConnectionConfig` read out of `data.<dataset>.connections.<lang>` on
 * first use and cached under `dataset/lang` until `close_all`.
 *
 * As written, the Neo4j and rdflib connector classes pass that
 * configuration positionally to `BaseConnector.__init__(self, **kwargs)`
 * (src/nl2graph/graph/connectors/base.py:12), which accepts keywords only,
 * so constructing either raises `TypeError`. `GetConnector` models that;
 * `GetIntendedConnector` is the cache the code evidently intends, where
 * construction succeeds.
 */
module GraphConnections {
  import opened Wrappers
  import opened Json
  import opened Connectors
  import opened GraphEntity
  import SchemaInput
  import Configs

  /** The configuration key of a dataset's connection for a language. */
  function ConnectionKey(dataset: string, lang: string): string
  {
    "data." + dataset + ".connections." + lang
  }

  /** An `Optional[int]` field read with `config.get(field)`. */
  function OptIntField(d: Dict, field: string): (r: Result<Option<int>, string>)
    ensures r.Ok? <==> field !in d || d[field].JNull? || d[field].JInt?
    ensures r.Ok? && field in d && d[field].JInt? ==> r.value == Some(d[field].i)
    ensures r.Ok? && (field !in d || d[field].JNull?) ==> r.value == None
  {
    match SchemaInput.GetOr(d, field, JNull)
    case JNull => Ok(None)
    case JInt(i) => Ok(Some(i))
    case _ => Err(SchemaInput.Invalid(field))
  }

  /** Every value the connection settings take from the configuration has the declared type. */
  predicate WellTyped(d: Dict)
  {
    && SchemaInput.OptStrField(d, "host").Ok?
    && OptIntField(d, "port").Ok?
    && SchemaInput.OptStrField(d, "username").Ok?
    && SchemaInput.OptStrField(d, "password").Ok?
    && SchemaInput.OptStrField(d, "database").Ok?
    && SchemaInput.GetOr(d, "timeout", JInt(DefaultTimeout)).JInt?
  }

  /** The `ConnectionConfig` of `_create_connector`, named after the language, from a configuration dict. */
  function SettingsOf(lang: string, q: QueryLanguage, d: Dict): (r: Result<ConnectionConfig, string>)
    ensures r.Ok? <==> WellTyped(d)
    ensures r.Ok? ==> r.value.name == lang && r.value.queryLanguage == q
    ensures r.Ok? ==> r.value.timeout == if "timeout" in d then d["timeout"].i else DefaultTimeout
    ensures r.Ok? ==> r.value.host == SchemaInput.OptStrField(d, "host").value
    ensures r.Ok? ==> r.value.port == OptIntField(d, "port").value
    ensures r.Ok? ==> r.value.username == SchemaInput.OptStrField(d, "username").value
    ensures r.Ok? ==> r.value.password == SchemaInput.OptStrField(d, "password").value
    ensures r.Ok? ==> r.value.database == SchemaInput.OptStrField(d, "database").value
    ensures r.Err? ==> exists f :: f in {"host", "port", "username", "password", "database", "timeout"} && r.error == SchemaInput.Invalid(f)
  {
    var host := SchemaInput.OptStrField(d, "host");
    var port := OptIntField(d, "port");
    var username := SchemaInput.OptStrField(d, "username");
    var password := SchemaInput.OptStrField(d, "password");
    var database := SchemaInput.OptStrField(d, "database");
    var timeout := SchemaInput.GetOr(d, "timeout", JInt(DefaultTimeout));
    if host.Err? then Err(host.error)
    else if port.Err? then Err(port.error)
    else if username.Err? then Err(username.error)
    else if password.Err? then Err(password.error)
    else if database.Err? then Err(database.error)
    else if !timeout.JInt? then Err(SchemaInput.Invalid("timeout"))
    else Ok(ConnectionConfig(lang, q, host.value, port.value, username.value, password.value, database.value, timeout.i))
  }

  /**
   * `_create_connector`: `QueryLanguage(lang)` is evaluated first, so an
   * unknown language fails with its `ValueError` whatever the configuration;
   * then the settings are read and the language's connector class chosen.
   */
  function CreateConfig(lang: string, config: Json): (r: Result<(Backend, ConnectionConfig), string>)
    ensures ParseLang(lang).Err? ==> r == Err(NotALanguage(lang))
    ensures ParseLang(lang).Ok? && !config.JObj? ==> r == Err(SchemaInput.NoGet)
    ensures r.Ok? <==> ParseLang(lang).Ok? && config.JObj? && WellTyped(config.fields)
    ensures r.Ok? ==> Some(r.value.0) == BackendOf(lang)
    ensures r.Ok? ==> r.value.1 == SettingsOf(lang, ParseLang(lang).value, config.fields).value
  {
    match ParseLang(lang)
    case Err(e) => Err(e)
    case Ok(q) =>
      if !config.JObj? then Err(SchemaInput.NoGet)
      else
        match SettingsOf(lang, q, config.fields)
        case Err(e) => Err(e)
        case Ok(settings) =>
          match BackendOf(lang)
          case None => Err(Unsupported(lang))
          case Some(b) => Ok((b, settings))
  }

  /** Every language that parses has a connector class, so the final `ValueError` of `_create_connector` is never raised. */
  lemma NeverUnsupported(lang: string, config: Json)
    ensures CreateConfig(lang, config) != Err(Unsupported(lang))
  {
    var r := CreateConfig(lang, config);
    assert Unsupported(lang)[0] == 'u';
    if r.Err? {
      if ParseLang(lang).Err? {
        assert r.error[0] == '\'';
      } else if !config.JObj? {
        assert r.error[0] == 'o';
      } else {
        var f :| f in {"host", "port", "username", "password", "database", "timeout"} && r.error == SchemaInput.Invalid(f);
        assert r.error[0] == 'v';
      }
    }
  }

  /** A configuration without a timeout connects with the 30-second default. */
  lemma TimeoutDefault(lang: string, config: Json)
    requires CreateConfig(lang, config).Ok?
    requires "timeout" !in config.fields
    ensures CreateConfig(lang, config).value.1.timeout == DefaultTimeout
  {
  }

  /** The `TypeError` of calling `BaseConnector.__init__(self, **kwargs)` with one positional argument. */
  const PositionalInit := "BaseConnector.__init__() takes 1 positional argument but 2 were given"

  /**
   * Whether the connector class's `__init__` hands the `ConnectionConfig`
   * to `super().__init__` positionally: Neo4j (graph/connectors/neo4j.py:50-51)
   * and rdflib (graph/connectors/rdflib.py:18-19) do.
   * src/nl2graph/graph/connectors/gremlin.py is not part of this model;
   * its constructor is taken to succeed.
   */
  function ForwardsPositionally(b: Backend): bool
  {
    b != GremlinBackend
  }

  /** `BaseConnector.__init__(self, **kwargs)`: any positional argument raises `TypeError`. */
  function BaseInit(positional: bool): (r: Option<string>)
    ensures r.None? <==> !positional
  {
    if positional then Some(PositionalInit) else None
  }

  /** Constructing the connector class of a back end as written: the exception it raises, None when it succeeds. */
  function Construct(b: Backend): (r: Option<string>)
    ensures r.Some? <==> b == Neo4jBackend || b == RdfLibBackend
    ensures r.Some? ==> r.value == PositionalInit
  {
    BaseInit(ForwardsPositionally(b))
  }

  /** What a cache miss of `get_connector` creates: a `KeyError` when the connection is not configured. */
  function Resolve(config: Configs.ConfigService, dataset: string, lang: string)
    : (r: Result<(Backend, ConnectionConfig), string>)
    ensures Falsy(Configs.Setting(config, ConnectionKey(dataset, lang), JNull)) ==>
      r == Err(SchemaInput.KeyError(NotFound(ConnectionKey(dataset, lang))))
    ensures !Falsy(Configs.Setting(config, ConnectionKey(dataset, lang), JNull)) ==>
      r == CreateConfig(lang, Configs.Setting(config, ConnectionKey(dataset, lang), JNull))
  {
    var section := Configs.Setting(config, ConnectionKey(dataset, lang), JNull);
    if Falsy(section) then Err(SchemaInput.KeyError(NotFound(ConnectionKey(dataset, lang))))
    else CreateConfig(lang, section)
  }

  /** A cache miss of `get_connector` as written: a configured connection whose class raises on construction fails with that `TypeError`. */
  function Built(config: Configs.ConfigService, dataset: string, lang: string)
    : (r: Result<(Backend, ConnectionConfig), string>)
    ensures Resolve(config, dataset, lang).Err? ==> r == Resolve(config, dataset, lang)
    ensures Resolve(config, dataset, lang).Ok? && Construct(Resolve(config, dataset, lang).value.0).Some? ==>
      r == Err(PositionalInit)
    ensures Resolve(config, dataset, lang).Ok? && Construct(Resolve(config, dataset, lang).value.0).None? ==>
      r == Resolve(config, dataset, lang)
  {
    match Resolve(config, dataset, lang)
    case Err(e) => Err(e)
    case Ok(created) =>
      match Construct(created.0)
      case Some(e) => Err(e)
      case None => Ok(created)
  }

  /**
   * As written, a Cypher or SPARQL connection is never built: it fails
   * with the missing-configuration `KeyError`, the settings' own error, or
   * else the `TypeError` of the connector's constructor.
   */
  lemma CypherSparqlNeverBuilt(config: Configs.ConfigService, dataset: string, lang: string)
    requires lang == "cypher" || lang == "sparql"
    ensures Built(config, dataset, lang).Err?
    ensures Resolve(config, dataset, lang).Ok? ==> Built(config, dataset, lang) == Err(PositionalInit)
  {
    var want := Resolve(config, dataset, lang);
    if want.Ok? {
      assert Some(want.value.0) == BackendOf(lang);
    }
  }

  class GraphService {
    const config: Configs.ConfigService
    /** `_connectors`. */
    var connectors: map<string, Connector<ConnectionConfig>>

    /** Every cached connector was connected once and not closed, and no connector is cached twice. */
    ghost predicate Valid()
      reads this, connectors.Values
    {
      && (forall k :: k in connectors ==> connectors[k].connects == 1 && connectors[k].closes == 0)
      && (forall k1, k2 :: k1 in connectors && k2 in connectors && k1 != k2 ==> connectors[k1] != connectors[k2])
    }

    constructor (config: Configs.ConfigService)
      ensures this.config == config && connectors == map[] && Valid()
    {
      this.config := config;
      connectors := map[];
    }

    /**
     * `get_connector` as written: the cached connector when there is one,
     * untouched; otherwise the configuration is read, and a connector whose
     * class can be constructed is connected once and cached. A Cypher or
     * SPARQL miss always fails, with nothing connected or cached.
     */
    method GetConnector(dataset: string, lang: string) returns (r: Result<Connector<ConnectionConfig>, string>)
      requires Valid()
      modifies this
      ensures Valid()
      ensures CacheKey(dataset, lang) in old(connectors) ==>
        r == Ok(old(connectors)[CacheKey(dataset, lang)]) && connectors == old(connectors)
      ensures CacheKey(dataset, lang) !in old(connectors) ==>
        var want := Built(config, dataset, lang);
        && (r.Ok? <==> want.Ok?)
        && (r.Err? ==> r.error == want.error && connectors == old(connectors))
        && (r.Ok? ==>
              && fresh(r.value) && r.value.backend == want.value.0 && r.value.settings == want.value.1
              && r.value.connects == 1 && r.value.closes == 0
              && connectors == old(connectors)[CacheKey(dataset, lang) := r.value])
      ensures CacheKey(dataset, lang) !in old(connectors) && (lang == "cypher" || lang == "sparql") ==>
        r.Err? && connectors == old(connectors)
    {
      var key := CacheKey(dataset, lang);
      if key in connectors {
        return Ok(connectors[key]);
      }
      var section := config.Get(ConnectionKey(dataset, lang), JNull);
      if Falsy(section) {
        return Err(SchemaInput.KeyError(NotFound(ConnectionKey(dataset, lang))));
      }
      var created := CreateConfig(lang, section);
      if created.Err? {
        return Err(created.error);
      }
      var raised := Construct(created.value.0);
      if raised.Some? {
        return Err(raised.value);
      }
      assert lang == "gremlin";
      var connector := new Connector(created.value.0, created.value.1);
      connector.Connect();
      connectors := connectors[key := connector];
      return Ok(connector);
    }

    /**
     * The `get_connector` the code evidently intends, where every connector
     * class can be constructed: the cached connector when there is one,
     * untouched; otherwise a new connector for the configured connection,
     * connected once and cached, or the error with nothing cached.
     */
    method GetIntendedConnector(dataset: string, lang: string) returns (r: Result<Connector<ConnectionConfig>, string>)
      requires Valid()
      modifies this
      ensures Valid()
      ensures CacheKey(dataset, lang) in old(connectors) ==>
        r == Ok(old(connectors)[CacheKey(dataset, lang)]) && connectors == old(connectors)
      ensures CacheKey(dataset, lang) !in old(connectors) ==>
        var want := Resolve(config, dataset, lang);
        && (r.Ok? <==> want.Ok?)
        && (r.Err? ==> r.error == want.error && connectors == old(connectors))
        && (r.Ok? ==>
              && fresh(r.value) && r.value.backend == want.value.0 && r.value.settings == want.value.1
              && r.value.connects == 1 && r.value.closes == 0
              && connectors == old(connectors)[CacheKey(dataset, lang) := r.value])
    {
      var key := CacheKey(dataset, lang);
      if key in connectors {
        return Ok(connectors[key]);
      }
      var section := config.Get(ConnectionKey(dataset, lang), JNull);
      if Falsy(section) {
        return Err(SchemaInput.KeyError(NotFound(ConnectionKey(dataset, lang))));
      }
      var created := CreateConfig(lang, section);
      if created.Err? {
        return Err(created.error);
      }
      var connector := new Connector(created.value.0, created.value.1);
      connector.Connect();
      connectors := connectors[key := connector];
      return Ok(connector);
    }

    /** `close_all`: every cached connector closed once, and the cache emptied. */
    method CloseAll()
      requires Valid()
      modifies this, connectors.Values
      ensures connectors == map[] && Valid()
      ensures forall c :: c in old(connectors).Values ==> c.closes == old(c.closes) + 1 && c.connects == old(c.connects)
    {
      var todo := connectors.Values;
      ghost var all := todo;
      while todo != {}
        invariant todo <= all
        invariant forall c :: c in all - todo ==> c.closes == old(c.closes) + 1 && c.connects == old(c.connects)
        invariant forall c :: c in todo ==> c.closes == old(c.closes) && c.connects == old(c.connects)
        invariant connectors == old(connectors)
        decreases |todo|
      {
        var c :| c in todo;
        c.Close();
        todo := todo - {c};
      }
      connectors := map[];
    }
  }
}
