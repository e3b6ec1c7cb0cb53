/**
 * What the two connector caches (src/nl2graph/execution/service.py and
 * src/nl2graph/graph/service.py) share: the back ends a query language
 * is dispatched to, the connector objects they cache, and the cache key
 * `dataset/lang`. Opening and closing a database session is outside the
 * model; a connector counts how often it was connected and closed.
 */
module Connectors {
  import opened Wrappers
  import opened Strs

  /** The connector classes: Neo4j for Cypher, rdflib for SPARQL, Gremlin for Gremlin. */
  datatype Backend = Neo4jBackend | RdfLibBackend | GremlinBackend

  /** `_create_connector`'s dispatch on the language name. */
  function BackendOf(lang: string): (b: Option<Backend>)
    ensures b == Some(Neo4jBackend) <==> lang == "cypher"
    ensures b == Some(RdfLibBackend) <==> lang == "sparql"
    ensures b == Some(GremlinBackend) <==> lang == "gremlin"
  {
    if lang == "cypher" then Some(Neo4jBackend)
    else if lang == "sparql" then Some(RdfLibBackend)
    else if lang == "gremlin" then Some(GremlinBackend)
    else None
  }

  /** The `ValueError` for a language with no connector. */
  function Unsupported(lang: string): string
  {
    "unsupported query language: " + lang
  }

  /** The message of the `KeyError` for a missing connection configuration. */
  function NotFound(path: string): string
  {
    "connection not found: " + path
  }

  /** The cache key of a connector. */
  function CacheKey(dataset: string, lang: string): string
  {
    dataset + "/" + lang
  }

  /** The key's last slash is the one before the language name. */
  lemma LastSlash(dataset: string, lang: string)
    requires '/' !in lang
    ensures var k := CacheKey(dataset, lang);
      k[|k| - |lang| - 1] == '/' && forall i :: |k| - |lang| <= i < |k| ==> k[i] != '/'
  {
    var k := CacheKey(dataset, lang);
    forall i | |k| - |lang| <= i < |k|
      ensures k[i] != '/'
    {
      assert k[i] == lang[i - (|k| - |lang|)];
    }
  }

  /** A language name without a slash is the part after the key's last slash, so distinct pairs have distinct keys. */
  lemma CacheKeyInjective(d1: string, l1: string, d2: string, l2: string)
    requires '/' !in l1 && '/' !in l2
    requires CacheKey(d1, l1) == CacheKey(d2, l2)
    ensures d1 == d2 && l1 == l2
  {
    var k := CacheKey(d1, l1);
    LastSlash(d1, l1);
    LastSlash(d2, l2);
    assert |l1| == |l2|;
    assert l1 == k[|k| - |l1|..] == l2;
    assert d1 == k[..|d1|] == d2;
  }

  /** A connector of one back end with its settings; `connect` and `close` are counted. */
  class Connector<S> {
    const backend: Backend
    const settings: S
    var connects: nat
    var closes: nat

    constructor (backend: Backend, settings: S)
      ensures this.backend == backend && this.settings == settings
      ensures connects == 0 && closes == 0
    {
      this.backend := backend;
      this.settings := settings;
      connects := 0;
      closes := 0;
    }

    /** `connect`. */
    method Connect()
      modifies this
      ensures connects == old(connects) + 1 && closes == old(closes)
    {
      connects := connects + 1;
    }

    /** `close`. */
    method Close()
      modifies this
      ensures closes == old(closes) + 1 && connects == old(connects)
    {
      closes := closes + 1;
    }
  }
}
