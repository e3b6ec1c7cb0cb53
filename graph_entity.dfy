/**
 * The connection settings of the graph package
 * (src/nl2graph/graph/entity.py): the query languages and one
 * connection's configuration.
 */
module GraphEntity {
  import opened Wrappers

  /** `QueryLanguage`, a string enum. */
  datatype QueryLanguage = Cypher | Sparql | Gremlin

  /** The member's value. */
  function LangValue(q: QueryLanguage): (s: string)
    ensures s != ""
  {
    match q
    case Cypher => "cypher"
    case Sparql => "sparql"
    case Gremlin => "gremlin"
  }

  /** The `ValueError` of `QueryLanguage(s)` for a value that names no member. */
  function NotALanguage(s: string): string
  {
    "'" + s + "' is not a valid QueryLanguage"
  }

  /** `QueryLanguage(s)`: the member whose value is `s`. */
  function ParseLang(s: string): (r: Result<QueryLanguage, string>)
    ensures r.Ok? ==> LangValue(r.value) == s
    ensures r.Err? ==> r.error == NotALanguage(s)
  {
    if s == "cypher" then Ok(Cypher)
    else if s == "sparql" then Ok(Sparql)
    else if s == "gremlin" then Ok(Gremlin)
    else Err(NotALanguage(s))
  }

  /** Every member is found again from its value, so parsing succeeds exactly on the three values. */
  lemma ParseLangValue(q: QueryLanguage)
    ensures ParseLang(LangValue(q)) == Ok(q)
  {
  }

  /** `ConnectionConfig`: the optional fields default to None and the timeout to 30 seconds. */
  datatype ConnectionConfig = ConnectionConfig(
    name: string, queryLanguage: QueryLanguage,
    host: Option<string>, port: Option<int>, username: Option<string>, password: Option<string>,
    database: Option<string>, timeout: int)

  const DefaultTimeout := 30

  /** A configuration with only the required fields given. */
  function DefaultConfig(name: string, lang: QueryLanguage): (c: ConnectionConfig)
    ensures c.name == name && c.queryLanguage == lang && c.timeout == DefaultTimeout
    ensures c.host.None? && c.port.None? && c.username.None? && c.password.None? && c.database.None?
  {
    ConnectionConfig(name, lang, None, None, None, None, None, DefaultTimeout)
  }
}
