/** The database location chosen by the configuration classes: a Heroku-style
    postgres:// URL is renamed to the scheme SQLAlchemy accepts, a missing URL falls
    back to a local SQLite file, and the testing configuration uses memory. The
    environment variable's value is a parameter. */
module Config {
  import opened Wrappers
  import opened Text

  const OldScheme: string := "postgres://"
  const NewScheme: string := "postgresql://"
  const DefaultDatabaseUri: string := "sqlite:///synchronie.db"
  const TestingDatabaseUri: string := "sqlite:///:memory:"

  /** Python truthiness of the environment value: set and not empty. */
  predicate Truthy(url: Option<string>)
  {
    url.Some? && url.value != []
  }

  /** The rewrite of DATABASE_URL: a value starting with the old scheme has that first
      occurrence, the prefix itself, replaced by the new one; anything else is kept. */
  function NormaliseUrl(url: Option<string>): (r: Option<string>)
    ensures Truthy(url) && StartsWith(url.value, OldScheme) ==>
              r == Some(NewScheme + url.value[|OldScheme|..])
    ensures !(Truthy(url) && StartsWith(url.value, OldScheme)) ==> r == url
  {
    if Truthy(url) && StartsWith(url.value, OldScheme) then Some(ReplacePrefix(url.value, OldScheme, NewScheme))
    else url
  }

  /** The rewrite is done once for all: the new scheme does not start with the old. */
  lemma NormaliseIdempotent(url: Option<string>)
    ensures NormaliseUrl(NormaliseUrl(url)) == NormaliseUrl(url)
  {
    var r := NormaliseUrl(url);
    if Truthy(url) && StartsWith(url.value, OldScheme) {
      assert r.value[8] == 'q' != OldScheme[8];
    }
  }

  /** The rewritten URL names the same server: only the scheme changes. */
  lemma NormaliseKeepsRest(url: string)
    requires StartsWith(url, OldScheme)
    ensures var r := NormaliseUrl(Some(url)).value;
            StartsWith(r, NewScheme) && r[|NewScheme|..] == url[|OldScheme|..]
  {
  }

  /** SQLALCHEMY_DATABASE_URI of the base configuration: the rewritten URL, or the
      SQLite file when the variable is missing or empty. */
  function DatabaseUri(url: Option<string>): (uri: string)
    ensures Truthy(url) ==> Some(uri) == NormaliseUrl(url)
    ensures !Truthy(url) ==> uri == DefaultDatabaseUri
  {
    var normalised := NormaliseUrl(url);
    if Truthy(normalised) then normalised.value else DefaultDatabaseUri
  }

  datatype ConfigClass = Development | Production | Testing

  /** The `config` dictionary, 'default' included. */
  const Configs: map<string, ConfigClass> :=
    map["development" := Development, "production" := Production,
        "testing" := Testing, "default" := Development]

  /** The database of a configuration class: testing overrides the inherited one. */
  function DatabaseUriOf(c: ConfigClass, url: Option<string>): (uri: string)
    ensures c == Testing ==> uri == TestingDatabaseUri
    ensures c != Testing ==> uri == DatabaseUri(url)
  {
    if c == Testing then TestingDatabaseUri else DatabaseUri(url)
  }

  predicate DebugOf(c: ConfigClass) { c != Production }

  predicate TestingOf(c: ConfigClass) { c == Testing }

  /** The default configuration is the development one, and only testing runs in
      memory whatever the environment says. */
  lemma DefaultIsDevelopment(url: Option<string>)
    ensures "default" in Configs && Configs["default"] == Configs["development"]
    ensures DatabaseUriOf(Configs["default"], url) == DatabaseUriOf(Development, url)
    ensures DatabaseUriOf(Configs["testing"], url) == TestingDatabaseUri
    ensures DebugOf(Configs["default"]) && !TestingOf(Configs["default"])
  {
  }

  /** Outside testing, the database is never the in-memory one unless the environment
      names it. */
  lemma MemoryOnlyWhenAsked(c: ConfigClass, url: Option<string>)
    requires c != Testing && !(Truthy(url) && url.value == TestingDatabaseUri)
    ensures DatabaseUriOf(c, url) != TestingDatabaseUri
  {
    if Truthy(url) && StartsWith(url.value, OldScheme) {
      assert DatabaseUriOf(c, url)[0] == 'p' != TestingDatabaseUri[0];
    }
  }
}
