/** Application settings: fixed defaults, two required values, the MongoDB URI check
    and the cached accessor. The environment is a map from variable name to value. */
module Config {
  import opened Wrappers

  datatype Settings = Settings(
    projectName: string, environment: string, debug: bool, mongodbUri: string,
    mongodbDb: string, openrouterApi: string, logLevel: string)

  /** pydantic's coercion of an environment string to bool, which is not part of this
      model: None when the text is not a boolean. */
  type BoolParser = string -> Option<bool>

  const DefaultProjectName := "StoryTelling"
  const DefaultEnvironment := "dev"
  const DefaultDebug := false
  const DefaultMongodbDb := "mongo_sync"
  const DefaultLogLevel := "INFO"

  const MongoUriMessage := "MONGODB_URI must start with mongodb:// or mongodb+srv://"

  predicate StartsWith(s: string, prefix: string) {
    |prefix| <= |s| && s[..|prefix|] == prefix
  }

  predicate IsMongoUri(v: string) {
    StartsWith(v, "mongodb://") || StartsWith(v, "mongodb+srv://")
  }

  /** ensure_mongo_uri: the value comes back unchanged exactly when it has one of the
      two schemes; anything else is a ValueError. */
  function EnsureMongoUri(v: string): (r: Result<string>)
    ensures r.Ok? <==> IsMongoUri(v)
    ensures r.Ok? ==> r.value == v
    ensures r.Err? ==> r.error == ValueError(MongoUriMessage)
  {
    if !(StartsWith(v, "mongodb://") || StartsWith(v, "mongodb+srv://")) then Err(ValueError(MongoUriMessage))
    else Ok(v)
  }

  /** Both schemes are accepted, and the value is returned as given. */
  lemma MongoUriAccepted()
    ensures EnsureMongoUri("mongodb://db:27017") == Ok("mongodb://db:27017")
    ensures EnsureMongoUri("mongodb+srv://db") == Ok("mongodb+srv://db")
  {
    assert "mongodb://db:27017"[..10] == "mongodb://";
    assert "mongodb+srv://db"[..14] == "mongodb+srv://";
  }

  /** The check is on the exact, case-sensitive prefix. */
  lemma MongoUriRejected()
    ensures EnsureMongoUri("MONGODB://db").Err?
    ensures EnsureMongoUri("mongodb:/db").Err?
    ensures EnsureMongoUri("").Err?
  {
    assert !StartsWith("MONGODB://db", "mongodb://") by {
      assert "MONGODB://db"[0] != "mongodb://"[0];
    }
    assert !StartsWith("MONGODB://db", "mongodb+srv://");
    assert !StartsWith("mongodb:/db", "mongodb://") by {
      assert "mongodb:/db"[9] != "mongodb://"[9];
    }
    assert !StartsWith("mongodb:/db", "mongodb+srv://");
  }

  function Lookup(env: map<string, string>, name: string, default: string): string {
    if name in env then env[name] else default
  }

  /** The fields that fail validation, in declaration order: a DEBUG that is not a
      boolean, a MONGODB_URI that is missing or has the wrong scheme, a missing
      OPENROUTER_API. */
  function Failures(env: map<string, string>, parseBool: BoolParser): (r: seq<string>)
    ensures "MONGODB_URI" in r <==> "MONGODB_URI" !in env || !IsMongoUri(env["MONGODB_URI"])
    ensures "OPENROUTER_API" in r <==> "OPENROUTER_API" !in env
    ensures "DEBUG" in r <==> "DEBUG" in env && parseBool(env["DEBUG"]).None?
    ensures forall f :: f in r ==> f in {"DEBUG", "MONGODB_URI", "OPENROUTER_API"}
  {
    (if "DEBUG" in env && parseBool(env["DEBUG"]).None? then ["DEBUG"] else [])
    + (if "MONGODB_URI" !in env || EnsureMongoUri(env["MONGODB_URI"]).Err? then ["MONGODB_URI"] else [])
    + (if "OPENROUTER_API" !in env then ["OPENROUTER_API"] else [])
  }

  /** Settings(): every field from the environment or its default; any failing field
      makes the whole construction a ValidationError naming all of them. */
  function LoadSettings(env: map<string, string>, parseBool: BoolParser): (r: Result<Settings>)
    ensures r.Err? <==> Failures(env, parseBool) != []
    ensures r.Err? ==> r.error == ValidationError(Failures(env, parseBool))
    ensures r.Ok? ==>
      && r.value.mongodbUri == env["MONGODB_URI"] && IsMongoUri(r.value.mongodbUri)
      && r.value.openrouterApi == env["OPENROUTER_API"]
      && r.value.projectName == Lookup(env, "PROJECT_NAME", DefaultProjectName)
      && r.value.environment == Lookup(env, "ENVIRONMENT", DefaultEnvironment)
      && r.value.mongodbDb == Lookup(env, "MONGODB_DB", DefaultMongodbDb)
      && r.value.logLevel == Lookup(env, "LOG_LEVEL", DefaultLogLevel)
      && r.value.debug == ("DEBUG" in env && parseBool(env["DEBUG"]) == Some(true))
  {
    var failures := Failures(env, parseBool);
    if failures != [] then Err(ValidationError(failures))
    else
      Ok(Settings(
        Lookup(env, "PROJECT_NAME", DefaultProjectName),
        Lookup(env, "ENVIRONMENT", DefaultEnvironment),
        if "DEBUG" in env then parseBool(env["DEBUG"]).value else DefaultDebug,
        env["MONGODB_URI"],
        Lookup(env, "MONGODB_DB", DefaultMongodbDb),
        env["OPENROUTER_API"],
        Lookup(env, "LOG_LEVEL", DefaultLogLevel)))
  }

  /** With only the two required values set, every other field takes its default. */
  lemma {:induction false} Defaults(uri: string, api: string, parseBool: BoolParser)
    requires IsMongoUri(uri)
    ensures LoadSettings(map["MONGODB_URI" := uri, "OPENROUTER_API" := api], parseBool)
              == Ok(Settings("StoryTelling", "dev", false, uri, "mongo_sync", api, "INFO"))
  {
    var env := map["MONGODB_URI" := uri, "OPENROUTER_API" := api];
    assert "DEBUG" !in env && "PROJECT_NAME" !in env && "ENVIRONMENT" !in env;
    assert "MONGODB_DB" !in env && "LOG_LEVEL" !in env;
    assert Failures(env, parseBool) == [];
  }

  /** Neither required value has a default: leaving both out names both. */
  lemma {:induction false} RequiredFields(env: map<string, string>, parseBool: BoolParser)
    requires "MONGODB_URI" !in env && "OPENROUTER_API" !in env
    requires "DEBUG" !in env
    ensures LoadSettings(env, parseBool) == Err(ValidationError(["MONGODB_URI", "OPENROUTER_API"]))
  {
  }

  /** get_settings under lru_cache(maxsize=1): the first successful construction is
      kept and returned ever after; a failed one raises and is not cached. */
  class SettingsCache {
    var cached: Option<Settings>

    constructor ()
      ensures cached == None
    {
      cached := None;
    }

    method Get(env: map<string, string>, parseBool: BoolParser) returns (r: Result<Settings>)
      modifies this
      ensures old(cached).Some? ==> r == Ok(old(cached).value) && cached == old(cached)
      ensures old(cached).None? ==> r == LoadSettings(env, parseBool)
      ensures old(cached).None? ==> cached == if r.Ok? then Some(r.value) else None
    {
      if cached.Some? {
        return Ok(cached.value);
      }
      r := LoadSettings(env, parseBool);
      if r.Ok? {
        cached := Some(r.value);
      }
    }
  }

  /** Later calls return the first settings even when the environment has changed. */
  method CachedAcrossCalls(env1: map<string, string>, env2: map<string, string>, parseBool: BoolParser)
    returns (first: Result<Settings>, second: Result<Settings>)
    requires LoadSettings(env1, parseBool).Ok?
    ensures first == LoadSettings(env1, parseBool) && second == first
  {
    var cache := new SettingsCache();
    first := cache.Get(env1, parseBool);
    second := cache.Get(env2, parseBool);
  }
}
