/**
 * The question module's secrets: one document in AWS Secrets Manager, named
 * after the deployment environment, loaded once into a cache that every
 * service object of the process shares, with the environment variables as
 * an optional fallback. A lookup never raises; anything that goes wrong
 * gives None.
 */
module QuestionSecrets {
  import opened Wrappers
  import opened PyText

  /** Why loading the secrets document failed: a ClientError of the SDK, or anything else (a malformed document). */
  datatype LoadError = ClientError(message: string) | OtherError(message: string)

  /** What get_secret_value would return now: the parsed secrets, or the failure. */
  type Store = Result<map<string, string>, LoadError>

  /** `os.environ.get(name, default)`. */
  function EnvGet(env: map<string, string>, name: string, default: string): string {
    if name in env then env[name] else default
  }

  /** The document's name: `<ENVIRONMENT>-video-pipeline-secrets`, the environment defaulting to dev. */
  function SecretName(env: map<string, string>): (r: string)
    ensures "ENVIRONMENT" !in env ==> r == "dev-video-pipeline-secrets"
  {
    EnvGet(env, "ENVIRONMENT", "dev") + "-video-pipeline-secrets"
  }

  /** The fallback is on unless USE_ENV_FALLBACK, lower-cased, is something other than 'true'. */
  function UseEnvFallback(env: map<string, string>): (r: bool)
    ensures "USE_ENV_FALLBACK" !in env ==> r
    ensures "USE_ENV_FALLBACK" in env ==> (r <==> Lower(env["USE_ENV_FALLBACK"]) == "true")
  {
    Lower(EnvGet(env, "USE_ENV_FALLBACK", "true")) == "true"
  }

  /** The shared state after _load_secrets, and whether it raised. */
  datatype LoadOutcome = LoadOutcome(cache: map<string, string>, loaded: bool, raised: bool)

  /** _load_secrets: nothing once loaded; a ClientError is swallowed only when the fallback is on. */
  function LoadSpec(cache: map<string, string>, loaded: bool, fallback: bool, store: Store): (o: LoadOutcome)
    ensures loaded ==> o == LoadOutcome(cache, true, false)
    ensures !loaded && store.Ok? ==> o == LoadOutcome(cache + store.value, true, false)
    ensures !loaded && store.Err? ==> o.cache == cache && !o.loaded && (o.raised <==> store.error.OtherError? || !fallback)
  {
    if loaded then LoadOutcome(cache, true, false)
    else
      match store
      case Ok(secrets) => LoadOutcome(cache + secrets, true, false)
      case Err(ClientError(_)) => LoadOutcome(cache, false, !fallback)
      case Err(OtherError(_)) => LoadOutcome(cache, false, true)
  }

  /** What get_secret returns, and the shared cache and flag after it. */
  datatype Lookup = Lookup(value: Option<string>, cache: map<string, string>, loaded: bool)

  /** get_secret: the cache, then the store (loaded at most once), then a non-empty KEY variable, which is cached. */
  function GetSecretSpec(cache: map<string, string>, loaded: bool, fallback: bool, key: string,
                         store: Store, env: map<string, string>): Lookup
  {
    if key in cache then Lookup(Some(cache[key]), cache, loaded)
    else
      var l := LoadSpec(cache, loaded, fallback, store);
      if l.raised then Lookup(None, l.cache, l.loaded)
      else if key in l.cache then Lookup(Some(l.cache[key]), l.cache, l.loaded)
      else if fallback && EnvGet(env, Upper(key), "") != "" then
        var v := EnvGet(env, Upper(key), "");
        Lookup(Some(v), l.cache[key := v], l.loaded)
      else Lookup(None, l.cache, l.loaded)
  }

  /** The module-level globals: the shared cache, the loaded flag and the singleton service. */
  class SecretsGlobals {
    var cache: map<string, string>
    var loaded: bool
    var service: SecretsService?

    /** The singleton, once made, uses these globals. */
    predicate Valid()
      reads this
    {
      service != null ==> service.globals == this
    }

    /** The state at import: an empty cache, nothing loaded, no service yet. */
    constructor()
      ensures Valid() && cache == map[] && !loaded && service == null
    {
      cache := map[];
      loaded := false;
      service := null;
    }

    /** get_secrets_service: the first call creates the service, every later call returns the same one. */
    method GetSecretsService(env: map<string, string>) returns (s: SecretsService)
      requires Valid()
      modifies this
      ensures Valid()
      ensures old(service) != null ==> s == old(service)
      ensures service == s && s.globals == this
      ensures old(service) == null ==> s.secretName == SecretName(env) && s.useEnvFallback == UseEnvFallback(env)
      ensures cache == old(cache) && loaded == old(loaded)
    {
      if service == null {
        service := new SecretsService(env, this);
      }
      s := service;
    }
  }

  class SecretsService {
    const secretName: string
    const useEnvFallback: bool
    /** The module-level cache every instance reads and writes. */
    const globals: SecretsGlobals

    constructor(env: map<string, string>, globals: SecretsGlobals)
      ensures secretName == SecretName(env) && useEnvFallback == UseEnvFallback(env) && this.globals == globals
    {
      secretName := SecretName(env);
      useEnvFallback := UseEnvFallback(env);
      this.globals := globals;
    }

    /** _load_secrets; `raised` tells whether the exception propagates. */
    method LoadSecrets(store: Store) returns (raised: bool)
      modifies globals
      ensures LoadOutcome(globals.cache, globals.loaded, raised) ==
        LoadSpec(old(globals.cache), old(globals.loaded), useEnvFallback, store)
      ensures globals.service == old(globals.service)
    {
      if globals.loaded {
        return false;
      }
      match store
      case Ok(secrets) =>
        globals.cache := globals.cache + secrets;
        globals.loaded := true;
        raised := false;
      case Err(e) =>
        raised := e.OtherError? || !useEnvFallback;
    }

    /** get_secret(key), `store` being what the store would answer and `env` the environment. */
    method GetSecret(key: string, store: Store, env: map<string, string>) returns (value: Option<string>)
      modifies globals
      ensures Lookup(value, globals.cache, globals.loaded) ==
        GetSecretSpec(old(globals.cache), old(globals.loaded), useEnvFallback, key, store, env)
      ensures globals.service == old(globals.service)
    {
      if key in globals.cache {
        return Some(globals.cache[key]);
      }
      var raised := LoadSecrets(store);
      if raised {
        return None;
      }
      if key in globals.cache {
        return Some(globals.cache[key]);
      }
      if useEnvFallback {
        var v := EnvGet(env, Upper(key), "");
        if v != "" {
          globals.cache := globals.cache[key := v];
          return Some(v);
        }
      }
      return None;
    }

    method GetApiKey(store: Store, env: map<string, string>) returns (value: Option<string>)
      modifies globals
      ensures Lookup(value, globals.cache, globals.loaded) ==
        GetSecretSpec(old(globals.cache), old(globals.loaded), useEnvFallback, "video-pipeline-api-key", store, env)
    {
      value := GetSecret("video-pipeline-api-key", store, env);
    }

    method GetAccessListUrl(store: Store, env: map<string, string>) returns (value: Option<string>)
      modifies globals
      ensures Lookup(value, globals.cache, globals.loaded) ==
        GetSecretSpec(old(globals.cache), old(globals.loaded), useEnvFallback, "access_list_url", store, env)
    {
      value := GetSecret("access_list_url", store, env);
    }

    /** invalidate_cache: empty the shared cache and forget that it was loaded. */
    method InvalidateCache()
      modifies globals
      ensures globals.cache == map[] && !globals.loaded && globals.service == old(globals.service)
    {
      globals.loaded := false;
      globals.cache := map[];
    }
  }

  /** A cached key is answered from the cache: neither the store nor the environment matters, and nothing changes. */
  lemma CachedKeyAnswered(cache: map<string, string>, loaded: bool, fallback: bool, key: string,
                          store1: Store, env1: map<string, string>, store2: Store, env2: map<string, string>)
    requires key in cache
    ensures GetSecretSpec(cache, loaded, fallback, key, store1, env1) == Lookup(Some(cache[key]), cache, loaded)
    ensures GetSecretSpec(cache, loaded, fallback, key, store1, env1) == GetSecretSpec(cache, loaded, fallback, key, store2, env2)
  {
  }

  /** Once loaded, the store is not read again and the flag stays set. */
  lemma LoadedOnce(cache: map<string, string>, fallback: bool, key: string, store1: Store, store2: Store, env: map<string, string>)
    ensures GetSecretSpec(cache, true, fallback, key, store1, env) == GetSecretSpec(cache, true, fallback, key, store2, env)
    ensures GetSecretSpec(cache, true, fallback, key, store1, env).loaded
  {
  }

  /** A failed load leaves the flag clear, so the next lookup of a key not cached tries the store again. */
  lemma FailedLoadRetried(cache: map<string, string>, fallback: bool, key: string, error: LoadError, env: map<string, string>)
    ensures !GetSecretSpec(cache, false, fallback, key, Err(error), env).loaded
  {
  }

  /** A successful load sets the flag and keeps every stored secret in the cache. */
  lemma SuccessfulLoadKept(cache: map<string, string>, fallback: bool, key: string, secrets: map<string, string>, env: map<string, string>)
    requires key !in cache
    ensures var l := GetSecretSpec(cache, false, fallback, key, Ok(secrets), env);
      l.loaded && secrets.Keys <= l.cache.Keys && forall k :: k in secrets ==> l.cache[k] == secrets[k]
    ensures key in secrets ==> GetSecretSpec(cache, false, fallback, key, Ok(secrets), env).value == Some(secrets[key])
  {
  }

  /** The environment answers only with the fallback on, a key found nowhere else, and a non-empty value, which is then cached. */
  lemma EnvironmentFallback(cache: map<string, string>, loaded: bool, fallback: bool, key: string, store: Store, env: map<string, string>)
    requires key !in cache
    requires var l := LoadSpec(cache, loaded, fallback, store); !l.raised && key !in l.cache
    ensures var r := GetSecretSpec(cache, loaded, fallback, key, store, env);
      (r.value.Some? <==> fallback && EnvGet(env, Upper(key), "") != "") &&
      (r.value.Some? ==> r.value.value == env[Upper(key)] && key in r.cache && r.cache[key] == env[Upper(key)])
  {
  }

  /** A load that raises gives None, whatever the environment holds. */
  lemma RaisingLoadGivesNone(cache: map<string, string>, fallback: bool, key: string, error: LoadError, env: map<string, string>)
    requires key !in cache
    requires error.OtherError? || !fallback
    ensures GetSecretSpec(cache, false, fallback, key, Err(error), env).value == None
  {
  }

  /** Two services made from the same globals see the same cache: what one stores the other reads. */
  lemma SharedCache(a: SecretsService, b: SecretsService, key: string)
    requires a.globals == b.globals && key in a.globals.cache
    ensures GetSecretSpec(a.globals.cache, a.globals.loaded, b.useEnvFallback, key, Err(OtherError("")), map[]).value ==
      Some(a.globals.cache[key])
  {
  }
}

/**
 * The embedding module's secrets: the same document, but cached per service
 * object and only when it was fetched and parsed; a failure falls back to
 * the environment every time.
 */
module EmbeddingSecrets {
  import opened Wrappers
  import opened PyText
  import opened PyJson
  import QS = QuestionSecrets

  /** What get_secret_value and json.loads would give now: the parsed document, or the failure's text. */
  type Fetch = Result<Json, string>

  /** A non-empty KEY variable when the fallback is on, else None. */
  function EnvFallback(fallback: bool, key: string, env: map<string, string>): (r: Json)
    ensures r == JNull || (fallback && r == JStr(QS.EnvGet(env, Upper(key), "")) && QS.EnvGet(env, Upper(key), "") != "")
  {
    if fallback && QS.EnvGet(env, Upper(key), "") != "" then JStr(QS.EnvGet(env, Upper(key), "")) else JNull
  }

  /** get_secret: the value (None as JNull) and the cache after it. */
  function GetSecretSpec(cache: map<string, Json>, secretName: string, fallback: bool, key: string,
                         fetch: Fetch, env: map<string, string>): (Json, map<string, Json>)
  {
    if secretName in cache then
      match Get(cache[secretName], key, JNull)
      case Ok(v) => (v, cache)
      case Err(_) => (EnvFallback(fallback, key, env), cache)
    else
      match fetch
      case Err(_) => (EnvFallback(fallback, key, env), cache)
      case Ok(document) =>
        var cache' := cache[secretName := document];
        match Get(document, key, JNull)
        case Ok(v) => (v, cache')
        case Err(_) => (EnvFallback(fallback, key, env), cache')
  }

  class SecretsService {
    var secretsCache: map<string, Json>
    const secretName: string
    const useEnvFallback: bool

    /** A new service starts with an empty cache of its own. */
    constructor(env: map<string, string>)
      ensures secretsCache == map[] && secretName == QS.SecretName(env) && useEnvFallback == QS.UseEnvFallback(env)
    {
      secretsCache := map[];
      secretName := QS.SecretName(env);
      useEnvFallback := QS.UseEnvFallback(env);
    }

    /** get_secret(key), `fetch` being what the store would answer now. */
    method GetSecret(key: string, fetch: Fetch, env: map<string, string>) returns (value: Json)
      modifies this
      ensures (value, secretsCache) == GetSecretSpec(old(secretsCache), secretName, useEnvFallback, key, fetch, env)
    {
      if secretName !in secretsCache {
        if fetch.Err? {
          return EnvFallback(useEnvFallback, key, env);
        }
        secretsCache := secretsCache[secretName := fetch.value];
      }
      var document := secretsCache[secretName];
      if !document.JDict? {
        return EnvFallback(useEnvFallback, key, env);
      }
      value := DictGet(document.fields, key, JNull);
    }

    method GetOpenaiApiKey(fetch: Fetch, env: map<string, string>) returns (value: Json)
      modifies this
      ensures (value, secretsCache) == GetSecretSpec(old(secretsCache), secretName, useEnvFallback, "openai_api_key", fetch, env)
    {
      value := GetSecret("openai_api_key", fetch, env);
    }

    method GetPineconeApiKey(fetch: Fetch, env: map<string, string>) returns (value: Json)
      modifies this
      ensures (value, secretsCache) == GetSecretSpec(old(secretsCache), secretName, useEnvFallback, "pinecone_api_key", fetch, env)
    {
      value := GetSecret("pinecone_api_key", fetch, env);
    }

    method GetOpenaiOrgId(fetch: Fetch, env: map<string, string>) returns (value: Json)
      modifies this
      ensures (value, secretsCache) == GetSecretSpec(old(secretsCache), secretName, useEnvFallback, "openai_org_id", fetch, env)
    {
      value := GetSecret("openai_org_id", fetch, env);
    }

    /** `get_secret(key) or default`. */
    method GetOr(key: string, default: string, fetch: Fetch, env: map<string, string>) returns (value: Json)
      modifies this
      ensures var (v, c) := GetSecretSpec(old(secretsCache), secretName, useEnvFallback, key, fetch, env);
        secretsCache == c && value == Or(v, JStr(default))
    {
      var v := GetSecret(key, fetch, env);
      value := Or(v, JStr(default));
    }

    method GetOpenaiBaseUrl(fetch: Fetch, env: map<string, string>) returns (value: Json)
      modifies this
      ensures var (v, c) := GetSecretSpec(old(secretsCache), secretName, useEnvFallback, "openai_base_url", fetch, env);
        secretsCache == c && value == Or(v, JStr("https://api.openai.com/v1"))
    {
      value := GetOr("openai_base_url", "https://api.openai.com/v1", fetch, env);
    }

    method GetPineconeEnvironment(fetch: Fetch, env: map<string, string>) returns (value: Json)
      modifies this
      ensures var (v, c) := GetSecretSpec(old(secretsCache), secretName, useEnvFallback, "pinecone_environment", fetch, env);
        secretsCache == c && value == Or(v, JStr("us-east-1"))
    {
      value := GetOr("pinecone_environment", "us-east-1", fetch, env);
    }

    method GetPineconeIndexName(fetch: Fetch, env: map<string, string>) returns (value: Json)
      modifies this
      ensures var (v, c) := GetSecretSpec(old(secretsCache), secretName, useEnvFallback, "pinecone_index_name", fetch, env);
        secretsCache == c && value == Or(v, JStr("talk-embeddings"))
    {
      value := GetOr("pinecone_index_name", "talk-embeddings", fetch, env);
    }
  }

  /** After a fetch the document is cached and the store is not asked again. */
  lemma FetchedOnce(cache: map<string, Json>, name: string, fallback: bool, key1: string, key2: string,
                    document: Json, fetch: Fetch, env: map<string, string>)
    requires name !in cache
    ensures var (_, c) := GetSecretSpec(cache, name, fallback, key1, Ok(document), env);
      name in c && c[name] == document &&
      GetSecretSpec(c, name, fallback, key2, fetch, env) == GetSecretSpec(c, name, fallback, key2, Err(""), env)
  {
  }

  /** A fetched dict answers every key itself: a missing key is None, with no environment fallback. */
  lemma FetchedDictAnswers(cache: map<string, Json>, name: string, fallback: bool, key: string,
                           fields: map<string, Json>, env: map<string, string>)
    requires name !in cache
    ensures GetSecretSpec(cache, name, fallback, key, Ok(JDict(fields)), env).0 == DictGet(fields, key, JNull)
  {
  }

  /** A failed fetch is not cached and falls back to the environment. */
  lemma FailedFetchNotCached(cache: map<string, Json>, name: string, fallback: bool, key: string, error: string, env: map<string, string>)
    requires name !in cache
    ensures GetSecretSpec(cache, name, fallback, key, Err(error), env) == (EnvFallback(fallback, key, env), cache)
  {
  }

  /** The environment values are never cached. */
  lemma FallbackNotCached(cache: map<string, Json>, name: string, fallback: bool, key: string, fetch: Fetch, env: map<string, string>)
    ensures var (_, c) := GetSecretSpec(cache, name, fallback, key, fetch, env);
      c == cache || (name !in cache && fetch.Ok? && c == cache[name := fetch.value])
  {
  }

  /** The defaulting getters give the default whenever the secret is None or empty. */
  lemma DefaultWhenMissing(v: Json, default: string)
    requires v == JNull || v == JStr("")
    ensures Or(v, JStr(default)) == JStr(default)
  {
  }
}
