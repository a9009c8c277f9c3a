/**
 * The client configuration of the Pinecone SDK bundled with the question
 * module: host normalisation and the resolution of the API key and host
 * from the arguments and the environment.
 */
module PineconeConfig {
  import opened Wrappers
  import opened PyText
  import opened PyJson

  const Https := "https://"
  const Http := "http://"

  /** normalize_host: None becomes "", a host without an http or https scheme gets https. The scheme test is case-sensitive. */
  function NormalizeHost(host: Option<string>): (r: string)
    ensures host.None? ==> r == ""
    ensures host.Some? ==> (StartsWith(r, Https) || StartsWith(r, Http)) && |host.value| <= |r| && r[|r| - |host.value|..] == host.value
    ensures host.Some? && (StartsWith(host.value, Https) || StartsWith(host.value, Http)) ==> r == host.value
  {
    match host
    case None => ""
    case Some(h) =>
      if StartsWith(h, Https) then h
      else if StartsWith(h, Http) then h
      else Https + h
  }

  /** Normalising a normalised host changes nothing. */
  lemma NormalizeIdempotent(h: string)
    ensures NormalizeHost(Some(NormalizeHost(Some(h)))) == NormalizeHost(Some(h))
  {
  }

  /** From None it is not: None gives "", and "" gives a bare scheme. */
  lemma NormalizeFromNone()
    ensures NormalizeHost(Some(NormalizeHost(None))) == Https
    ensures NormalizeHost(None) != Https
  {
  }

  /** An upper-case scheme is not recognised and gets a second one in front. */
  lemma UpperCaseSchemeDoubled()
    ensures NormalizeHost(Some("HTTPS://h")) == "https://HTTPS://h"
  {
    assert !StartsWith("HTTPS://h", Https) by { assert "HTTPS://h"[0] != Https[0]; }
    assert !StartsWith("HTTPS://h", Http) by { assert "HTTPS://h"[0] != Http[0]; }
  }

  /** The resolved settings of a client. */
  datatype Config = Config(
    apiKey: string,
    host: string,
    proxyUrl: Option<string>,
    proxyHeaders: Option<map<string, string>>,
    sslCaCerts: Option<string>,
    sslVerify: Option<bool>,
    additionalHeaders: Option<map<string, string>>,
    sourceTag: Json)

  const MissingApiKey := "You haven't specified an API key. Please either set the PINECONE_API_KEY environment variable or pass the 'api_key' keyword argument to the Pinecone client constructor."
  const MissingHost := "You haven't specified a host."

  /** The key: the argument when non-empty, otherwise PINECONE_API_KEY (None when unset). */
  function ResolveApiKey(apiKey: Option<string>, env: map<string, string>): (r: Option<string>)
    ensures apiKey.Some? && apiKey.value != "" ==> r == apiKey
    ensures (apiKey.None? || apiKey.value == "") ==> r == (if "PINECONE_API_KEY" in env then Some(env["PINECONE_API_KEY"]) else None)
  {
    if apiKey.Some? && apiKey.value != "" then apiKey
    else if "PINECONE_API_KEY" in env then Some(env["PINECONE_API_KEY"])
    else None
  }

  /** `host or None`: an empty host counts as none at all. */
  function HostArgument(host: Option<string>): Option<string> {
    if host.Some? && host.value != "" then host else None
  }

  /**
   * ConfigBuilder.build: a missing key is reported before a missing host, a
   * given host is normalised, source_tag is taken from the extra keyword
   * arguments, and the other settings pass through unchanged.
   */
  function Build(apiKey: Option<string>, host: Option<string>, proxyUrl: Option<string>,
                 proxyHeaders: Option<map<string, string>>, sslCaCerts: Option<string>, sslVerify: Option<bool>,
                 additionalHeaders: Option<map<string, string>>, kwargs: map<string, Json>,
                 env: map<string, string>): (r: Result<Config, string>)
    ensures var key := ResolveApiKey(apiKey, env);
      (key.None? || key.value == "" ==> r == Err(MissingApiKey)) &&
      (key.Some? && key.value != "" && HostArgument(host).None? ==> r == Err(MissingHost)) &&
      (r.Ok? <==> key.Some? && key.value != "" && HostArgument(host).Some?)
    ensures r.Ok? ==>
      r.value.apiKey == ResolveApiKey(apiKey, env).value && r.value.host == NormalizeHost(host)
      && (StartsWith(r.value.host, Https) || StartsWith(r.value.host, Http))
    ensures r.Ok? ==>
      r.value.proxyUrl == proxyUrl && r.value.proxyHeaders == proxyHeaders && r.value.sslCaCerts == sslCaCerts
      && r.value.sslVerify == sslVerify && r.value.additionalHeaders == additionalHeaders
      && r.value.sourceTag == DictGet(kwargs, "source_tag", JNull)
  {
    var key := ResolveApiKey(apiKey, env);
    var normalized := NormalizeHost(HostArgument(host));
    var sourceTag := DictGet(kwargs, "source_tag", JNull);
    if key.None? || key.value == "" then Err(MissingApiKey)
    else if normalized == "" then Err(MissingHost)
    else Ok(Config(key.value, normalized, proxyUrl, proxyHeaders, sslCaCerts, sslVerify, additionalHeaders, sourceTag))
  }

  /** A key passed as an argument wins over the environment. */
  lemma ArgumentKeyWins(apiKey: string, host: string, kwargs: map<string, Json>, env1: map<string, string>, env2: map<string, string>)
    requires apiKey != "" && host != ""
    ensures Build(Some(apiKey), Some(host), None, None, None, None, Some(map[]), kwargs, env1) ==
      Build(Some(apiKey), Some(host), None, None, None, None, Some(map[]), kwargs, env2)
    ensures Build(Some(apiKey), Some(host), None, None, None, None, Some(map[]), kwargs, env1).Ok?
  {
  }

  /** An empty host is a missing host: it is never normalised into a bare scheme. */
  lemma EmptyHostRejected(apiKey: string, kwargs: map<string, Json>, env: map<string, string>)
    requires apiKey != ""
    ensures Build(Some(apiKey), Some(""), None, None, None, None, Some(map[]), kwargs, env) == Err(MissingHost)
  {
  }
}
