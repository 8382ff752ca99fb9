/** How every facade constructor finds its base URL: `base_url or
    os.getenv(VARIABLE, DEFAULT)`, then `ServiceClient(url)`. The process
    environment is passed in as a map. */
module Config {
  import opened Values
  import opened Transport

  /** The process environment: variable name to value. */
  type Environment = map<string, string>

  /** `os.getenv(name, default)`: the variable's value when it is set, even
      when that value is empty; the default otherwise. */
  function GetEnv(env: Environment, name: string, default: string): (v: string)
    ensures name in env ==> v == env[name]
    ensures name !in env ==> v == default
  {
    if name in env then env[name] else default
  }

  /** The truth test `base_url or ...` applies to the optional override. */
  predicate OverrideGiven(baseUrl: Option<string>) {
    baseUrl.Some? && baseUrl.value != ""
  }

  /** The configuration that makes construction fail: no usable override and
      the variable set to the empty string. */
  predicate ClearedByEnvironment(baseUrl: Option<string>, env: Environment, name: string) {
    !OverrideGiven(baseUrl) && name in env && env[name] == ""
  }

  /** The URL a facade hands to `ServiceClient`: the first of a non-empty
      override, the environment variable, the default. */
  function ResolveServiceUrl(baseUrl: Option<string>, env: Environment, name: string, default: string): (url: string)
    ensures OverrideGiven(baseUrl) ==> url == baseUrl.value
    ensures !OverrideGiven(baseUrl) && name in env ==> url == env[name]
    ensures !OverrideGiven(baseUrl) && name !in env ==> url == default
  {
    if OverrideGiven(baseUrl) then baseUrl.value else GetEnv(env, name, default)
  }

  /** A facade constructor's work: resolve the URL, then build the client.
      With a non-empty default it fails only when the environment variable is
      set to the empty string and no override is given. */
  function Connect(baseUrl: Option<string>, env: Environment, name: string, default: string): (r: Result<ServiceClient>)
    requires default != ""
    ensures r.Err? <==> ClearedByEnvironment(baseUrl, env, name)
    ensures r.Err? ==> r.error == ValueError(BaseUrlRequired)
    ensures r.Ok? ==> r.value.baseUrl == RStripSlash(ResolveServiceUrl(baseUrl, env, name, default))
    ensures OverrideGiven(baseUrl) ==> r == Ok(ServiceClient(RStripSlash(baseUrl.value)))
    ensures !OverrideGiven(baseUrl) && name in env && env[name] != "" ==> r == Ok(ServiceClient(RStripSlash(env[name])))
    ensures !OverrideGiven(baseUrl) && name !in env && !EndsWithSlash(default) ==> r == Ok(ServiceClient(default))
  {
    NewServiceClient(ResolveServiceUrl(baseUrl, env, name, default))
  }

  /** An empty override counts as no override. */
  lemma EmptyOverrideIgnored(env: Environment, name: string, default: string)
    requires default != ""
    ensures Connect(Some(""), env, name, default) == Connect(None, env, name, default)
  {
  }
}
