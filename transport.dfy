/** The transport wrapper `ServiceClient`: base-URL validation and trailing-slash
    stripping, leading-slash path normalisation, and the four verb operations,
    which here produce a description of the request instead of sending it. */
module Transport {
  import opened Values

  const BaseUrlRequired := "base_url is required"

  predicate StartsWithSlash(s: string) {
    |s| > 0 && s[0] == '/'
  }

  predicate EndsWithSlash(s: string) {
    |s| > 0 && s[|s| - 1] == '/'
  }

  predicate AllSlashes(s: string) {
    forall i :: 0 <= i < |s| ==> s[i] == '/'
  }

  /** `s.rstrip("/")`: the longest prefix of `s` that does not end in `/`,
      so that only slashes were removed. */
  function RStripSlash(s: string): (r: string)
    ensures r <= s
    ensures !EndsWithSlash(r)
    ensures AllSlashes(s[|r|..])
  {
    if EndsWithSlash(s) then RStripSlash(s[..|s| - 1]) else s
  }

  /** The three properties of `RStripSlash` determine its result: any prefix
      without a trailing slash followed only by slashes is the stripped string. */
  lemma RStripSlashUnique(s: string, t: string)
    requires t <= s && !EndsWithSlash(t) && AllSlashes(s[|t|..])
    ensures t == RStripSlash(s)
  {
  }

  lemma RStripSlashIdempotent(s: string)
    ensures RStripSlash(RStripSlash(s)) == RStripSlash(s)
  {
  }

  /** A string made only of slashes strips to the empty string, and only such
      a string does. */
  lemma RStripSlashEmptyIff(s: string)
    ensures RStripSlash(s) == "" <==> AllSlashes(s)
  {
  }

  /** The configured client. The timeout and the connection context are not
      modelled: the timeout is only forwarded to the transport. */
  datatype ServiceClient = ServiceClient(baseUrl: string)

  /** `ServiceClient(base_url)`: rejects an empty URL, otherwise stores the URL
      with every trailing slash removed. */
  function NewServiceClient(baseUrl: string): (r: Result<ServiceClient>)
    ensures r.Err? <==> baseUrl == ""
    ensures r.Err? ==> r.error == ValueError(BaseUrlRequired)
    ensures r.Ok? ==> r.value.baseUrl <= baseUrl && !EndsWithSlash(r.value.baseUrl)
    ensures r.Ok? ==> AllSlashes(baseUrl[|r.value.baseUrl|..])
  {
    if baseUrl == "" then Err(ValueError(BaseUrlRequired))
    else Ok(ServiceClient(RStripSlash(baseUrl)))
  }

  /** A URL made only of slashes passes the emptiness check and is stored as
      the empty string. */
  lemma AllSlashBaseUrlStoredEmpty(baseUrl: string)
    requires baseUrl != "" && AllSlashes(baseUrl)
    ensures NewServiceClient(baseUrl) == Ok(ServiceClient(""))
  {
  }

  /** `ServiceClient._normalise`: adds a leading slash when there is none and
      changes nothing else. */
  function Normalise(endpoint: string): (p: string)
    ensures StartsWithSlash(p)
    ensures p == endpoint <==> StartsWithSlash(endpoint)
    ensures p == endpoint || p == "/" + endpoint
  {
    if StartsWithSlash(endpoint) then endpoint else "/" + endpoint
  }

  lemma NormaliseIdempotent(endpoint: string)
    ensures Normalise(Normalise(endpoint)) == Normalise(endpoint)
  {
  }

  /** An endpoint written with or without its leading slash reaches the same
      path, e.g. "health" and "/health". */
  lemma NormaliseIgnoresLeadingSlash(endpoint: string)
    requires !StartsWithSlash(endpoint)
    ensures Normalise(endpoint) == Normalise("/" + endpoint) == "/" + endpoint
  {
  }

  /** An httpx authentication object: a basic-auth pair of strings, or any
      other authentication object, known only by its identity. */
  datatype Auth =
    | BasicAuth(username: string, password: string)
    | CustomAuth(handle: nat)

  datatype Verb = GET | POST | PUT | DELETE

  /** The keyword arguments a facade forwards to the transport. An absent
      argument and an explicit `None` are the same here. */
  datatype Options = Options(
    params: Option<map<string, string>>,
    json: Option<Json>,
    auth: Option<Auth>)

  const NoOptions := Options(None, None, None)

  /** What one call would send. */
  datatype Request = Request(verb: Verb, baseUrl: string, path: string, options: Options)

  /** The full URL a request targets: the stored base URL followed by the
      normalised path. */
  function Url(r: Request): string {
    r.baseUrl + r.path
  }

  /** The shared body of `ServiceClient.get`/`post`/`put`/`delete`: normalise
      the path, then hand the verb, the path and the options to the transport.
      Here it yields the request that would be sent, for any verb and any
      options. */
  function Send(c: ServiceClient, verb: Verb, endpoint: string, options: Options): (r: Request)
    ensures r.verb == verb && r.baseUrl == c.baseUrl && r.options == options
    ensures StartsWithSlash(r.path)
    ensures r.path == endpoint || r.path == "/" + endpoint
    ensures StartsWithSlash(endpoint) ==> Url(r) == c.baseUrl + endpoint
  {
    Request(verb, c.baseUrl, Normalise(endpoint), options)
  }

  /** The error httpx's `get` and `delete` raise for a `json` argument: their
      signatures take no request body. */
  function UnexpectedJson(operation: string): Error {
    TypeError("AsyncClient." + operation + "() got an unexpected keyword argument 'json'")
  }

  /** `ServiceClient.get`: httpx's `get` has no `json` parameter, so a body
      makes the call raise before anything is sent. */
  function Get(c: ServiceClient, endpoint: string, options: Options): (r: Result<Request>)
    ensures r.Err? <==> options.json.Some?
    ensures r.Err? ==> r.error == UnexpectedJson("get")
    ensures r.Ok? ==> r.value.verb == GET && r.value.baseUrl == c.baseUrl && r.value.options == options
    ensures r.Ok? ==> StartsWithSlash(r.value.path) && (r.value.path == endpoint <==> StartsWithSlash(endpoint))
    ensures r.Ok? ==> r.value.path == endpoint || r.value.path == "/" + endpoint
  {
    if options.json.Some? then Err(UnexpectedJson("get")) else Ok(Send(c, GET, endpoint, options))
  }

  /** `ServiceClient.post`. */
  function Post(c: ServiceClient, endpoint: string, options: Options): (r: Request)
    ensures r.verb == POST && r.baseUrl == c.baseUrl && r.options == options
    ensures StartsWithSlash(r.path) && (r.path == endpoint <==> StartsWithSlash(endpoint))
    ensures r.path == endpoint || r.path == "/" + endpoint
  {
    Send(c, POST, endpoint, options)
  }

  /** `ServiceClient.put`. */
  function Put(c: ServiceClient, endpoint: string, options: Options): (r: Request)
    ensures r.verb == PUT && r.baseUrl == c.baseUrl && r.options == options
    ensures StartsWithSlash(r.path) && (r.path == endpoint <==> StartsWithSlash(endpoint))
    ensures r.path == endpoint || r.path == "/" + endpoint
  {
    Send(c, PUT, endpoint, options)
  }

  /** `ServiceClient.delete`: httpx's `delete` has no `json` parameter, so a
      body makes the call raise before anything is sent. */
  function Delete(c: ServiceClient, endpoint: string, options: Options): (r: Result<Request>)
    ensures r.Err? <==> options.json.Some?
    ensures r.Err? ==> r.error == UnexpectedJson("delete")
    ensures r.Ok? ==> r.value.verb == DELETE && r.value.baseUrl == c.baseUrl && r.value.options == options
    ensures r.Ok? ==> StartsWithSlash(r.value.path) && (r.value.path == endpoint <==> StartsWithSlash(endpoint))
    ensures r.Ok? ==> r.value.path == endpoint || r.value.path == "/" + endpoint
  {
    if options.json.Some? then Err(UnexpectedJson("delete")) else Ok(Send(c, DELETE, endpoint, options))
  }
}
