/** `UserAuthenticationService`: client for the user-authentication
    microservice. `login_user` is its one call that authenticates with a
    basic-auth pair instead of a JSON body. */
module UserAuthentication {
  import opened Values
  import opened Transport
  import opened Format
  import Config
  import Tokens

  const EnvVar := "USER_AUTH_SERVICE_URL"
  const DefaultUrl := "http://user-auth-service:8000"

  const MissingCredentialsMessage := "Credentials must include email/username and password"
  const UnsupportedCredentialsMessage := "Unsupported credentials type for login_user"
  const BasicAuthTypeMessage := "BasicAuth username and password must be str"

  datatype UserAuthenticationService = UserAuthenticationService(client: ServiceClient)

  /** The constructor: override, then environment variable, then default. */
  function New(baseUrl: Option<string>, env: Config.Environment): (r: Result<UserAuthenticationService>)
    ensures r.Err? <==> Config.ClearedByEnvironment(baseUrl, env, EnvVar)
    ensures r.Err? ==> r.error == ValueError(BaseUrlRequired)
    ensures Config.OverrideGiven(baseUrl) ==> r == Ok(UserAuthenticationService(ServiceClient(RStripSlash(baseUrl.value))))
    ensures !Config.OverrideGiven(baseUrl) && EnvVar in env && env[EnvVar] != "" ==> r == Ok(UserAuthenticationService(ServiceClient(RStripSlash(env[EnvVar]))))
    ensures !Config.OverrideGiven(baseUrl) && EnvVar !in env ==> r == Ok(UserAuthenticationService(ServiceClient(DefaultUrl)))
  {
    var client :- Config.Connect(baseUrl, env, EnvVar, DefaultUrl);
    Ok(UserAuthenticationService(client))
  }

  function HealthCheck(svc: UserAuthenticationService): (r: Request)
    ensures r == Request(GET, svc.client.baseUrl, "/health", NoOptions)
  {
    Get(svc.client, "/health", NoOptions).value
  }

  function RegisterUser(svc: UserAuthenticationService, userData: map<string, Json>): (r: Request)
    ensures r == Request(POST, svc.client.baseUrl, "/register", Options(None, Some(JDict(userData)), None))
  {
    Post(svc.client, "/register", Options(None, Some(JDict(userData)), None))
  }

  /** What `login_user` can observe of its argument, in the order it looks:
      whether it is an httpx authentication object (and which), which
      attributes it has, and its entries when it is a dict. */
  datatype Credentials = Credentials(
    authObject: Option<Auth>,
    attributes: map<string, Json>,
    dict: Option<map<string, Json>>)

  predicate HasUsernamePassword(c: Credentials) {
    "username" in c.attributes && "password" in c.attributes
  }

  /** `credentials.get("email") or credentials.get("username")`. */
  function LoginName(d: map<string, Json>): (name: Json)
    ensures Truthy(DictGet(d, "email")) ==> name == d["email"]
    ensures !Truthy(DictGet(d, "email")) ==> name == DictGet(d, "username")
  {
    var email := DictGet(d, "email");
    if Truthy(email) then email else DictGet(d, "username")
  }

  /** `httpx.BasicAuth(username, password)`: both parts must be strings,
      anything else makes the constructor raise. */
  function MakeBasicAuth(username: Json, password: Json): (r: Result<Auth>)
    ensures r.Ok? <==> username.JStr? && password.JStr?
    ensures r.Ok? ==> r.value == BasicAuth(username.s, password.s)
    ensures r.Err? ==> r.error == TypeError(BasicAuthTypeMessage)
  {
    if username.JStr? && password.JStr? then Ok(BasicAuth(username.s, password.s))
    else Err(TypeError(BasicAuthTypeMessage))
  }

  /** The credential branch of `login_user`: the first matching test decides. */
  function ResolveCredentials(c: Credentials): (r: Result<Auth>)
    ensures c.authObject.Some? ==> r == Ok(c.authObject.value)
    ensures c.authObject.None? && HasUsernamePassword(c) ==>
      var u := c.attributes["username"];
      var p := c.attributes["password"];
      && (r.Ok? <==> u.JStr? && p.JStr?)
      && (r.Ok? ==> r.value == BasicAuth(u.s, p.s))
      && (r.Err? ==> r.error == TypeError(BasicAuthTypeMessage))
    ensures c.authObject.None? && !HasUsernamePassword(c) && c.dict.Some? ==>
      var d := c.dict.value;
      && (r.Ok? <==> Truthy(LoginName(d)) && Truthy(DictGet(d, "password")) && LoginName(d).JStr? && d["password"].JStr?)
      && (r.Ok? ==> r.value == BasicAuth(LoginName(d).s, d["password"].s))
      && (!Truthy(LoginName(d)) || !Truthy(DictGet(d, "password")) ==> r == Err(ValueError(MissingCredentialsMessage)))
      && (Truthy(LoginName(d)) && Truthy(DictGet(d, "password")) && r.Err? ==> r.error == TypeError(BasicAuthTypeMessage))
    ensures c.authObject.None? && !HasUsernamePassword(c) && c.dict.None? ==>
      r == Err(TypeError(UnsupportedCredentialsMessage))
  {
    if c.authObject.Some? then Ok(c.authObject.value)
    else if HasUsernamePassword(c) then MakeBasicAuth(c.attributes["username"], c.attributes["password"])
    else if c.dict.Some? then
      var email := LoginName(c.dict.value);
      var password := DictGet(c.dict.value, "password");
      if !Truthy(email) || !Truthy(password) then Err(ValueError(MissingCredentialsMessage))
      else MakeBasicAuth(email, password)
    else Err(TypeError(UnsupportedCredentialsMessage))
  }

  /** `POST /login` with the resolved authentication and no body; malformed
      credentials raise before anything is sent. */
  function LoginUser(svc: UserAuthenticationService, credentials: Credentials): (r: Result<Request>)
    ensures r.Err? <==> ResolveCredentials(credentials).Err?
    ensures r.Err? ==> r.error == ResolveCredentials(credentials).error
    ensures r.Ok? ==> r.value.verb == POST && Url(r.value) == svc.client.baseUrl + "/login"
    ensures r.Ok? ==> r.value.options == Options(None, None, Some(ResolveCredentials(credentials).value))
  {
    var auth :- ResolveCredentials(credentials);
    Ok(Post(svc.client, "/login", Options(None, None, Some(auth))))
  }

  /** A basic-auth pair built from a dict always has a non-empty name and
      password, both strings, and prefers the e-mail to the username. */
  lemma DictLoginIsWellFormed(d: map<string, Json>)
    requires ResolveCredentials(Credentials(None, map[], Some(d))).Ok?
    ensures var a := ResolveCredentials(Credentials(None, map[], Some(d))).value;
      a.BasicAuth? && a.username != "" && a.password != ""
      && ("email" in d && Truthy(d["email"]) ==> d["email"] == JStr(a.username))
  {
  }

  /** A dict without a usable password is refused and nothing is sent. */
  lemma MissingPasswordRefused(svc: UserAuthenticationService, d: map<string, Json>)
    requires "password" !in d || !Truthy(d["password"])
    ensures LoginUser(svc, Credentials(None, map[], Some(d))) == Err(ValueError(MissingCredentialsMessage))
  {
  }

  /** The checks run in order: an authentication object passes through even
      when it also has `username` and `password` attributes or is a dict. */
  lemma AuthObjectTakesPrecedence(a: Auth, attributes: map<string, Json>, dict: Option<map<string, Json>>)
    ensures ResolveCredentials(Credentials(Some(a), attributes, dict)) == Ok(a)
  {
  }

  /** Logging in as {"email": "a@b.com", "password": "p"} posts to /login with
      the pair ("a@b.com", "p") and no JSON body. */
  lemma LoginExample(svc: UserAuthenticationService)
    ensures var r := LoginUser(svc, Credentials(None, map[], Some(map["email" := JStr("a@b.com"), "password" := JStr("p")])));
      r.Ok? && r.value.path == "/login"
      && r.value.options == Options(None, None, Some(BasicAuth("a@b.com", "p")))
  {
  }

  function ValidateToken(svc: UserAuthenticationService, token: Json): (r: Result<Request>)
    ensures r.Err? <==> !Tokens.Accepted(token)
    ensures r.Err? ==> r.error == TypeError(Tokens.TokenTypeMessage)
    ensures r.Ok? ==> r.value == Request(POST, svc.client.baseUrl, "/validate",
      Options(None, Some(JDict(Tokens.NormaliseTokenPayload(token).value)), None))
  {
    var payload :- Tokens.NormaliseTokenPayload(token);
    Ok(Post(svc.client, "/validate", Options(None, Some(JDict(payload)), None)))
  }

  /** The user id is rendered after `/user/`; an int id too long to convert
      raises. */
  function GetUser(svc: UserAuthenticationService, userId: PathId): (r: Result<Request>)
    ensures r.Err? <==> Render(userId).Err?
    ensures r.Err? ==> r.error == ValueError(MaxStrDigitsMessage)
    ensures r.Ok? ==> r.value.verb == GET && r.value.baseUrl == svc.client.baseUrl && r.value.options == NoOptions
    ensures r.Ok? ==> |r.value.path| >= |"/user/"| && r.value.path[..|"/user/"|] == "/user/"
    ensures r.Ok? ==> r.value.path[|"/user/"|..] == Render(userId).value
  {
    var segment :- Render(userId);
    assert ("/user/" + segment)[|"/user/"|..] == segment;
    Get(svc.client, "/user/" + segment, NoOptions)
  }

  /** Different int user ids that both render give different requests, as
      handed to the transport. */
  lemma GetUserSeparatesIds(svc: UserAuthenticationService, m: int, n: int)
    requires m != n
    ensures GetUser(svc, IntId(m)).Ok? && GetUser(svc, IntId(n)).Ok? ==>
      GetUser(svc, IntId(m)).value != GetUser(svc, IntId(n)).value
  {
  }

  /** Promotes a user; no body is sent. */
  function MakeAdmin(svc: UserAuthenticationService, userId: PathId): (r: Result<Request>)
    ensures r.Err? <==> Render(userId).Err?
    ensures r.Err? ==> r.error == ValueError(MaxStrDigitsMessage)
    ensures r.Ok? ==> r.value.verb == POST && r.value.baseUrl == svc.client.baseUrl && r.value.options == NoOptions
    ensures r.Ok? ==> r.value.path == "/user/" + Render(userId).value + "/make_admin"
  {
    var segment :- Render(userId);
    Ok(Post(svc.client, "/user/" + segment + "/make_admin", NoOptions))
  }

  function GetAllNonStaff(svc: UserAuthenticationService, token: Json): (r: Result<Request>)
    ensures r.Err? <==> !Tokens.Accepted(token)
    ensures r.Err? ==> r.error == TypeError(Tokens.TokenTypeMessage)
    ensures r.Ok? ==> r.value == Request(POST, svc.client.baseUrl, "/users/non_staff",
      Options(None, Some(JDict(Tokens.NormaliseTokenPayload(token).value)), None))
  {
    var payload :- Tokens.NormaliseTokenPayload(token);
    Ok(Post(svc.client, "/users/non_staff", Options(None, Some(JDict(payload)), None)))
  }

  /** Like the admin service's call, but the e-mail parameter is named
      `target_user_email`. */
  function ChangeAccountStatus(svc: UserAuthenticationService, token: Json, targetUserEmail: string, newStatus: string): (r: Result<Request>)
    ensures r.Err? <==> !Tokens.Accepted(token)
    ensures r.Err? ==> r.error == TypeError(Tokens.TokenTypeMessage)
    ensures r.Ok? ==> r.value == Request(POST, svc.client.baseUrl, "/change_account_status",
      Options(Some(map["target_user_email" := targetUserEmail, "new_status" := newStatus]),
              Some(JDict(Tokens.NormaliseTokenPayload(token).value)), None))
  {
    var payload :- Tokens.NormaliseTokenPayload(token);
    Ok(Post(svc.client, "/change_account_status",
      Options(Some(map["target_user_email" := targetUserEmail, "new_status" := newStatus]), Some(JDict(payload)), None)))
  }
}
