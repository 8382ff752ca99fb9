/** `AdminManagementService`: client for the admin-management microservice. */
module AdminManagement {
  import opened Values
  import opened Transport
  import Config
  import Tokens

  const EnvVar := "ADMIN_MANAGEMENT_SERVICE_URL"
  const DefaultUrl := "http://admin-management-service:8000"

  datatype AdminManagementService = AdminManagementService(client: ServiceClient)

  /** The constructor: override, then environment variable, then default. */
  function New(baseUrl: Option<string>, env: Config.Environment): (r: Result<AdminManagementService>)
    ensures r.Err? <==> Config.ClearedByEnvironment(baseUrl, env, EnvVar)
    ensures r.Err? ==> r.error == ValueError(BaseUrlRequired)
    ensures Config.OverrideGiven(baseUrl) ==> r == Ok(AdminManagementService(ServiceClient(RStripSlash(baseUrl.value))))
    ensures !Config.OverrideGiven(baseUrl) && EnvVar in env && env[EnvVar] != "" ==> r == Ok(AdminManagementService(ServiceClient(RStripSlash(env[EnvVar]))))
    ensures !Config.OverrideGiven(baseUrl) && EnvVar !in env ==> r == Ok(AdminManagementService(ServiceClient(DefaultUrl)))
  {
    var client :- Config.Connect(baseUrl, env, EnvVar, DefaultUrl);
    Ok(AdminManagementService(client))
  }

  function RegisterAdmin(svc: AdminManagementService, adminData: map<string, Json>): (r: Request)
    ensures r == Request(POST, svc.client.baseUrl, "/register_admin", Options(None, Some(JDict(adminData)), None))
  {
    Post(svc.client, "/register_admin", Options(None, Some(JDict(adminData)), None))
  }

  /** Sends the normalised token as the body; a token of the wrong type raises
      before anything is sent. */
  function GetAllNonStaff(svc: AdminManagementService, token: Json): (r: Result<Request>)
    ensures r.Err? <==> !Tokens.Accepted(token)
    ensures r.Err? ==> r.error == TypeError(Tokens.TokenTypeMessage)
    ensures r.Ok? ==> r.value == Request(POST, svc.client.baseUrl, "/get_all_non_staff",
      Options(None, Some(JDict(Tokens.NormaliseTokenPayload(token).value)), None))
  {
    var payload :- Tokens.NormaliseTokenPayload(token);
    Ok(Post(svc.client, "/get_all_non_staff", Options(None, Some(JDict(payload)), None)))
  }

  /** Sends the e-mail and the new status as query parameters named
      `user_email` and `new_status`, and the normalised token as the body. */
  function ChangeAccountStatus(svc: AdminManagementService, token: Json, userEmail: string, newStatus: string): (r: Result<Request>)
    ensures r.Err? <==> !Tokens.Accepted(token)
    ensures r.Err? ==> r.error == TypeError(Tokens.TokenTypeMessage)
    ensures r.Ok? ==> r.value == Request(POST, svc.client.baseUrl, "/change_account_status",
      Options(Some(map["user_email" := userEmail, "new_status" := newStatus]),
              Some(JDict(Tokens.NormaliseTokenPayload(token).value)), None))
  {
    var payload :- Tokens.NormaliseTokenPayload(token);
    Ok(Post(svc.client, "/change_account_status",
      Options(Some(map["user_email" := userEmail, "new_status" := newStatus]), Some(JDict(payload)), None)))
  }

  function HealthCheck(svc: AdminManagementService): (r: Request)
    ensures r == Request(GET, svc.client.baseUrl, "/health", NoOptions)
  {
    Get(svc.client, "/health", NoOptions).value
  }
}
