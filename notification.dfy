/** `NotificationMicroserviceService`: client for the notification
    microservice, which exposes only liveness endpoints. */
module Notification {
  import opened Values
  import opened Transport
  import Config

  const EnvVar := "NOTIFICATION_SERVICE_URL"
  const DefaultUrl := "http://notification-service:8000"

  datatype NotificationMicroserviceService = NotificationMicroserviceService(client: ServiceClient)

  /** The constructor: override, then environment variable, then default. */
  function New(baseUrl: Option<string>, env: Config.Environment): (r: Result<NotificationMicroserviceService>)
    ensures r.Err? <==> Config.ClearedByEnvironment(baseUrl, env, EnvVar)
    ensures r.Err? ==> r.error == ValueError(BaseUrlRequired)
    ensures Config.OverrideGiven(baseUrl) ==> r == Ok(NotificationMicroserviceService(ServiceClient(RStripSlash(baseUrl.value))))
    ensures !Config.OverrideGiven(baseUrl) && EnvVar in env && env[EnvVar] != "" ==> r == Ok(NotificationMicroserviceService(ServiceClient(RStripSlash(env[EnvVar]))))
    ensures !Config.OverrideGiven(baseUrl) && EnvVar !in env ==> r == Ok(NotificationMicroserviceService(ServiceClient(DefaultUrl)))
  {
    var client :- Config.Connect(baseUrl, env, EnvVar, DefaultUrl);
    Ok(NotificationMicroserviceService(client))
  }

  function Root(svc: NotificationMicroserviceService): (r: Request)
    ensures r == Request(GET, svc.client.baseUrl, "/", NoOptions)
  {
    Get(svc.client, "/", NoOptions).value
  }

  function HealthCheck(svc: NotificationMicroserviceService): (r: Request)
    ensures r == Request(GET, svc.client.baseUrl, "/health", NoOptions)
  {
    Get(svc.client, "/health", NoOptions).value
  }
}
