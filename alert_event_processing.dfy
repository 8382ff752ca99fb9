/** `AlertAndEventProcessingService`: client for the alert and event
    processing microservice, which exposes only liveness endpoints. */
module AlertEventProcessing {
  import opened Values
  import opened Transport
  import Config

  const EnvVar := "ALERT_EVENT_PROCESSING_SERVICE_URL"
  const DefaultUrl := "http://alert-event-processing-service:8000"

  datatype AlertAndEventProcessingService = AlertAndEventProcessingService(client: ServiceClient)

  /** The constructor: override, then environment variable, then default. */
  function New(baseUrl: Option<string>, env: Config.Environment): (r: Result<AlertAndEventProcessingService>)
    ensures r.Err? <==> Config.ClearedByEnvironment(baseUrl, env, EnvVar)
    ensures r.Err? ==> r.error == ValueError(BaseUrlRequired)
    ensures Config.OverrideGiven(baseUrl) ==> r == Ok(AlertAndEventProcessingService(ServiceClient(RStripSlash(baseUrl.value))))
    ensures !Config.OverrideGiven(baseUrl) && EnvVar in env && env[EnvVar] != "" ==> r == Ok(AlertAndEventProcessingService(ServiceClient(RStripSlash(env[EnvVar]))))
    ensures !Config.OverrideGiven(baseUrl) && EnvVar !in env ==> r == Ok(AlertAndEventProcessingService(ServiceClient(DefaultUrl)))
  {
    var client :- Config.Connect(baseUrl, env, EnvVar, DefaultUrl);
    Ok(AlertAndEventProcessingService(client))
  }

  function Root(svc: AlertAndEventProcessingService): (r: Request)
    ensures r == Request(GET, svc.client.baseUrl, "/", NoOptions)
  {
    Get(svc.client, "/", NoOptions).value
  }

  function HealthCheck(svc: AlertAndEventProcessingService): (r: Request)
    ensures r == Request(GET, svc.client.baseUrl, "/health", NoOptions)
  {
    Get(svc.client, "/health", NoOptions).value
  }
}
