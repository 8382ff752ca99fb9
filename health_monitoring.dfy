/** `HealthMonitoringService`: client for the health-monitoring microservice. */
module HealthMonitoring {
  import opened Values
  import opened Transport
  import Config
  import DeviceTelemetry

  const EnvVar := "HEALTH_MONITORING_SERVICE_URL"
  const DefaultUrl := "http://health-monitoring-service:8000"

  datatype HealthMonitoringService = HealthMonitoringService(client: ServiceClient)

  /** The constructor: override, then environment variable, then default. */
  function New(baseUrl: Option<string>, env: Config.Environment): (r: Result<HealthMonitoringService>)
    ensures r.Err? <==> Config.ClearedByEnvironment(baseUrl, env, EnvVar)
    ensures r.Err? ==> r.error == ValueError(BaseUrlRequired)
    ensures Config.OverrideGiven(baseUrl) ==> r == Ok(HealthMonitoringService(ServiceClient(RStripSlash(baseUrl.value))))
    ensures !Config.OverrideGiven(baseUrl) && EnvVar in env && env[EnvVar] != "" ==> r == Ok(HealthMonitoringService(ServiceClient(RStripSlash(env[EnvVar]))))
    ensures !Config.OverrideGiven(baseUrl) && EnvVar !in env ==> r == Ok(HealthMonitoringService(ServiceClient(DefaultUrl)))
  {
    var client :- Config.Connect(baseUrl, env, EnvVar, DefaultUrl);
    Ok(HealthMonitoringService(client))
  }

  function HealthCheck(svc: HealthMonitoringService): (r: Request)
    ensures r == Request(GET, svc.client.baseUrl, "/health", NoOptions)
  {
    Get(svc.client, "/health", NoOptions).value
  }

  /** The latest health record: here the id comes BEFORE `/latest`, the
      reverse of the telemetry service's `/latest/{id}`. */
  function GetLatestHealth(svc: HealthMonitoringService, deviceId: string): (r: Request)
    ensures r == Request(GET, svc.client.baseUrl, "/" + deviceId + "/latest", NoOptions)
  {
    Get(svc.client, "/" + deviceId + "/latest", NoOptions).value
  }

  /** The two "latest" endpoints are shaped differently: against the same base
      URL they reach the same path only for ids that begin with "latest". */
  lemma LatestPathsDiffer(base: ServiceClient, deviceId: string)
    requires !(|deviceId| >= 6 && deviceId[..6] == "latest")
    ensures GetLatestHealth(HealthMonitoringService(base), deviceId).path
         != DeviceTelemetry.GetLatest(DeviceTelemetry.DeviceTelemetryService(base), deviceId).path
  {
    var health := "/" + deviceId + "/latest";
    var telemetry := "/latest/" + deviceId;
    if |deviceId| >= 6 {
      assert health[1..7] == deviceId[..6];
      assert telemetry[1..7] == "latest";
    } else {
      assert health[1 + |deviceId|] == '/';
      assert telemetry[1 + |deviceId|] == "latest/"[|deviceId|] != '/';
    }
  }

  /** The two endpoints do meet for some ids, e.g. "latest". */
  lemma LatestPathsMeet(base: ServiceClient)
    ensures GetLatestHealth(HealthMonitoringService(base), "latest").path
         == DeviceTelemetry.GetLatest(DeviceTelemetry.DeviceTelemetryService(base), "latest").path
  {
  }
}
