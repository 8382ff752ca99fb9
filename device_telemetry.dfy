/** `DeviceTelemetryService`: client for the device-telemetry microservice. */
module DeviceTelemetry {
  import opened Values
  import opened Transport
  import Config

  const EnvVar := "DEVICE_TELEMETRY_SERVICE_URL"
  const DefaultUrl := "http://device-telemetry-service:8000"

  datatype DeviceTelemetryService = DeviceTelemetryService(client: ServiceClient)

  /** The constructor: override, then environment variable, then default. */
  function New(baseUrl: Option<string>, env: Config.Environment): (r: Result<DeviceTelemetryService>)
    ensures r.Err? <==> Config.ClearedByEnvironment(baseUrl, env, EnvVar)
    ensures r.Err? ==> r.error == ValueError(BaseUrlRequired)
    ensures Config.OverrideGiven(baseUrl) ==> r == Ok(DeviceTelemetryService(ServiceClient(RStripSlash(baseUrl.value))))
    ensures !Config.OverrideGiven(baseUrl) && EnvVar in env && env[EnvVar] != "" ==> r == Ok(DeviceTelemetryService(ServiceClient(RStripSlash(env[EnvVar]))))
    ensures !Config.OverrideGiven(baseUrl) && EnvVar !in env ==> r == Ok(DeviceTelemetryService(ServiceClient(DefaultUrl)))
  {
    var client :- Config.Connect(baseUrl, env, EnvVar, DefaultUrl);
    Ok(DeviceTelemetryService(client))
  }

  function HealthCheck(svc: DeviceTelemetryService): (r: Request)
    ensures r == Request(GET, svc.client.baseUrl, "/health", NoOptions)
  {
    Get(svc.client, "/health", NoOptions).value
  }

  /** The latest reading: the id comes after `/latest/`. */
  function GetLatest(svc: DeviceTelemetryService, deviceId: string): (r: Request)
    ensures r == Request(GET, svc.client.baseUrl, "/latest/" + deviceId, NoOptions)
  {
    Get(svc.client, "/latest/" + deviceId, NoOptions).value
  }

  function GetDeviceStatus(svc: DeviceTelemetryService, deviceId: string): (r: Request)
    ensures r == Request(GET, svc.client.baseUrl, "/device/status/" + deviceId, NoOptions)
  {
    Get(svc.client, "/device/status/" + deviceId, NoOptions).value
  }
}
