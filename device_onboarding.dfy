/** `DeviceOnboardingService`: client for the device-onboarding microservice. */
module DeviceOnboarding {
  import opened Values
  import opened Transport
  import opened Format
  import Config

  const EnvVar := "DEVICE_ONBOARDING_SERVICE_URL"
  const DefaultUrl := "http://device-onboarding-service:8000"

  datatype DeviceOnboardingService = DeviceOnboardingService(client: ServiceClient)

  /** The constructor: override, then environment variable, then default. */
  function New(baseUrl: Option<string>, env: Config.Environment): (r: Result<DeviceOnboardingService>)
    ensures r.Err? <==> Config.ClearedByEnvironment(baseUrl, env, EnvVar)
    ensures r.Err? ==> r.error == ValueError(BaseUrlRequired)
    ensures Config.OverrideGiven(baseUrl) ==> r == Ok(DeviceOnboardingService(ServiceClient(RStripSlash(baseUrl.value))))
    ensures !Config.OverrideGiven(baseUrl) && EnvVar in env && env[EnvVar] != "" ==> r == Ok(DeviceOnboardingService(ServiceClient(RStripSlash(env[EnvVar]))))
    ensures !Config.OverrideGiven(baseUrl) && EnvVar !in env ==> r == Ok(DeviceOnboardingService(ServiceClient(DefaultUrl)))
  {
    var client :- Config.Connect(baseUrl, env, EnvVar, DefaultUrl);
    Ok(DeviceOnboardingService(client))
  }

  function HealthCheck(svc: DeviceOnboardingService): (r: Request)
    ensures r == Request(GET, svc.client.baseUrl, "/health", NoOptions)
  {
    Get(svc.client, "/health", NoOptions).value
  }

  function AddNewDevice(svc: DeviceOnboardingService, deviceData: map<string, Json>): (r: Request)
    ensures r == Request(POST, svc.client.baseUrl, "/add_new_device", Options(None, Some(JDict(deviceData)), None))
  {
    Post(svc.client, "/add_new_device", Options(None, Some(JDict(deviceData)), None))
  }

  /** The user id, an int or a string, is rendered into the path; an int id
      can be read back from it, and one too long to convert raises. */
  function GetMyDevices(svc: DeviceOnboardingService, userId: PathId): (r: Result<Request>)
    ensures r.Err? <==> Render(userId).Err?
    ensures r.Err? ==> r.error == ValueError(MaxStrDigitsMessage)
    ensures r.Ok? ==> r.value.verb == GET && r.value.baseUrl == svc.client.baseUrl && r.value.options == NoOptions
    ensures r.Ok? ==> |r.value.path| >= |"/get_my_devices/"| && r.value.path[..|"/get_my_devices/"|] == "/get_my_devices/"
    ensures r.Ok? ==> r.value.path == "/get_my_devices/" + Render(userId).value
    ensures userId.StrId? ==> r.Ok? && r.value.path[|"/get_my_devices/"|..] == userId.s
    ensures r.Ok? && userId.IntId? ==>
      IsIntText(r.value.path[|"/get_my_devices/"|..]) && ParseInt(r.value.path[|"/get_my_devices/"|..]) == userId.n
  {
    var segment :- Render(userId);
    assert ("/get_my_devices/" + segment)[|"/get_my_devices/"|..] == segment;
    Get(svc.client, "/get_my_devices/" + segment, NoOptions)
  }

  function GetUserIdByDeviceId(svc: DeviceOnboardingService, deviceId: string): (r: Request)
    ensures r == Request(GET, svc.client.baseUrl, "/get_user_id_by_device_id/" + deviceId, NoOptions)
  {
    Get(svc.client, "/get_user_id_by_device_id/" + deviceId, NoOptions).value
  }
}
