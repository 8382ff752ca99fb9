/** `DeviceCommandService`: client for the device-command microservice. */
module DeviceCommand {
  import opened Values
  import opened Transport
  import Config

  const EnvVar := "DEVICE_COMMAND_SERVICE_URL"
  const DefaultUrl := "http://device-command-service:8000"

  datatype DeviceCommandService = DeviceCommandService(client: ServiceClient)

  /** The constructor: override, then environment variable, then default. */
  function New(baseUrl: Option<string>, env: Config.Environment): (r: Result<DeviceCommandService>)
    ensures r.Err? <==> Config.ClearedByEnvironment(baseUrl, env, EnvVar)
    ensures r.Err? ==> r.error == ValueError(BaseUrlRequired)
    ensures Config.OverrideGiven(baseUrl) ==> r == Ok(DeviceCommandService(ServiceClient(RStripSlash(baseUrl.value))))
    ensures !Config.OverrideGiven(baseUrl) && EnvVar in env && env[EnvVar] != "" ==> r == Ok(DeviceCommandService(ServiceClient(RStripSlash(env[EnvVar]))))
    ensures !Config.OverrideGiven(baseUrl) && EnvVar !in env ==> r == Ok(DeviceCommandService(ServiceClient(DefaultUrl)))
  {
    var client :- Config.Connect(baseUrl, env, EnvVar, DefaultUrl);
    Ok(DeviceCommandService(client))
  }

  function HealthCheck(svc: DeviceCommandService): (r: Request)
    ensures r == Request(GET, svc.client.baseUrl, "/health", NoOptions)
  {
    Get(svc.client, "/health", NoOptions).value
  }

  function AddCommand(svc: DeviceCommandService, commandData: map<string, Json>): (r: Request)
    ensures r == Request(POST, svc.client.baseUrl, "/add_command", Options(None, Some(JDict(commandData)), None))
  {
    Post(svc.client, "/add_command", Options(None, Some(JDict(commandData)), None))
  }

  function GetCommands(svc: DeviceCommandService, deviceId: string): (r: Request)
    ensures r == Request(GET, svc.client.baseUrl, "/commands/" + deviceId, NoOptions)
  {
    Get(svc.client, "/commands/" + deviceId, NoOptions).value
  }

  function DeleteCommands(svc: DeviceCommandService, deviceId: string): (r: Request)
    ensures r == Request(DELETE, svc.client.baseUrl, "/commands/delete/" + deviceId, NoOptions)
  {
    Delete(svc.client, "/commands/delete/" + deviceId, NoOptions).value
  }

  /** Two different devices never share the request handed to the transport:
      the device id is the whole path after its fixed prefix. */
  lemma CommandsSeparateDevices(svc: DeviceCommandService, d1: string, d2: string)
    requires d1 != d2
    ensures GetCommands(svc, d1) != GetCommands(svc, d2)
    ensures DeleteCommands(svc, d1) != DeleteCommands(svc, d2)
  {
    assert GetCommands(svc, d1).path[|"/commands/"|..] == d1;
    assert GetCommands(svc, d2).path[|"/commands/"|..] == d2;
    assert DeleteCommands(svc, d1).path[|"/commands/delete/"|..] == d1;
    assert DeleteCommands(svc, d2).path[|"/commands/delete/"|..] == d2;
  }
}
