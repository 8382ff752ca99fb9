/** `ParkingSlotService`: client for the parking-slot microservice. Every call
    that changes a slot sends a JSON envelope holding the normalised token
    under `authorization`; the caller's data goes under `payload` for create
    and update and under `body` for assign. */
module ParkingSlot {
  import opened Values
  import opened Transport
  import Config
  import Tokens

  const EnvVar := "PARKING_SLOT_SERVICE_URL"
  const DefaultUrl := "http://parking-slot-service:8000"

  datatype ParkingSlotService = ParkingSlotService(client: ServiceClient)

  /** The constructor: override, then environment variable, then default. */
  function New(baseUrl: Option<string>, env: Config.Environment): (r: Result<ParkingSlotService>)
    ensures r.Err? <==> Config.ClearedByEnvironment(baseUrl, env, EnvVar)
    ensures r.Err? ==> r.error == ValueError(BaseUrlRequired)
    ensures Config.OverrideGiven(baseUrl) ==> r == Ok(ParkingSlotService(ServiceClient(RStripSlash(baseUrl.value))))
    ensures !Config.OverrideGiven(baseUrl) && EnvVar in env && env[EnvVar] != "" ==> r == Ok(ParkingSlotService(ServiceClient(RStripSlash(env[EnvVar]))))
    ensures !Config.OverrideGiven(baseUrl) && EnvVar !in env ==> r == Ok(ParkingSlotService(ServiceClient(DefaultUrl)))
  {
    var client :- Config.Connect(baseUrl, env, EnvVar, DefaultUrl);
    Ok(ParkingSlotService(client))
  }

  /** The `authorization` entry every mutating call sends. */
  function Authorization(token: Json): Json
    requires Tokens.Accepted(token)
  {
    JDict(Tokens.NormaliseTokenPayload(token).value)
  }

  function CreateParkingSlot(svc: ParkingSlotService, slotData: map<string, Json>, token: Json): (r: Result<Request>)
    ensures r.Err? <==> !Tokens.Accepted(token)
    ensures r.Err? ==> r.error == TypeError(Tokens.TokenTypeMessage)
    ensures r.Ok? ==> r.value == Request(POST, svc.client.baseUrl, "/parking_slots",
      Options(None, Some(JDict(map["payload" := JDict(slotData), "authorization" := Authorization(token)])), None))
  {
    var payload :- Tokens.NormaliseTokenPayload(token);
    var body := map["payload" := JDict(slotData), "authorization" := JDict(payload)];
    Ok(Post(svc.client, "/parking_slots", Options(None, Some(JDict(body)), None)))
  }

  /** Query parameters are sent only for a non-empty status. */
  function ListParkingSlots(svc: ParkingSlotService, status: Option<string>): (r: Request)
    ensures r.verb == GET && r.baseUrl == svc.client.baseUrl && r.path == "/parking_slots"
    ensures r.options.json.None? && r.options.auth.None?
    ensures r.options.params.Some? <==> status.Some? && status.value != ""
    ensures r.options.params.Some? ==> r.options.params.value == map["status" := status.value]
  {
    var params := if status.Some? && status.value != "" then Some(map["status" := status.value]) else None;
    Get(svc.client, "/parking_slots", Options(params, None, None)).value
  }

  function GetParkingSlot(svc: ParkingSlotService, slotId: string): (r: Request)
    ensures r == Request(GET, svc.client.baseUrl, "/parking_slots/" + slotId, NoOptions)
  {
    Get(svc.client, "/parking_slots/" + slotId, NoOptions).value
  }

  function UpdateParkingSlot(svc: ParkingSlotService, slotId: string, updates: map<string, Json>, token: Json): (r: Result<Request>)
    ensures r.Err? <==> !Tokens.Accepted(token)
    ensures r.Err? ==> r.error == TypeError(Tokens.TokenTypeMessage)
    ensures r.Ok? ==> r.value == Request(PUT, svc.client.baseUrl, "/parking_slots/" + slotId,
      Options(None, Some(JDict(map["payload" := JDict(updates), "authorization" := Authorization(token)])), None))
  {
    var payload :- Tokens.NormaliseTokenPayload(token);
    var body := map["payload" := JDict(updates), "authorization" := JDict(payload)];
    Ok(Put(svc.client, "/parking_slots/" + slotId, Options(None, Some(JDict(body)), None)))
  }

  /** As written: the envelope is passed as `json=` to `delete`, which takes
      no body, so once the token is accepted the call always raises. */
  function DeleteParkingSlot(svc: ParkingSlotService, slotId: string, token: Json): (r: Result<Request>)
    ensures r.Err?
    ensures !Tokens.Accepted(token) ==> r.error == TypeError(Tokens.TokenTypeMessage)
    ensures Tokens.Accepted(token) ==> r.error == UnexpectedJson("delete")
  {
    var payload :- Tokens.NormaliseTokenPayload(token);
    var body := map["authorization" := JDict(payload)];
    Delete(svc.client, "/parking_slots/" + slotId, Options(None, Some(JDict(body)), None))
  }

  /** Even with a well-formed token and slot id, no slot is ever deleted:
      for the string token "tok" the call raises instead of sending. */
  lemma DeleteParkingSlotNeverSends(svc: ParkingSlotService)
    ensures DeleteParkingSlot(svc, "A1", JStr("tok")) == Err(UnexpectedJson("delete"))
    ensures Tokens.NormaliseTokenPayload(JStr("tok")).Ok?
  {
  }

  /** The evidently intended call: a DELETE carrying the envelope as its body,
      sent through the transport's generic `request`. */
  function DeleteParkingSlotIntended(svc: ParkingSlotService, slotId: string, token: Json): (r: Result<Request>)
    ensures r.Err? <==> !Tokens.Accepted(token)
    ensures r.Err? ==> r.error == TypeError(Tokens.TokenTypeMessage)
    ensures r.Ok? ==> r.value == Request(DELETE, svc.client.baseUrl, "/parking_slots/" + slotId,
      Options(None, Some(JDict(map["authorization" := Authorization(token)])), None))
  {
    var payload :- Tokens.NormaliseTokenPayload(token);
    var body := map["authorization" := JDict(payload)];
    Ok(Send(svc.client, DELETE, "/parking_slots/" + slotId, Options(None, Some(JDict(body)), None)))
  }

  function AssignParkingSlot(svc: ParkingSlotService, slotId: string, assignment: map<string, Json>, token: Json): (r: Result<Request>)
    ensures r.Err? <==> !Tokens.Accepted(token)
    ensures r.Err? ==> r.error == TypeError(Tokens.TokenTypeMessage)
    ensures r.Ok? ==> r.value == Request(POST, svc.client.baseUrl, "/parking_slots/" + slotId + "/assign",
      Options(None, Some(JDict(map["body" := JDict(assignment), "authorization" := Authorization(token)])), None))
  {
    var payload :- Tokens.NormaliseTokenPayload(token);
    var body := map["body" := JDict(assignment), "authorization" := JDict(payload)];
    Ok(Post(svc.client, "/parking_slots/" + slotId + "/assign", Options(None, Some(JDict(body)), None)))
  }

  function ReleaseParkingSlot(svc: ParkingSlotService, slotId: string, token: Json): (r: Result<Request>)
    ensures r.Err? <==> !Tokens.Accepted(token)
    ensures r.Err? ==> r.error == TypeError(Tokens.TokenTypeMessage)
    ensures r.Ok? ==> r.value == Request(POST, svc.client.baseUrl, "/parking_slots/" + slotId + "/release",
      Options(None, Some(JDict(map["authorization" := Authorization(token)])), None))
  {
    var payload :- Tokens.NormaliseTokenPayload(token);
    var body := map["authorization" := JDict(payload)];
    Ok(Post(svc.client, "/parking_slots/" + slotId + "/release", Options(None, Some(JDict(body)), None)))
  }

  /** The body of a sent request, when it is a JSON object. */
  function BodyFields(r: Request): map<string, Json>
    requires r.options.json.Some? && r.options.json.value.JDict?
  {
    r.options.json.value.fields
  }

  /** Every mutating call that is sent carries the normalised token under
      `authorization`, next to exactly the keys its envelope names. */
  lemma EnvelopesCarryAuthorization(svc: ParkingSlotService, slotId: string, data: map<string, Json>, token: Json)
    requires Tokens.Accepted(token)
    ensures var r := CreateParkingSlot(svc, data, token).value;
      r.options.json.Some? && r.options.json.value.JDict?
      && BodyFields(r).Keys == {"payload", "authorization"} && BodyFields(r)["authorization"] == Authorization(token)
    ensures var r := UpdateParkingSlot(svc, slotId, data, token).value;
      r.options.json.Some? && r.options.json.value.JDict?
      && BodyFields(r).Keys == {"payload", "authorization"} && BodyFields(r)["authorization"] == Authorization(token)
    ensures var r := AssignParkingSlot(svc, slotId, data, token).value;
      r.options.json.Some? && r.options.json.value.JDict?
      && BodyFields(r).Keys == {"body", "authorization"} && BodyFields(r)["authorization"] == Authorization(token)
    ensures var r := DeleteParkingSlotIntended(svc, slotId, token).value;
      r.options.json.Some? && r.options.json.value.JDict?
      && BodyFields(r).Keys == {"authorization"} && BodyFields(r)["authorization"] == Authorization(token)
    ensures var r := ReleaseParkingSlot(svc, slotId, token).value;
      r.options.json.Some? && r.options.json.value.JDict?
      && BodyFields(r).Keys == {"authorization"} && BodyFields(r)["authorization"] == Authorization(token)
  {
  }

  /** `ParkingSlotService(base_url="http://x")` targets "http://x" whatever the
      environment holds. */
  lemma NewExample(env: Config.Environment)
    ensures New(Some("http://x"), env) == Ok(ParkingSlotService(ServiceClient("http://x")))
  {
  }

  /** Creating slot {"spot": "A1"} with token "tok123" against "http://x"
      posts to http://x/parking_slots the body
      {"payload": {"spot": "A1"}, "authorization": {"token": "tok123"}}. */
  lemma CreateExample()
    ensures var r := CreateParkingSlot(ParkingSlotService(ServiceClient("http://x")), map["spot" := JStr("A1")], JStr("tok123"));
      r.Ok? && r.value.verb == POST && Url(r.value) == "http://x/parking_slots"
      && r.value.options.json == Some(JDict(map["payload" := JDict(map["spot" := JStr("A1")]),
                                                "authorization" := JDict(map["token" := JStr("tok123")])]))
  {
  }
}
