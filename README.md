# internal-services request layer, modelled in Dafny

This project models `utility.py`, the shared HTTP client library that the
internal microservices use to call each other. The module has two layers:

- `ServiceClient`, the transport wrapper. Its constructor validates the base
  URL and strips its trailing slashes. `_normalise` gives every endpoint a
  leading slash. `get`/`post`/`put`/`delete` forward a call to httpx.
- Nine service facades: AdminManagement, AlertAndEventProcessing,
  DeviceCommand, DeviceOnboarding, DeviceTelemetry, HealthMonitoring,
  NotificationMicroservice, ParkingSlot and UserAuthentication. Each facade
  resolves its base URL from an override, an environment variable or a
  default, and maps each of its methods to one remote endpoint.

Nothing is sent in the model. Each call yields a `Transport.Request` value:
the verb, the stored base URL, the normalised path and the forwarded options
(query parameters, JSON body, authentication). An operation that raises
before sending yields `Err` with the exception's class and message. The
environment is passed in as a `map<string, string>`.

Python values are `Values.Json`: `None`, bool, int, str, list and dict.
Python's truth test is written out in `Values.Truthy`. A token argument is a
`Json`. A `str` is `JStr`, a `dict` is `JDict`, and every other variant is
"anything else". What `login_user` can observe of its argument is a
`UserAuthentication.Credentials` record. The record says whether the
argument is an httpx `Auth` object, which attributes it has, and what it
holds when it is a dict. This keeps the order of the source's three tests
visible. An int id in an f-string path is rendered as `str(n)`
(`Format.IntToDecimal`), which raises `ValueError` beyond Python's default
4300-digit limit.

The model raises the same exception classes as the code, with the code's
messages: `ValueError` for an empty base URL and for a dict login missing a
field, `TypeError` for a malformed token and for an unsupported credential
type.

Files: `values.dfy`, `transport.dfy`, `tokens.dfy`, `config.dfy`,
`format.dfy`, and one file per facade.

## Model

| member | source | states |
|---|---|---|
| Transport.RStripSlash | utility.py:18 | `rstrip("/")` gives a prefix of the input that does not end in `/`, and everything it removed is slashes |
| Transport.RStripSlashUnique | utility.py:18 | those three properties determine the stripped string: any prefix that has them is the result |
| Transport.RStripSlashIdempotent | utility.py:18 | stripping twice is the same as stripping once |
| Transport.RStripSlashEmptyIff | utility.py:16-18 | the stripped URL is empty exactly when the input is made only of slashes |
| Transport.NewServiceClient | utility.py:15-20 | an empty base URL raises `ValueError("base_url is required")` and no client exists; otherwise the stored URL is the input minus its trailing slashes and never ends in `/` |
| Transport.AllSlashBaseUrlStoredEmpty | utility.py:16-18 | an all-slash URL such as `"///"` passes the emptiness check and is stored as `""` |
| Transport.Normalise | utility.py:22-24 | the path always starts with `/`; it equals the endpoint exactly when the endpoint already starts with `/`; otherwise it is `/` + endpoint |
| Transport.NormaliseIdempotent | utility.py:22-24 | normalising twice is the same as normalising once |
| Transport.NormaliseIgnoresLeadingSlash | utility.py:22-24 | `"health"` and `"/health"` normalise to the same `"/health"` |
| Transport.Send | utility.py:26-44 | a verb call keeps the verb, base URL and options unchanged; it only adds a missing leading slash to the path, so the URL is base + endpoint for an endpoint that starts with `/` |
| Transport.Get | utility.py:26-29 | `get` raises `TypeError` exactly when a `json` body is passed, since httpx's `get` takes none; otherwise it issues GET with the base URL and options unchanged and the path equal to the endpoint exactly when that starts with `/`, else `/` + endpoint |
| Transport.Post | utility.py:31-34 | `post` issues POST with the base URL and options unchanged and the path equal to the endpoint exactly when that starts with `/`, else `/` + endpoint |
| Transport.Put | utility.py:36-39 | `put` issues PUT with the base URL and options unchanged and the path equal to the endpoint exactly when that starts with `/`, else `/` + endpoint |
| Transport.Delete | utility.py:41-44 | `delete` raises `TypeError` exactly when a `json` body is passed, since httpx's `delete` takes none; otherwise it issues DELETE with the base URL and options unchanged and the path equal to the endpoint exactly when that starts with `/`, else `/` + endpoint |
| Tokens.NormaliseTokenPayload | utility.py:50-57 | fails with `TypeError` exactly for inputs that are neither str nor dict; an input that carries a token becomes `{"token": t}` and nothing else; a dict without `token` is returned unchanged |
| Tokens.NormaliseString | utility.py:51-52 | a string `s` becomes exactly `{"token": s}` |
| Tokens.NormaliseDictWithToken | utility.py:53-55 | a dict with `token` becomes `{"token": d["token"]}`; all other keys are dropped |
| Tokens.NormaliseDictWithoutToken | utility.py:53-56 | a dict without `token` is returned unchanged |
| Tokens.NormalisedHasTokenIff | utility.py:50-57 | the result holds `token` exactly when the input carried one, and then that is its only key |
| Tokens.NormaliseIdempotent | utility.py:50-57 | normalising a result again returns it unchanged |
| Config.GetEnv | utility.py:64-67 | `os.getenv(name, default)` gives the variable's value whenever it is set, even `""`, and the default only when it is unset |
| Config.ResolveServiceUrl | utility.py:64-67 | a non-empty override wins; otherwise the environment variable if set; otherwise the default |
| Config.Connect | utility.py:63-68 | with a non-empty default, construction fails with `ValueError` exactly when there is no usable override and the variable is set to `""`; an override is stored stripped; else a non-empty variable is stored stripped; with neither override nor variable the default is stored |
| Config.EmptyOverrideIgnored | utility.py:64 | `base_url=""` behaves exactly like `base_url=None` |
| Format.NatToDecimal | utility.py:159-160 | `str(n)` of a natural number is non-empty, all digits, and has no leading zero unless it is `"0"` |
| Format.DecimalRoundTrip | utility.py:159-160 | reading back the digits of `n` gives `n` |
| Format.IntToDecimal | utility.py:336-337 | `str(n)` of an int in canonical form: digits, after a `-` exactly when `n` is negative, no leading zero and no `-0` (`"0"` is the only text starting with `0`) |
| Format.IntRoundTrip | utility.py:336-337 | parsing `str(n)` gives back `n` for every int |
| Format.IntToDecimalInjective | utility.py:336-337 | two different ints never render to the same text |
| Format.Render | utility.py:336-337 | a str id is inserted unchanged; an int id raises `ValueError` exactly when it has more than 4300 digits, and is otherwise inserted as exactly `str(n)`, from which it can be read back |
| Format.DigitCountBound | utility.py:336-337 | a natural number has at most `k` decimal digits exactly when it is below `10^k` |
| Format.RenderIntIff | utility.py:336-337 | an int id renders exactly when its magnitude is below `10^4300` |
| AdminManagement.New | utility.py:63-68 | raises `ValueError("base_url is required")` exactly when `ADMIN_MANAGEMENT_SERVICE_URL` is set to `""` with no override; an override wins; otherwise the variable, stripped, when set and non-empty; otherwise the default `http://admin-management-service:8000` |
| AdminManagement.RegisterAdmin | utility.py:70-71 | POST `/register_admin` with the admin data as the JSON body |
| AdminManagement.GetAllNonStaff | utility.py:73-75 | a bad token raises `TypeError` and nothing is sent; otherwise POST `/get_all_non_staff` with the normalised token as the body |
| AdminManagement.ChangeAccountStatus | utility.py:77-88 | a bad token raises `TypeError`; otherwise POST `/change_account_status` with params `user_email` and `new_status` and the normalised token as the body |
| AdminManagement.HealthCheck | utility.py:90-91 | GET `/health` with no options |
| AlertEventProcessing.New | utility.py:100-105 | same chain (override, else non-empty variable, else default; raises `ValueError("base_url is required")` exactly on a variable set to `""`), with `ALERT_EVENT_PROCESSING_SERVICE_URL` and `http://alert-event-processing-service:8000` |
| AlertEventProcessing.Root | utility.py:107-108 | GET `/` with no options |
| AlertEventProcessing.HealthCheck | utility.py:110-111 | GET `/health` with no options |
| DeviceCommand.New | utility.py:120-125 | same chain (override, else non-empty variable, else default; raises `ValueError("base_url is required")` exactly on a variable set to `""`), with `DEVICE_COMMAND_SERVICE_URL` and `http://device-command-service:8000` |
| DeviceCommand.HealthCheck | utility.py:127-128 | GET `/health` with no options |
| DeviceCommand.AddCommand | utility.py:130-131 | POST `/add_command` with the command data as the body |
| DeviceCommand.GetCommands | utility.py:133-134 | GET `/commands/{id}` |
| DeviceCommand.DeleteCommands | utility.py:136-137 | DELETE `/commands/delete/{id}` |
| DeviceCommand.CommandsSeparateDevices | utility.py:133-137 | two different device ids never give the same GET or the same DELETE request as handed to the transport |
| DeviceOnboarding.New | utility.py:146-151 | same chain (override, else non-empty variable, else default; raises `ValueError("base_url is required")` exactly on a variable set to `""`), with `DEVICE_ONBOARDING_SERVICE_URL` and `http://device-onboarding-service:8000` |
| DeviceOnboarding.HealthCheck | utility.py:153-154 | GET `/health` with no options |
| DeviceOnboarding.AddNewDevice | utility.py:156-157 | POST `/add_new_device` with the device data as the body |
| DeviceOnboarding.GetMyDevices | utility.py:159-160 | GET `/get_my_devices/` followed by exactly the rendered user id: a str id unchanged and never failing, an int id as `str(n)`; an int id beyond the digit limit raises `ValueError` and nothing is sent |
| DeviceOnboarding.GetUserIdByDeviceId | utility.py:162-163 | GET `/get_user_id_by_device_id/{id}` |
| DeviceTelemetry.New | utility.py:172-177 | same chain (override, else non-empty variable, else default; raises `ValueError("base_url is required")` exactly on a variable set to `""`), with `DEVICE_TELEMETRY_SERVICE_URL` and `http://device-telemetry-service:8000` |
| DeviceTelemetry.HealthCheck | utility.py:179-180 | GET `/health` with no options |
| DeviceTelemetry.GetLatest | utility.py:182-183 | GET `/latest/{id}` |
| DeviceTelemetry.GetDeviceStatus | utility.py:185-186 | GET `/device/status/{id}` |
| HealthMonitoring.New | utility.py:195-200 | same chain (override, else non-empty variable, else default; raises `ValueError("base_url is required")` exactly on a variable set to `""`), with `HEALTH_MONITORING_SERVICE_URL` and `http://health-monitoring-service:8000` |
| HealthMonitoring.HealthCheck | utility.py:202-203 | GET `/health` with no options |
| HealthMonitoring.GetLatestHealth | utility.py:205-206 | GET `/{id}/latest` |
| HealthMonitoring.LatestPathsDiffer | utility.py:205-206 | against one base URL, `/{id}/latest` and the telemetry service's `/latest/{id}` differ for every id that does not begin with `latest` |
| HealthMonitoring.LatestPathsMeet | utility.py:205-206 | the two paths do coincide for some ids, e.g. `latest` |
| Notification.New | utility.py:215-220 | same chain (override, else non-empty variable, else default; raises `ValueError("base_url is required")` exactly on a variable set to `""`), with `NOTIFICATION_SERVICE_URL` and `http://notification-service:8000` |
| Notification.Root | utility.py:222-223 | GET `/` with no options |
| Notification.HealthCheck | utility.py:225-226 | GET `/health` with no options |
| ParkingSlot.New | utility.py:235-240 | same chain (override, else non-empty variable, else default; raises `ValueError("base_url is required")` exactly on a variable set to `""`), with `PARKING_SLOT_SERVICE_URL` and `http://parking-slot-service:8000` |
| ParkingSlot.CreateParkingSlot | utility.py:242-249 | a bad token raises `TypeError`; otherwise POST `/parking_slots` with body `{"payload": data, "authorization": normalised token}` |
| ParkingSlot.ListParkingSlots | utility.py:251-253 | GET `/parking_slots`; params `{"status": s}` are sent exactly when the status is a non-empty string |
| ParkingSlot.GetParkingSlot | utility.py:255-256 | GET `/parking_slots/{id}` |
| ParkingSlot.UpdateParkingSlot | utility.py:258-266 | a bad token raises `TypeError`; otherwise PUT `/parking_slots/{id}` with body `{"payload": updates, "authorization": normalised token}` |
| ParkingSlot.DeleteParkingSlot | utility.py:268-275 | as written the call never sends: a bad token raises `TypeError` from the token check, any other token raises `TypeError` because `delete` takes no `json` body |
| ParkingSlot.DeleteParkingSlotNeverSends | utility.py:268-275 | slot `A1` with the valid token `"tok"` raises instead of sending a DELETE |
| ParkingSlot.DeleteParkingSlotIntended | utility.py:268-275 | the intended call: a bad token raises `TypeError`; otherwise DELETE `/parking_slots/{id}` with body `{"authorization": normalised token}` |
| ParkingSlot.AssignParkingSlot | utility.py:277-285 | a bad token raises `TypeError`; otherwise POST `/parking_slots/{id}/assign` with body `{"body": assignment, "authorization": normalised token}` |
| ParkingSlot.ReleaseParkingSlot | utility.py:287-294 | a bad token raises `TypeError`; otherwise POST `/parking_slots/{id}/release` with body `{"authorization": normalised token}` |
| ParkingSlot.EnvelopesCarryAuthorization | utility.py:242-294 | every mutating call that is sent (delete in its intended form) has the normalised token under `authorization` and exactly the envelope keys its method names (`payload`, `body` or none) |
| ParkingSlot.NewExample | utility.py:235-240 | `ParkingSlotService(base_url="http://x")` targets `http://x` whatever the environment holds |
| ParkingSlot.CreateExample | utility.py:242-249 | against `http://x`, creating `{"spot": "A1"}` with token `"tok123"` posts to `http://x/parking_slots` with `{"payload": {"spot": "A1"}, "authorization": {"token": "tok123"}}` |
| UserAuthentication.New | utility.py:303-308 | same chain (override, else non-empty variable, else default; raises `ValueError("base_url is required")` exactly on a variable set to `""`), with `USER_AUTH_SERVICE_URL` and `http://user-auth-service:8000` |
| UserAuthentication.HealthCheck | utility.py:310-311 | GET `/health` with no options |
| UserAuthentication.RegisterUser | utility.py:313-314 | POST `/register` with the user data as the body |
| Values.DictGet | utility.py:323-324 | `d.get(key)` is the stored value when present, and `None`, which is falsy under `Values.Truthy`, when absent |
| UserAuthentication.LoginName | utility.py:323 | `email` if truthy, else `username` (or `None`) |
| UserAuthentication.MakeBasicAuth | utility.py:321 | `httpx.BasicAuth(u, p)` succeeds exactly when both parts are strings, holding them, and raises `TypeError` otherwise |
| UserAuthentication.ResolveCredentials | utility.py:317-329 | the checks run in order. An auth object passes through. An object with `username` and `password` attributes becomes that pair when both are strings, else `TypeError`. A dict raises `ValueError` when email-or-username or password is falsy; otherwise it becomes that pair when both are strings, else `TypeError`. Anything else raises `TypeError` |
| UserAuthentication.LoginUser | utility.py:316-330 | fails exactly when credential resolution fails, with that error and no request; otherwise POST `/login` with the resolved auth and no params or body |
| UserAuthentication.DictLoginIsWellFormed | utility.py:322-327 | a pair built from a dict has a non-empty string name and password, and uses the e-mail whenever it is truthy |
| UserAuthentication.MissingPasswordRefused | utility.py:322-326 | a dict without a truthy password raises `ValueError` and sends nothing |
| UserAuthentication.AuthObjectTakesPrecedence | utility.py:318-319 | an auth object passes through unchanged whatever attributes or dict contents it also has |
| UserAuthentication.LoginExample | utility.py:316-330 | `{"email": "a@b.com", "password": "p"}` posts to `/login` with the pair (`a@b.com`, `p`) and no body |
| UserAuthentication.ValidateToken | utility.py:332-334 | a bad token raises `TypeError`; otherwise POST `/validate` with the normalised token as the body |
| UserAuthentication.GetUser | utility.py:336-337 | GET `/user/` followed by the rendered user id; an int id beyond the digit limit raises `ValueError` and nothing is sent |
| UserAuthentication.GetUserSeparatesIds | utility.py:336-337 | two different int user ids that both render give different requests as handed to the transport |
| UserAuthentication.MakeAdmin | utility.py:339-340 | POST `/user/{id}/make_admin` with no body; an int id beyond the digit limit raises `ValueError` |
| UserAuthentication.GetAllNonStaff | utility.py:342-344 | a bad token raises `TypeError`; otherwise POST `/users/non_staff` with the normalised token as the body |
| UserAuthentication.ChangeAccountStatus | utility.py:346-357 | a bad token raises `TypeError`; otherwise POST `/change_account_status` with params `target_user_email` and `new_status` and the normalised token as the body |

## Findings

| source | as written | input that shows it | evidently intended | confidence | as-written member | corrected member |
|---|---|---|---|---|---|---|
| utility.py:275 | `delete_parking_slot` passes its envelope as `json=` to `delete`, whose httpx signature has no `json` parameter, so every call with a valid token raises `TypeError` and no slot is ever deleted | `delete_parking_slot("A1", "tok")` | a DELETE to `/parking_slots/{id}` carrying `{"authorization": normalised token}` as its body, e.g. via `request("DELETE", ..., json=body)` | not executed; follows from httpx's published `AsyncClient.delete` signature | ParkingSlot.DeleteParkingSlotNeverSends | ParkingSlot.DeleteParkingSlotIntended |

## Left out

- Sending itself is not modelled: the httpx `AsyncClient`, the GET/POST/PUT/DELETE dispatch and the response objects. These are a foreign library and network I/O. Each operation stops at the `Request` value it would send.
- `close()` and `aclose()` on the client and on every facade release the httpx connection, which is not modelled. The source does not say whether closing twice is safe.
- `async`/`await` is not modelled. It only schedules the network wait and does not affect what is sent.
- `logger.info` calls are not modelled; they only log.
- The `timeout` argument is not modelled. It is a float that is only forwarded to httpx.
- `os.getenv` is replaced by an environment map passed in as an argument.
- The Base64 encoding of the basic-auth header (section 2 of RFC 7617) is done inside httpx. The model stops at the (username, password) pair.
- Transport.Send: the full URL is taken as base URL + path, the way the log line prints it. httpx's own URL merging, which also removes dot segments (so the ids `x` and `./x` reach the same URL), is not part of this model.
- Transport.NewServiceClient: httpx's URL parsing when the `AsyncClient` is built is not modelled, so a malformed URL such as `http://svc:abc`, which makes httpx raise `InvalidURL`, is accepted here.
- The insertion order of Python dicts is not modelled: JSON bodies and query parameters are `map`s, which have no order, so the order of keys on the wire (for example `payload` before `authorization`, `user_email` before `new_status`) is not captured.
- Format.Render: a Python `bool` id (an `int` subclass, rendered `True`/`False`) and float ids are not modelled.
- Values.Json has no float and no non-JSON objects. Any such value given as a token takes the same `TypeError` path as the other non-str, non-dict variants.
- UserAuthentication.MakeBasicAuth: httpx also accepts `bytes` for the username and password, which `Values.Json` does not have, and its `TypeError` message text is not reproduced; the model's message is its own.
- Format.Render: the 4300-digit limit is CPython's default since 3.11 (and recent 3.7-3.10 patch releases); a process that changes it with `sys.set_int_max_str_digits()` is not modelled.
- `internal_services/__init__.py` and `__init__.py` only re-export names and set a version string, so they are not part of this model.
