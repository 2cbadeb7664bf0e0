/** The service layer of the front end: the generic API call with its error-registry discipline, the
    fixed endpoint of every service call, the device list with its development fallback, and the
    notification service. Every operation is a method over a `Runtime` proved against a pure
    specification of the effects it performs. */
module ApiService {
  import opened Common
  import opened Strings
  import opened AppContext
  import opened WebAuthnWire
  import opened Effects

  // ---------------------------------------------------------------------------------------------
  // makeApiCall

  /** The `options` argument of the generic call: `method`, `headers` and `body`. */
  datatype ApiOptions = ApiOptions(verb: Option<Method>, headers: Option<map<string, string>>, body: RequestBody)

  /** The headers sent: `Content-Type: application/json` overridden by whatever the caller gives,
      followed by the branch that re-assigns a truthy `Authorization` other than `'Bearer null'`.
      That branch writes back the value the spread already copied, so the result is exactly the
      spread: every given header, `'Bearer null'` included, is sent as given. */
  function MergeHeaders(given: Option<map<string, string>>): (h: map<string, string>)
    ensures h == map["Content-Type" := "application/json"] + given.GetOr(map[])
    ensures given.Some? ==> forall k :: k in given.value ==> k in h && h[k] == given.value[k]
    ensures "Content-Type" in h
    ensures (given.None? || "Content-Type" !in given.value) ==> h["Content-Type"] == "application/json"
    ensures forall k :: k in h ==> k == "Content-Type" || (given.Some? && k in given.value)
  {
    var spread := map["Content-Type" := "application/json"] + given.GetOr(map[]);
    if given.Some? && "Authorization" in given.value && given.value["Authorization"] != ""
       && given.value["Authorization"] != "Bearer null"
    then spread["Authorization" := given.value["Authorization"]]
    else spread
  }

  /** The message of the error raised for a non-2xx response. */
  function ErrorMessageOf<T>(status: nat, body: ResponseBody<T>): (m: string)
    ensures m != ""
    ensures body.Unparsable? ==> m == "Unknown error"
    ensures body.Parsed? && Truthy(body.message) ==> m == body.message.value
    ensures body.Parsed? && !Truthy(body.message) ==> m == "HTTP " + Decimal(status)
  {
    match body
    case Unparsable(_) => "Unknown error"
    case Parsed(message, _) => if Truthy(message) then message.value else "HTTP " + Decimal(status)
  }

  /** `response.ok`. */
  predicate IsOk(status: nat) {
    200 <= status <= 299
  }

  /** How the `try` block of the generic call ends after `fetch`: with the events it performed
      and the data, or with the error it raised. */
  datatype Attempt<T> = Succeeded(events: seq<Event>, value: T) | Raised(error: JsError)

  function TryBlock<T>(hasDispatch: bool, errorKey: Option<string>, outcome: HttpOutcome<T>): Attempt<T> {
    match outcome
    case Rejected(e) => Raised(e)
    case Responded(status, body) =>
      if !IsOk(status) then Raised(JsError("Error", ErrorMessageOf(status, body)))
      else if body.Unparsable? then Raised(JsError("SyntaxError", body.parseError))
      else if !Truthy(errorKey) then Succeeded([], body.value)
      else if hasDispatch then Succeeded([Dispatched(ClearApiError(errorKey.value))], body.value)
      else Raised(JsError("TypeError", "dispatch is not a function"))
  }

  /** The effects and the settlement of `makeApiCall(url, options, dispatch, errorKey)`, the API
      base being `base` and `fetch` behaving as `outcome`. */
  function ApiCallSpec<T>(base: string, url: string, opts: ApiOptions, hasDispatch: bool,
                          errorKey: Option<string>, outcome: HttpOutcome<T>): Outcome<T>
  {
    var fetched := [Fetched(Request(opts.verb.GetOr(GET), base + url, MergeHeaders(opts.headers), opts.body))];
    match TryBlock(hasDispatch, errorKey, outcome)
    case Succeeded(evs, v) => Outcome(fetched + evs, Ok(v))
    case Raised(e) =>
      var recorded := if Truthy(errorKey) && hasDispatch then [Dispatched(SetApiError(errorKey.value, e.message))] else [];
      Outcome(fetched + recorded, Thrown(e))
  }

  method MakeApiCall<T>(rt: Runtime, url: string, opts: ApiOptions, hasDispatch: bool,
                        errorKey: Option<string>, outcome: HttpOutcome<T>) returns (r: Result<T>)
    modifies rt
    ensures rt.trace == old(rt.trace) + ApiCallSpec(rt.apiBase, url, opts, hasDispatch, errorKey, outcome).events
    ensures r == ApiCallSpec(rt.apiBase, url, opts, hasDispatch, errorKey, outcome).result
  {
    rt.Fetch(Request(opts.verb.GetOr(GET), rt.apiBase + url, MergeHeaders(opts.headers), opts.body));
    var error: JsError;
    match outcome {
      case Rejected(e) =>
        error := e;
      case Responded(status, body) =>
        if !IsOk(status) {
          error := JsError("Error", ErrorMessageOf(status, body));
        } else if body.Unparsable? {
          error := JsError("SyntaxError", body.parseError);
        } else if !Truthy(errorKey) {
          return Ok(body.value);
        } else if hasDispatch {
          rt.Dispatch(ClearApiError(errorKey.value));
          return Ok(body.value);
        } else {
          error := JsError("TypeError", "dispatch is not a function");
        }
    }
    if Truthy(errorKey) && hasDispatch {
      rt.Dispatch(SetApiError(errorKey.value, error.message));
    }
    r := Thrown(error);
  }

  /** Exactly one request is made, first, to `base + url` with the merged headers; a missing
      `method` is a GET. */
  lemma ApiCallRequest<T>(base: string, url: string, opts: ApiOptions, hasDispatch: bool,
                          errorKey: Option<string>, outcome: HttpOutcome<T>)
    ensures var o := ApiCallSpec(base, url, opts, hasDispatch, errorKey, outcome);
      var req := Request(opts.verb.GetOr(GET), base + url, MergeHeaders(opts.headers), opts.body);
      && |o.events| >= 1 && o.events[0] == Fetched(req)
      && Requests(o.events) == [req]
      && Ceremonies(o.events) == [] && Notices(o.events) == []
  {
    var o := ApiCallSpec(base, url, opts, hasDispatch, errorKey, outcome);
    assert o.events == [o.events[0]] + o.events[1..];
    ProjectionsCons(o.events[0], o.events[1..]);
    if |o.events| > 1 {
      assert o.events[1..] == [o.events[1]];
      ProjectionsOne(o.events[1]);
    }
  }

  /** The call returns data exactly when the response is 2xx with a JSON body (and, when an error
      key is given, a dispatch to clear it with); the data returned is the parsed body. A rejected
      `fetch` rethrows the very same error, and a non-2xx response raises the derived message. */
  lemma ApiCallSettlement<T>(base: string, url: string, opts: ApiOptions, hasDispatch: bool,
                             errorKey: Option<string>, outcome: HttpOutcome<T>)
    ensures var r := ApiCallSpec(base, url, opts, hasDispatch, errorKey, outcome).result;
      && (r.Ok? <==>
            outcome.Responded? && IsOk(outcome.status) && outcome.body.Parsed? && (Truthy(errorKey) ==> hasDispatch))
      && (r.Ok? ==> r.value == outcome.body.value)
      && (outcome.Rejected? ==> r == Thrown(outcome.error))
      && (outcome.Responded? && !IsOk(outcome.status) ==>
            r == Thrown(JsError("Error", ErrorMessageOf(outcome.status, outcome.body))))
  {
  }

  /** The error-registry discipline: with a key and a dispatch, success dispatches exactly one
      `CLEAR_API_ERROR(key)` and failure exactly one `SET_API_ERROR(key, message)`; without a key
      neither is dispatched. */
  lemma ApiCallRegistry<T>(base: string, url: string, opts: ApiOptions,
                           errorKey: Option<string>, outcome: HttpOutcome<T>)
    ensures var o := ApiCallSpec(base, url, opts, true, errorKey, outcome);
      Actions(o.events) ==
        if !Truthy(errorKey) then []
        else if o.result.Ok? then [ClearApiError(errorKey.value)]
        else [SetApiError(errorKey.value, o.result.error.message)]
  {
    var o := ApiCallSpec(base, url, opts, true, errorKey, outcome);
    assert o.events == [o.events[0]] + o.events[1..];
    ProjectionsCons(o.events[0], o.events[1..]);
    if |o.events| > 1 {
      assert o.events[1..] == [o.events[1]];
      ProjectionsOne(o.events[1]);
    }
  }

  /** What the call does to the store: it touches the error entry of its key and nothing else —
      removed on success, set to the raised message on failure. */
  lemma ApiCallOnStore<T>(base: string, url: string, opts: ApiOptions, key: string,
                          outcome: HttpOutcome<T>, s: AppState, clock: seq<Timestamp>)
    requires key != ""
    requires |clock| == |Actions(ApiCallSpec(base, url, opts, true, Some(key), outcome).events)|
    ensures var o := ApiCallSpec(base, url, opts, true, Some(key), outcome);
      Run(s, Actions(o.events), clock) ==
        if o.result.Ok? then s.(apiErrors := s.apiErrors - {key})
        else s.(apiErrors := s.apiErrors[key := o.result.error.message])
  {
    ApiCallRegistry(base, url, opts, Some(key), outcome);
  }

  // ---------------------------------------------------------------------------------------------
  // The service calls

  /** Every call of `webAuthnService`, `userService` and `assetService`. */
  datatype ServiceCall =
    | GetUserDevices(userId: string)
    | StartRegistration(userId: string, username: Option<string>, displayName: Option<string>)
    | CompleteRegistration(credential: CredentialData, keyName: string)
    | StartAuthentication(userId: string)
    | CompleteAuthentication(assertion: AssertionData)
    | DeleteDevice(deviceId: string)
    | GetProfile(userId: string)
    | UpdateProfile(userId: string, profile: JsonText)
    | GetBalances(userId: string)
    | TransferAssets(transfer: JsonText)
    | GetTransferHistory(userId: string)

  /** The fixed method, path, body and error key of a service call; `None` is a call that passes
      no `method` (a GET). */
  datatype Endpoint = Endpoint(verb: Option<Method>, path: string, body: RequestBody, errorKey: string)

  predicate IsRead(c: ServiceCall) {
    c.GetUserDevices? || c.GetProfile? || c.GetBalances? || c.GetTransferHistory?
  }

  function EndpointOf(c: ServiceCall): (e: Endpoint)
    ensures e.errorKey != ""
    ensures e.verb.None? <==> IsRead(c)
    ensures e.verb.None? ==> e.body == NoBody
  {
    match c
    case GetUserDevices(u) => Endpoint(None, "/webauthn/user/" + u + "/devices", NoBody, "webauthn-devices")
    case StartRegistration(u, n, d) =>
      Endpoint(Some(POST), "/webauthn/register/begin", RegistrationBeginBody(u, n, d), "webauthn-register-begin")
    case CompleteRegistration(cr, k) =>
      Endpoint(Some(POST), "/webauthn/register/complete", RegistrationCompleteBody(cr, k), "webauthn-register-complete")
    case StartAuthentication(u) =>
      Endpoint(Some(POST), "/webauthn/authenticate/begin", AuthenticationBeginBody(u), "webauthn-auth-begin")
    case CompleteAuthentication(a) =>
      Endpoint(Some(POST), "/webauthn/authenticate/complete", AuthenticationCompleteBody(a), "webauthn-auth-complete")
    case DeleteDevice(id) => Endpoint(Some(DELETE), "/webauthn/device/" + id, NoBody, "webauthn-delete-device")
    case GetProfile(u) => Endpoint(None, "/user/" + u + "/profile", NoBody, "user-profile")
    case UpdateProfile(u, p) => Endpoint(Some(PUT), "/user/" + u + "/profile", OpaqueBody(p), "user-update-profile")
    case GetBalances(u) => Endpoint(None, "/assets/user/" + u + "/balances", NoBody, "asset-balances")
    case TransferAssets(t) => Endpoint(Some(POST), "/assets/transfer", OpaqueBody(t), "asset-transfer")
    case GetTransferHistory(u) => Endpoint(None, "/assets/user/" + u + "/history", NoBody, "asset-history")
  }

  /** The ordinal of a call's kind, to say when two calls are of the same kind. */
  function KindIndex(c: ServiceCall): nat {
    match c
    case GetUserDevices(_) => 0
    case StartRegistration(_, _, _) => 1
    case CompleteRegistration(_, _) => 2
    case StartAuthentication(_) => 3
    case CompleteAuthentication(_) => 4
    case DeleteDevice(_) => 5
    case GetProfile(_) => 6
    case UpdateProfile(_, _) => 7
    case GetBalances(_) => 8
    case TransferAssets(_) => 9
    case GetTransferHistory(_) => 10
  }

  /** Each kind of call has an error entry of its own: two calls share an error key exactly when
      they are of the same kind, so one endpoint's failure never overwrites another's. */
  lemma ErrorKeysDistinct(c1: ServiceCall, c2: ServiceCall)
    ensures EndpointOf(c1).errorKey == EndpointOf(c2).errorKey <==> KindIndex(c1) == KindIndex(c2)
  {
  }

  /** `` `Bearer ${jwtToken}` ``: a null token renders as the text `null`. */
  function BearerHeader(token: Option<string>): (h: string)
    ensures |h| >= 7 && h[..7] == "Bearer "
    ensures token.Some? ==> h[7..] == token.value
    ensures token.None? ==> h == "Bearer null"
  {
    "Bearer " + token.GetOr("null")
  }

  /** The `options` every service call passes: its method and body, and the Bearer header only. */
  function ServiceOptions(c: ServiceCall, token: Option<string>): ApiOptions {
    var e := EndpointOf(c);
    ApiOptions(e.verb, Some(map["Authorization" := BearerHeader(token)]), e.body)
  }

  /** A service call: the generic call on its endpoint, with the store's dispatch and its key. */
  function ServiceSpec<T>(base: string, c: ServiceCall, token: Option<string>, outcome: HttpOutcome<T>): Outcome<T> {
    ApiCallSpec(base, EndpointOf(c).path, ServiceOptions(c, token), true, Some(EndpointOf(c).errorKey), outcome)
  }

  method CallService<T>(rt: Runtime, c: ServiceCall, token: Option<string>, outcome: HttpOutcome<T>) returns (r: Result<T>)
    modifies rt
    ensures rt.trace == old(rt.trace) + ServiceSpec(rt.apiBase, c, token, outcome).events
    ensures r == ServiceSpec(rt.apiBase, c, token, outcome).result
  {
    var e := EndpointOf(c);
    r := MakeApiCall(rt, e.path, ServiceOptions(c, token), true, Some(e.errorKey), outcome);
  }

  /** The one request of a service call: the call's method (GET when it passes none), its path
      under the base, JSON content and the Bearer header of the token, `Bearer null` included;
      and the store only sees the call's own error entry cleared or set. */
  lemma ServiceRequest<T>(base: string, c: ServiceCall, token: Option<string>, outcome: HttpOutcome<T>)
    ensures var o := ServiceSpec(base, c, token, outcome);
      var req := Requests(o.events);
      && |req| == 1
      && req[0].verb == (if IsRead(c) then GET else EndpointOf(c).verb.value)
      && req[0].url == base + EndpointOf(c).path
      && req[0].headers == map["Content-Type" := "application/json", "Authorization" := BearerHeader(token)]
      && req[0].body == EndpointOf(c).body
      && Notices(o.events) == [] && Ceremonies(o.events) == []
      && Actions(o.events) == (if o.result.Ok? then [ClearApiError(EndpointOf(c).errorKey)]
                               else [SetApiError(EndpointOf(c).errorKey, o.result.error.message)])
  {
    var e := EndpointOf(c);
    ApiCallRequest(base, e.path, ServiceOptions(c, token), true, Some(e.errorKey), outcome);
    ApiCallRegistry(base, e.path, ServiceOptions(c, token), Some(e.errorKey), outcome);
    assert MergeHeaders(Some(map["Authorization" := BearerHeader(token)]))
        == map["Content-Type" := "application/json", "Authorization" := BearerHeader(token)];
  }

  // ---------------------------------------------------------------------------------------------
  // getUserDevices and its development fallback

  /** The list shown when the device request fails: one sample key or none, `coin` being the
      outcome of `Math.random() > 0.5`. */
  function MockDevices(coin: bool): (p: DevicesPayload)
    ensures p.devices.Some? && |p.devices.value| <= 1
    ensures coin <==> |p.devices.value| == 1
  {
    DevicesPayload(Some(if coin then [Device("1", "YubiKey 5C", "2024-01-15T10:30:00Z", "2024-01-20T15:45:00Z")] else []))
  }

  function GetUserDevicesSpec(base: string, userId: string, token: Option<string>,
                              outcome: HttpOutcome<DevicesPayload>, coin: bool): Outcome<DevicesPayload> {
    var call := ServiceSpec(base, GetUserDevices(userId), token, outcome);
    var data := if call.result.Ok? then call.result.value else MockDevices(coin);
    Outcome([Dispatched(SetWebAuthnLoading(true))] + call.events + [Dispatched(SetWebAuthnDevices(data))], Ok(data))
  }

  method FetchUserDevices(rt: Runtime, userId: string, token: Option<string>,
                          outcome: HttpOutcome<DevicesPayload>, coin: bool) returns (r: DevicesPayload)
    modifies rt
    ensures rt.trace == old(rt.trace) + GetUserDevicesSpec(rt.apiBase, userId, token, outcome, coin).events
    ensures Ok(r) == GetUserDevicesSpec(rt.apiBase, userId, token, outcome, coin).result
  {
    ghost var t0 := rt.trace;
    rt.Dispatch(SetWebAuthnLoading(true));
    var data := CallService(rt, GetUserDevices(userId), token, outcome);
    if data.Ok? {
      r := data.value;
    } else {
      r := MockDevices(coin);
    }
    rt.Dispatch(SetWebAuthnDevices(r));
    ghost var call := ServiceSpec(rt.apiBase, GetUserDevices(userId), token, outcome).events;
    AppendAssoc(t0, [Dispatched(SetWebAuthnLoading(true))], call);
    AppendAssoc(t0, [Dispatched(SetWebAuthnLoading(true))] + call, [Dispatched(SetWebAuthnDevices(r))]);
  }

  /** `getUserDevices` never throws. It dispatches the loading flag first, then the registry
      action of its request, and exactly one device list last: the fetched one or the fallback. */
  lemma GetUserDevicesTrace(base: string, userId: string, token: Option<string>,
                            outcome: HttpOutcome<DevicesPayload>, coin: bool)
    ensures var o := GetUserDevicesSpec(base, userId, token, outcome, coin);
      var call := ServiceSpec(base, GetUserDevices(userId), token, outcome);
      && o.result.Ok?
      && o.result.value == (if call.result.Ok? then call.result.value else MockDevices(coin))
      && Actions(o.events) == [SetWebAuthnLoading(true)] + Actions(call.events) + [SetWebAuthnDevices(o.result.value)]
      && Actions(call.events) == (if call.result.Ok? then [ClearApiError("webauthn-devices")]
                                  else [SetApiError("webauthn-devices", call.result.error.message)])
      && Requests(o.events) == Requests(call.events) && |Requests(o.events)| == 1
      && Notices(o.events) == [] && Ceremonies(o.events) == []
  {
    var o := GetUserDevicesSpec(base, userId, token, outcome, coin);
    var call := ServiceSpec(base, GetUserDevices(userId), token, outcome);
    ServiceRequest(base, GetUserDevices(userId), token, outcome);
    ProjectionsCons(Dispatched(SetWebAuthnLoading(true)), call.events);
    ProjectionsAppend([Dispatched(SetWebAuthnLoading(true))] + call.events, [Dispatched(SetWebAuthnDevices(o.result.value))]);
    ProjectionsOne(Dispatched(SetWebAuthnDevices(o.result.value)));
  }

  /** After `getUserDevices` the store has loading off, shows the returned list with the flag
      `hasWebAuthnDevice` agreeing with it, and keeps the `'webauthn-devices'` error recorded
      when the fallback is shown (or has it removed when the request succeeded). */
  lemma GetUserDevicesOnStore(base: string, userId: string, token: Option<string>,
                              outcome: HttpOutcome<DevicesPayload>, coin: bool,
                              s: AppState, clock: seq<Timestamp>)
    requires |clock| == 3
    ensures var o := GetUserDevicesSpec(base, userId, token, outcome, coin);
      var call := ServiceSpec(base, GetUserDevices(userId), token, outcome);
      |Actions(o.events)| == 3
      && var r := Run(s, Actions(o.events), clock);
         && !r.webAuthnLoading && r.webAuthnDevices == DevicesOf(o.result.value)
         && HasDeviceInvariant(r)
         && (call.result.Thrown? ==> r.apiErrors == s.apiErrors["webauthn-devices" := call.result.error.message])
         && (call.result.Ok? ==> r.apiErrors == s.apiErrors - {"webauthn-devices"})
  {
    var o := GetUserDevicesSpec(base, userId, token, outcome, coin);
    var call := ServiceSpec(base, GetUserDevices(userId), token, outcome);
    GetUserDevicesTrace(base, userId, token, outcome, coin);
    DeviceLoadDispatches(s, Actions(call.events)[0], o.result.value, clock);
  }

  /** The three dispatches of a device load, on any store: loading on, the error-registry
      action, then the list. */
  lemma DeviceLoadDispatches(s: AppState, record: Action, p: DevicesPayload, clock: seq<Timestamp>)
    requires |clock| == 3 && (record.ClearApiError? || record.SetApiError?)
    ensures var r := Run(s, [SetWebAuthnLoading(true)] + [record] + [SetWebAuthnDevices(p)], clock);
      && !r.webAuthnLoading && r.webAuthnDevices == DevicesOf(p) && HasDeviceInvariant(r)
      && (record.ClearApiError? ==> r.apiErrors == s.apiErrors - {record.key})
      && (record.SetApiError? ==> r.apiErrors == s.apiErrors[record.key := record.error])
  {
    ThreeDispatches(s, SetWebAuthnLoading(true), record, SetWebAuthnDevices(p), clock);
    var s2 := Apply(Apply(s, SetWebAuthnLoading(true), clock[0]), record, clock[1]);
    SetDevicesProperties(s2, p, clock[2]);
  }

  lemma ThreeDispatches(s: AppState, a: Action, b: Action, c: Action, clock: seq<Timestamp>)
    requires |clock| == 3
    ensures Run(s, [a] + [b] + [c], clock) == Apply(Apply(Apply(s, a, clock[0]), b, clock[1]), c, clock[2])
  {
    RunSnoc(s, [a, b], clock[..2], c, clock[2]);
    assert clock == clock[..2] + [clock[2]];
    assert [a] + [b] + [c] == [a, b] + [c];
    assert Run(s, [a, b], clock[..2]) == Run(Apply(s, a, clock[0]), [b], clock[1..2]);
  }

  // ---------------------------------------------------------------------------------------------
  // notificationService

  const DefaultDuration := 5000

  /** `addNotification(dispatch, message, type, duration)` with `id` the reading of
      `Date.now() + Math.random()` and `timestamp` that of `new Date().toISOString()`; a `None`
      argument is one left out, which takes the default. */
  function AddNotificationSpec(message: string, severity: Option<Severity>, duration: Option<int>,
                               id: NotificationId, timestamp: Timestamp): Outcome<NotificationId> {
    var n := Notification(id, message, severity.GetOr(Info), timestamp);
    var d := duration.GetOr(DefaultDuration);
    Outcome([Dispatched(AddNotification(n))] + (if d > 0 then [TimerSet(d, RemoveNotification(id))] else []), Ok(id))
  }

  method AddNotificationNow(rt: Runtime, message: string, severity: Option<Severity>, duration: Option<int>,
                            id: NotificationId, timestamp: Timestamp) returns (r: NotificationId)
    modifies rt
    ensures rt.trace == old(rt.trace) + AddNotificationSpec(message, severity, duration, id, timestamp).events
    ensures Ok(r) == AddNotificationSpec(message, severity, duration, id, timestamp).result
  {
    var d := if duration.Some? then duration.value else DefaultDuration;
    rt.Dispatch(AddNotification(Notification(id, message, if severity.Some? then severity.value else Info, timestamp)));
    if d > 0 {
      rt.SetTimeout(d, RemoveNotification(id));
    }
    r := id;
  }

  /** One notification is added, carrying the message, the severity (`'info'` by default) and the
      returned id; a removal of that same id is scheduled exactly when the duration (5000 by
      default) is positive; nothing else happens. */
  lemma AddNotificationTrace(message: string, severity: Option<Severity>, duration: Option<int>,
                                  id: NotificationId, timestamp: Timestamp)
    ensures var o := AddNotificationSpec(message, severity, duration, id, timestamp);
      && o.result == Ok(id)
      && Notices(o.events) == [Notification(id, message, severity.GetOr(Info), timestamp)]
      && Actions(o.events) == [AddNotification(Notification(id, message, severity.GetOr(Info), timestamp))]
      && Requests(o.events) == [] && Ceremonies(o.events) == []
      && ((exists i :: 0 <= i < |o.events| && o.events[i].TimerSet?) <==> duration.GetOr(5000) > 0)
      && (forall i :: 0 <= i < |o.events| && o.events[i].TimerSet? ==>
            o.events[i].timed == RemoveNotification(id) && o.events[i].delay == duration.GetOr(5000))
  {
    var o := AddNotificationSpec(message, severity, duration, id, timestamp);
    var n := Notification(id, message, severity.GetOr(Info), timestamp);
    var d := duration.GetOr(DefaultDuration);
    ProjectionsCons(Dispatched(AddNotification(n)), if d > 0 then [TimerSet(d, RemoveNotification(id))] else []);
    if d > 0 {
      ProjectionsOne(TimerSet(d, RemoveNotification(id)));
      assert o.events[1].TimerSet?;
    }
  }

  /** When the scheduled removal fires, the store's queue is the one before the addition, minus
      any older entry that happened to share the id; with a fresh id it is the queue before. */
  lemma AddThenExpire(s: AppState, n: Notification, now: Timestamp, later: Timestamp)
    ensures Apply(Apply(s, AddNotification(n), now), RemoveNotification(n.id), later).notifications
         == RemoveById(s.notifications, n.id)
    ensures (forall i :: 0 <= i < |s.notifications| ==> s.notifications[i].id != n.id) ==>
      Apply(Apply(s, AddNotification(n), now), RemoveNotification(n.id), later).notifications == s.notifications
  {
    RemoveByIdAppend(s.notifications, [n], n.id);
    if forall i :: 0 <= i < |s.notifications| ==> s.notifications[i].id != n.id {
      FilterAllKept(s.notifications, (m: Notification) => m.id != n.id);
    }
  }

  /** `removeNotification(dispatch, id)`: one `REMOVE_NOTIFICATION` of that id and nothing else. */
  method RemoveNotificationNow(rt: Runtime, id: NotificationId)
    modifies rt
    ensures rt.trace == old(rt.trace) + [Dispatched(RemoveNotification(id))]
  {
    rt.Dispatch(RemoveNotification(id));
  }
}
