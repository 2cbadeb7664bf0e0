/** The hooks the components call: precondition checks, the WebAuthn ceremonies, step ordering and
    the "exactly one notification per outcome" discipline on top of the service layer. A hook reads
    the store through the snapshot of its render (`user`, `jwtToken`), which is why those are
    parameters here. Every notification a hook can emit is stamped with the same `NoticeStamp`:
    no run of a hook emits more than one. */
module UseApi {
  import opened Common
  import opened Strings
  import opened AppContext
  import opened WebAuthnWire
  import opened Effects
  import opened ApiService

  /** The readings of `Date.now() + Math.random()` and `new Date().toISOString()` taken when a
      notification is added. */
  datatype NoticeStamp = NoticeStamp(id: NotificationId, timestamp: Timestamp)

  /** The effects of `notificationService.addNotification(dispatch, message, severity)`. */
  function Notify(message: string, severity: Severity, stamp: NoticeStamp): seq<Event> {
    AddNotificationSpec(message, Some(severity), None, stamp.id, stamp.timestamp).events
  }

  function Notice(message: string, severity: Severity, stamp: NoticeStamp): Notification {
    Notification(stamp.id, message, severity, stamp.timestamp)
  }

  lemma NotifyProjections(message: string, severity: Severity, stamp: NoticeStamp)
    ensures Notices(Notify(message, severity, stamp)) == [Notice(message, severity, stamp)]
    ensures Requests(Notify(message, severity, stamp)) == [] && Ceremonies(Notify(message, severity, stamp)) == []
  {
    AddNotificationTrace(message, Some(severity), None, stamp.id, stamp.timestamp);
  }

  /** The events end with the notification effects `n`, and nothing before them adds a
      notification. */
  predicate NotifiesLast(es: seq<Event>, n: seq<Event>) {
    |es| >= |n| && es[|es| - |n|..] == n && Notices(es[..|es| - |n|]) == []
  }

  lemma NotifiesLastAfter(pre: seq<Event>, n: seq<Event>)
    requires Notices(pre) == []
    ensures NotifiesLast(pre + n, n)
  {
    assert (pre + n)[..|pre|] == pre;
    assert (pre + n)[|pre|..] == n;
  }

  lemma NotifiesLastBefore(pre: seq<Event>, es: seq<Event>, n: seq<Event>)
    requires Notices(pre) == [] && NotifiesLast(es, n)
    ensures NotifiesLast(pre + es, n)
  {
    var k := |es| - |n|;
    assert es == es[..k] + n;
    AppendAssoc(pre, es[..k], n);
    ProjectionsAppend(pre, es[..k]);
    NotifiesLastAfter(pre + es[..k], n);
  }

  function Fail(message: string): JsError {
    JsError("Error", message)
  }

  const NoTokenWarning := "No authentication token available. This is a development limitation."
  const NotSupportedMessage := "WebAuthn is not supported by this browser"

  /** The message of the error notification of a WebAuthn ceremony. */
  function ClassifyCeremonyError(e: JsError, cancelled: string, fallback: string): (m: string)
    ensures e.name == "NotAllowedError" ==> m == cancelled
    ensures e.name == "NotSupportedError" ==> m == NotSupportedMessage
    ensures e.name != "NotAllowedError" && e.name != "NotSupportedError" ==> m == (if e.message != "" then e.message else fallback)
    ensures cancelled != "" && fallback != "" ==> m != ""
  {
    if e.name == "NotAllowedError" then cancelled
    else if e.name == "NotSupportedError" then NotSupportedMessage
    else if e.message != "" then e.message
    else fallback
  }

  /** `error.message || fallback`. */
  function MessageOr(e: JsError, fallback: string): (m: string)
    ensures e.message != "" ==> m == e.message
    ensures e.message == "" ==> m == fallback
    ensures fallback != "" ==> m != ""
  {
    if e.message != "" then e.message else fallback
  }

  /** An error raised by a failed HTTP response is always shown with its own (never empty)
      message: the per-operation fallback text only appears for errors without one. */
  lemma HttpFailureNoticeIsServerMessage<T>(status: nat, body: ResponseBody<T>, cancelled: string, fallback: string)
    requires !IsOk(status)
    ensures var e := JsError("Error", ErrorMessageOf(status, body));
      ClassifyCeremonyError(e, cancelled, fallback) == e.message && MessageOr(e, fallback) == e.message
  {
  }

  // ---------------------------------------------------------------------------------------------
  // loadDevices

  const MockNotice := "Using mock data for WebAuthn devices (development mode)"

  /** `loadDevices()`: nothing without a user; otherwise the device request, with the `catch` that
      would announce the development fallback. */
  function LoadDevicesEvents(base: string, user: Option<User>, token: Option<string>,
                             reload: HttpOutcome<DevicesPayload>, coin: bool, stamp: NoticeStamp): seq<Event> {
    if user.None? then []
    else
      var d := GetUserDevicesSpec(base, user.value.id, token, reload, coin);
      if d.result.Thrown? then d.events + Notify(MockNotice, Info, stamp) else d.events
  }

  method LoadDevices(rt: Runtime, user: Option<User>, token: Option<string>,
                     reload: HttpOutcome<DevicesPayload>, coin: bool, stamp: NoticeStamp)
    modifies rt
    ensures rt.trace == old(rt.trace) + LoadDevicesEvents(rt.apiBase, user, token, reload, coin, stamp)
  {
    if user.None? {
      return;
    }
    var _ := FetchUserDevices(rt, user.value.id, token, reload, coin);
  }

  /** `loadDevices` never notifies: its `catch` is dead because `getUserDevices` never throws.
      With a user it makes exactly the device request and dispatches the device list. */
  lemma LoadDevicesProperties(base: string, user: Option<User>, token: Option<string>,
                              reload: HttpOutcome<DevicesPayload>, coin: bool, stamp: NoticeStamp)
    ensures var es := LoadDevicesEvents(base, user, token, reload, coin, stamp);
      && Notices(es) == [] && Ceremonies(es) == []
      && (user.None? ==> es == [])
      && (user.Some? ==>
            es == GetUserDevicesSpec(base, user.value.id, token, reload, coin).events
            && |Requests(es)| == 1
            && Requests(es)[0].url == base + "/webauthn/user/" + user.value.id + "/devices")
  {
    if user.Some? {
      GetUserDevicesTrace(base, user.value.id, token, reload, coin);
      ServiceRequest(base, GetUserDevices(user.value.id), token, reload);
    }
  }

  // ---------------------------------------------------------------------------------------------
  // registerDevice

  /** The effects `before` followed by those of `o`, settling as `o` does. */
  function Then<T>(before: seq<Event>, o: Outcome<T>): (r: Outcome<T>)
    ensures r.result == o.result && r.events == before + o.events
  {
    Outcome(before + o.events, o.result)
  }

  /** What the world does during a registration: whether the browser has `PublicKeyCredential`,
      the two requests, the platform ceremony and the device reload. */
  datatype RegistrationOracle = RegistrationOracle(
    supported: bool, begin: HttpOutcome<CreationOptionsWire>, ceremony: Ceremony<PlatformCredential>,
    complete: HttpOutcome<JsonText>, reload: HttpOutcome<DevicesPayload>, coin: bool)

  const RegisteredMessage := "Security key registered successfully!"

  /** `user.fullName || user.primaryEmailAddress?.emailAddress`. */
  function DisplayName(u: User): (d: Option<string>)
    ensures Truthy(u.fullName) ==> d == u.fullName
    ensures !Truthy(u.fullName) ==> d == u.primaryEmail
  {
    if Truthy(u.fullName) then u.fullName else u.primaryEmail
  }

  function RegistrationBegin(base: string, u: User, token: Option<string>, w: RegistrationOracle): Outcome<CreationOptionsWire> {
    ServiceSpec(base, StartRegistration(u.id, u.primaryEmail, DisplayName(u)), token, w.begin)
  }

  function RegistrationComplete(base: string, token: Option<string>, keyName: string, cred: PlatformCredential,
                                w: RegistrationOracle): Outcome<JsonText> {
    ServiceSpec(base, CompleteRegistration(CredentialToWire(cred), Trim(keyName)), token, w.complete)
  }

  /** After the ceremony resolved: the complete request, the device reload and the success
      notification. */
  function RegisterFinish(base: string, u: User, token: Option<string>, keyName: string, cred: PlatformCredential,
                          w: RegistrationOracle, stamp: NoticeStamp): Outcome<bool> {
    var c := RegistrationComplete(base, token, keyName, cred, w);
    if c.result.Thrown? then Outcome(c.events, Thrown(c.result.error))
    else Outcome(c.events + LoadDevicesEvents(base, Some(u), token, w.reload, w.coin, stamp) + Notify(RegisteredMessage, Success, stamp), Ok(true))
  }

  /** After the options arrived: the creation ceremony on the converted options, then the rest. */
  function RegisterCeremony(base: string, u: User, token: Option<string>, keyName: string, options: CreationOptionsWire,
                            w: RegistrationOracle, stamp: NoticeStamp): Outcome<bool> {
    var created := [CeremonyInvoked(CreateCredential(CreationOptionsFromWire(options)))];
    match w.ceremony
    case Failed(e) => Outcome(created, Thrown(e))
    case Resolved(cred) => Then(created, RegisterFinish(base, u, token, keyName, cred, w, stamp))
  }

  /** The `try` block of `registerDevice`: support check, begin, ceremony, complete, reload and the
      success notification, stopping at the first error. */
  function RegisterTry(base: string, u: User, token: Option<string>, keyName: string,
                       w: RegistrationOracle, stamp: NoticeStamp): Outcome<bool> {
    if !w.supported then Outcome([], Thrown(Fail(NotSupportedMessage)))
    else
      var b := RegistrationBegin(base, u, token, w);
      if b.result.Thrown? then Outcome(b.events, Thrown(b.result.error))
      else Then(b.events, RegisterCeremony(base, u, token, keyName, b.result.value, w, stamp))
  }

  function RegisterDeviceSpec(base: string, user: Option<User>, token: Option<string>, keyName: string,
                              w: RegistrationOracle, stamp: NoticeStamp): Outcome<bool> {
    if user.None? || Trim(keyName) == "" then Outcome([], Thrown(Fail("Missing required data for registration")))
    else if !Truthy(token) then
      Outcome(Notify(NoTokenWarning, Warning, stamp), Thrown(Fail("No authentication token available")))
    else
      var t := RegisterTry(base, user.value, token, keyName, w, stamp);
      if t.result.Ok? then t
      else
        var m := ClassifyCeremonyError(t.result.error, "Registration was cancelled or not allowed", "Failed to register security key");
        Outcome(t.events + Notify(m, Error, stamp), t.result)
  }

  method RegisterFinishStep(rt: Runtime, u: User, token: Option<string>, keyName: string, cred: PlatformCredential,
                            w: RegistrationOracle, stamp: NoticeStamp) returns (r: Result<bool>)
    modifies rt
    ensures rt.trace == old(rt.trace) + RegisterFinish(rt.apiBase, u, token, keyName, cred, w, stamp).events
    ensures r == RegisterFinish(rt.apiBase, u, token, keyName, cred, w, stamp).result
  {
    ghost var t0 := rt.trace;
    var done := CallService(rt, CompleteRegistration(CredentialToWire(cred), Trim(keyName)), token, w.complete);
    if done.Thrown? {
      return Thrown(done.error);
    }
    LoadDevices(rt, Some(u), token, w.reload, w.coin, stamp);
    var _ := AddNotificationNow(rt, RegisteredMessage, Some(Success), None, stamp.id, stamp.timestamp);
    ghost var c := RegistrationComplete(rt.apiBase, token, keyName, cred, w).events;
    ghost var l := LoadDevicesEvents(rt.apiBase, Some(u), token, w.reload, w.coin, stamp);
    AppendAssoc(t0, c, l);
    AppendAssoc(t0, c + l, Notify(RegisteredMessage, Success, stamp));
    r := Ok(true);
  }

  method RegisterCeremonyStep(rt: Runtime, u: User, token: Option<string>, keyName: string, options: CreationOptionsWire,
                              w: RegistrationOracle, stamp: NoticeStamp) returns (r: Result<bool>)
    modifies rt
    ensures rt.trace == old(rt.trace) + RegisterCeremony(rt.apiBase, u, token, keyName, options, w, stamp).events
    ensures r == RegisterCeremony(rt.apiBase, u, token, keyName, options, w, stamp).result
  {
    ghost var t0 := rt.trace;
    rt.Invoke(CreateCredential(CreationOptionsFromWire(options)));
    match w.ceremony {
      case Failed(e) =>
        r := Thrown(e);
      case Resolved(cred) =>
        r := RegisterFinishStep(rt, u, token, keyName, cred, w, stamp);
        AppendAssoc(t0, [CeremonyInvoked(CreateCredential(CreationOptionsFromWire(options)))],
                    RegisterFinish(rt.apiBase, u, token, keyName, cred, w, stamp).events);
    }
  }

  method RegisterTryStep(rt: Runtime, u: User, token: Option<string>, keyName: string,
                         w: RegistrationOracle, stamp: NoticeStamp) returns (r: Result<bool>)
    modifies rt
    ensures rt.trace == old(rt.trace) + RegisterTry(rt.apiBase, u, token, keyName, w, stamp).events
    ensures r == RegisterTry(rt.apiBase, u, token, keyName, w, stamp).result
  {
    if !w.supported {
      return Thrown(Fail(NotSupportedMessage));
    }
    ghost var t0 := rt.trace;
    var options := CallService(rt, StartRegistration(u.id, u.primaryEmail, DisplayName(u)), token, w.begin);
    if options.Thrown? {
      return Thrown(options.error);
    }
    r := RegisterCeremonyStep(rt, u, token, keyName, options.value, w, stamp);
    AppendAssoc(t0, RegistrationBegin(rt.apiBase, u, token, w).events,
                RegisterCeremony(rt.apiBase, u, token, keyName, options.value, w, stamp).events);
  }

  method RegisterDevice(rt: Runtime, user: Option<User>, token: Option<string>, keyName: string,
                        w: RegistrationOracle, stamp: NoticeStamp) returns (r: Result<bool>)
    modifies rt
    ensures rt.trace == old(rt.trace) + RegisterDeviceSpec(rt.apiBase, user, token, keyName, w, stamp).events
    ensures r == RegisterDeviceSpec(rt.apiBase, user, token, keyName, w, stamp).result
  {
    if user.None? || Trim(keyName) == "" {
      return Thrown(Fail("Missing required data for registration"));
    }
    if !Truthy(token) {
      var _ := AddNotificationNow(rt, NoTokenWarning, Some(Warning), None, stamp.id, stamp.timestamp);
      return Thrown(Fail("No authentication token available"));
    }
    ghost var t0 := rt.trace;
    r := RegisterTryStep(rt, user.value, token, keyName, w, stamp);
    if r.Thrown? {
      var m := ClassifyCeremonyError(r.error, "Registration was cancelled or not allowed", "Failed to register security key");
      var _ := AddNotificationNow(rt, m, Some(Error), None, stamp.id, stamp.timestamp);
      AppendAssoc(t0, RegisterTry(rt.apiBase, user.value, token, keyName, w, stamp).events, Notify(m, Error, stamp));
    }
  }

  /** Without a user, or with a key name that is all whitespace, registration throws at once and
      does nothing else; with them but without a token it emits exactly one warning, makes no
      request and starts no ceremony. */
  lemma RegisterPreconditions(base: string, user: Option<User>, token: Option<string>, keyName: string,
                              w: RegistrationOracle, stamp: NoticeStamp)
    ensures var o := RegisterDeviceSpec(base, user, token, keyName, w, stamp);
      && ((user.None? || forall i :: 0 <= i < |keyName| ==> IsJsWhitespace(keyName[i])) ==>
            o == Outcome([], Thrown(Fail("Missing required data for registration"))))
      && (user.Some? && Trim(keyName) != "" && !Truthy(token) ==>
            && o.result == Thrown(Fail("No authentication token available"))
            && Notices(o.events) == [Notice(NoTokenWarning, Warning, stamp)]
            && Requests(o.events) == [] && Ceremonies(o.events) == [])
  {
    TrimByEmptyIff(keyName, IsJsWhitespace);
    NotifyProjections(NoTokenWarning, Warning, stamp);
  }

  /** The last step reports success, and only success, after the complete request and the device
      reload; on failure it rethrows the request's error having made only that request. */
  lemma RegisterFinishFacts(base: string, u: User, token: Option<string>, keyName: string, cred: PlatformCredential,
                            w: RegistrationOracle, stamp: NoticeStamp)
    ensures var f := RegisterFinish(base, u, token, keyName, cred, w, stamp);
      var c := RegistrationComplete(base, token, keyName, cred, w);
      && Ceremonies(f.events) == []
      && (f.result.Ok? <==> c.result.Ok?)
      && (f.result.Thrown? ==> f.result.error == c.result.error && Notices(f.events) == [] && |Requests(f.events)| == 1)
      && (f.result.Ok? ==>
            && f.result == Ok(true)
            && NotifiesLast(f.events, Notify(RegisteredMessage, Success, stamp))
            && Notices(f.events) == [Notice(RegisteredMessage, Success, stamp)]
            && |Requests(f.events)| == 2
            && Requests(f.events)[0].body == RegistrationCompleteBody(CredentialToWire(cred), Trim(keyName))
            && Requests(f.events)[1].url == base + "/webauthn/user/" + u.id + "/devices")
  {
    var c := RegistrationComplete(base, token, keyName, cred, w);
    ServiceRequest(base, CompleteRegistration(CredentialToWire(cred), Trim(keyName)), token, w.complete);
    if c.result.Ok? {
      RegisterFinishOk(base, u, token, keyName, cred, w, stamp);
    }
  }

  /** The successful last step of registration: the complete request, the reload, then the
      notification. */
  lemma RegisterFinishOk(base: string, u: User, token: Option<string>, keyName: string, cred: PlatformCredential,
                         w: RegistrationOracle, stamp: NoticeStamp)
    requires RegistrationComplete(base, token, keyName, cred, w).result.Ok?
    ensures var f := RegisterFinish(base, u, token, keyName, cred, w, stamp);
      && f.result == Ok(true) && Ceremonies(f.events) == []
      && NotifiesLast(f.events, Notify(RegisteredMessage, Success, stamp))
      && Notices(f.events) == [Notice(RegisteredMessage, Success, stamp)]
      && |Requests(f.events)| == 2
      && Requests(f.events)[0].body == RegistrationCompleteBody(CredentialToWire(cred), Trim(keyName))
      && Requests(f.events)[1].url == base + "/webauthn/user/" + u.id + "/devices"
  {
    var c := RegistrationComplete(base, token, keyName, cred, w);
    var l := LoadDevicesEvents(base, Some(u), token, w.reload, w.coin, stamp);
    ServiceRequest(base, CompleteRegistration(CredentialToWire(cred), Trim(keyName)), token, w.complete);
    LoadDevicesProperties(base, Some(u), token, w.reload, w.coin, stamp);
    NotifyProjections(RegisteredMessage, Success, stamp);
    QuietThenNotify(c.events, l, Notify(RegisteredMessage, Success, stamp));
  }

  /** Two stretches of effects that notify nothing, then the notification effects `n`: the
      requests are those of the two stretches, the notices those of `n`, and `n` comes last. */
  lemma QuietThenNotify(first: seq<Event>, second: seq<Event>, n: seq<Event>)
    requires Notices(first) == [] && Notices(second) == [] && Requests(n) == []
    requires Ceremonies(first) == [] && Ceremonies(second) == [] && Ceremonies(n) == []
    ensures Requests(first + second + n) == Requests(first) + Requests(second)
    ensures Notices(first + second + n) == Notices(n) && Ceremonies(first + second + n) == []
    ensures NotifiesLast(first + second + n, n)
  {
    ProjectionsAppend(first, second);
    ProjectionsAppend(first + second, n);
    NotifiesLastAfter(first + second, n);
  }

  /** The ceremony step starts exactly one creation ceremony, on the converted options, before
      anything else; a rejected ceremony is rethrown with no request made. */
  lemma RegisterCeremonyFacts(base: string, u: User, token: Option<string>, keyName: string, options: CreationOptionsWire,
                              w: RegistrationOracle, stamp: NoticeStamp)
    ensures var g := RegisterCeremony(base, u, token, keyName, options, w, stamp);
      && Ceremonies(g.events) == [CreateCredential(CreationOptionsFromWire(options))]
      && (w.ceremony.Failed? ==> g.result == Thrown(w.ceremony.error) && Notices(g.events) == [] && Requests(g.events) == [])
      && (w.ceremony.Resolved? ==>
            var f := RegisterFinish(base, u, token, keyName, w.ceremony.value, w, stamp);
            && g.result == f.result && Notices(g.events) == Notices(f.events) && Requests(g.events) == Requests(f.events)
            && (f.result.Ok? ==> NotifiesLast(g.events, Notify(RegisteredMessage, Success, stamp))))
  {
    var e := CeremonyInvoked(CreateCredential(CreationOptionsFromWire(options)));
    if w.ceremony.Resolved? {
      var f := RegisterFinish(base, u, token, keyName, w.ceremony.value, w, stamp);
      RegisterFinishFacts(base, u, token, keyName, w.ceremony.value, w, stamp);
      ProjectionsCons(e, f.events);
      ProjectionsOne(e);
      if f.result.Ok? {
        NotifiesLastBefore([e], f.events, Notify(RegisteredMessage, Success, stamp));
      }
    } else {
      ProjectionsOne(e);
    }
  }

  /** The `try` block of registration succeeds exactly when the browser supports WebAuthn, the begin
      request succeeds, the ceremony resolves and the complete request succeeds. A failure
      notifies nothing and rethrows the error of the step that failed. */
  lemma RegisterTryFacts(base: string, u: User, token: Option<string>, keyName: string,
                         w: RegistrationOracle, stamp: NoticeStamp)
    ensures var t := RegisterTry(base, u, token, keyName, w, stamp);
      var b := RegistrationBegin(base, u, token, w);
      && (t.result.Ok? <==>
            w.supported && b.result.Ok? && w.ceremony.Resolved?
            && RegistrationComplete(base, token, keyName, w.ceremony.value, w).result.Ok?)
      && (t.result.Thrown? ==> Notices(t.events) == [])
      && (!w.supported ==> t == Outcome([], Thrown(Fail(NotSupportedMessage))))
      && (w.supported && b.result.Thrown? ==>
            t.result == Thrown(b.result.error) && Ceremonies(t.events) == [] && |Requests(t.events)| == 1)
      && (w.supported && b.result.Ok? && w.ceremony.Failed? ==>
            t.result == Thrown(w.ceremony.error) && |Requests(t.events)| == 1)
  {
    if w.supported {
      var b := RegistrationBegin(base, u, token, w);
      ServiceRequest(base, StartRegistration(u.id, u.primaryEmail, DisplayName(u)), token, w.begin);
      if b.result.Ok? {
        var g := RegisterCeremony(base, u, token, keyName, b.result.value, w, stamp);
        RegisterCeremonyFacts(base, u, token, keyName, b.result.value, w, stamp);
        ProjectionsAppend(b.events, g.events);
        if w.ceremony.Resolved? {
          RegisterFinishFacts(base, u, token, keyName, w.ceremony.value, w, stamp);
        }
      }
    }
  }

  /** A begin request that notified nothing and started no ceremony, followed by steps that
      notify last: the whole notifies last, and its projections are those of the two parts. */
  lemma SuccessAfterBegin(pre: seq<Event>, post: seq<Event>, n: seq<Event>)
    requires Notices(pre) == [] && Ceremonies(pre) == [] && NotifiesLast(post, n)
    ensures NotifiesLast(pre + post, n)
    ensures Requests(pre + post) == Requests(pre) + Requests(post)
    ensures Notices(pre + post) == Notices(post) && Ceremonies(pre + post) == Ceremonies(post)
  {
    ProjectionsAppend(pre, post);
    NotifiesLastBefore(pre, post, n);
  }

  /** A successful `try` block made the begin request, started one creation ceremony on the
      converted options, sent the credential with the trimmed key name, reloaded the devices and
      only then notified. */
  lemma RegisterTryOk(base: string, u: User, token: Option<string>, keyName: string,
                      w: RegistrationOracle, stamp: NoticeStamp)
    requires RegisterTry(base, u, token, keyName, w, stamp).result.Ok?
    ensures var t := RegisterTry(base, u, token, keyName, w, stamp);
      && t.result == Ok(true)
      && NotifiesLast(t.events, Notify(RegisteredMessage, Success, stamp))
      && Ceremonies(t.events) == [CreateCredential(CreationOptionsFromWire(RegistrationBegin(base, u, token, w).result.value))]
      && |Requests(t.events)| == 3
      && Requests(t.events)[0].url == base + "/webauthn/register/begin"
      && Requests(t.events)[1].body == RegistrationCompleteBody(CredentialToWire(w.ceremony.value), Trim(keyName))
      && Requests(t.events)[2].url == base + "/webauthn/user/" + u.id + "/devices"
  {
    var b := RegistrationBegin(base, u, token, w);
    var g := RegisterCeremony(base, u, token, keyName, b.result.value, w, stamp);
    var f := RegisterFinish(base, u, token, keyName, w.ceremony.value, w, stamp);
    RegistrationBeginRequest(base, u, token, w);
    RegisterTryFacts(base, u, token, keyName, w, stamp);
    assert RegisterTry(base, u, token, keyName, w, stamp) == Outcome(b.events + g.events, g.result);
    RegisterCeremonyFacts(base, u, token, keyName, b.result.value, w, stamp);
    RegisterFinishFacts(base, u, token, keyName, w.ceremony.value, w, stamp);
    SuccessAfterBegin(b.events, g.events, Notify(RegisteredMessage, Success, stamp));
  }

  /** The begin request of registration is one request to the registration begin path, with no
      notification and no ceremony. */
  lemma RegistrationBeginRequest(base: string, u: User, token: Option<string>, w: RegistrationOracle)
    ensures var b := RegistrationBegin(base, u, token, w);
      && |Requests(b.events)| == 1 && Requests(b.events)[0].url == base + "/webauthn/register/begin"
      && Notices(b.events) == [] && Ceremonies(b.events) == []
  {
    ServiceRequest(base, StartRegistration(u.id, u.primaryEmail, DisplayName(u)), token, w.begin);
  }

  /** On success registration has made the begin request, started one creation ceremony on the
      converted options, sent the credential with the trimmed key name, reloaded the devices, and
      only then emitted its one success notification. */
  lemma RegisterSuccess(base: string, u: User, token: Option<string>, keyName: string,
                        w: RegistrationOracle, stamp: NoticeStamp)
    requires Trim(keyName) != "" && Truthy(token)
    ensures var o := RegisterDeviceSpec(base, Some(u), token, keyName, w, stamp);
      o.result.Ok? <==>
        w.supported && RegistrationBegin(base, u, token, w).result.Ok? && w.ceremony.Resolved?
        && RegistrationComplete(base, token, keyName, w.ceremony.value, w).result.Ok?
    ensures var o := RegisterDeviceSpec(base, Some(u), token, keyName, w, stamp);
      o.result.Ok? ==>
        && o.result == Ok(true)
        && NotifiesLast(o.events, Notify(RegisteredMessage, Success, stamp))
        && Ceremonies(o.events) == [CreateCredential(CreationOptionsFromWire(RegistrationBegin(base, u, token, w).result.value))]
        && |Requests(o.events)| == 3
        && Requests(o.events)[0].url == base + "/webauthn/register/begin"
        && Requests(o.events)[1].body == RegistrationCompleteBody(CredentialToWire(w.ceremony.value), Trim(keyName))
        && Requests(o.events)[2].url == base + "/webauthn/user/" + u.id + "/devices"
  {
    RegisterTryFacts(base, u, token, keyName, w, stamp);
    if RegisterTry(base, u, token, keyName, w, stamp).result.Ok? {
      RegisterTryOk(base, u, token, keyName, w, stamp);
    }
  }

  /** Every failure inside the `try` block emits exactly one `'error'` notification, with the
      classified message, and rethrows the very error that occurred; no other notification is
      emitted. */
  lemma RegisterFailure(base: string, u: User, token: Option<string>, keyName: string,
                        w: RegistrationOracle, stamp: NoticeStamp)
    requires Trim(keyName) != "" && Truthy(token)
    ensures var o := RegisterDeviceSpec(base, Some(u), token, keyName, w, stamp);
      var t := RegisterTry(base, u, token, keyName, w, stamp);
      o.result.Thrown? ==>
        && o.result == t.result
        && Notices(o.events) == [Notice(ClassifyCeremonyError(t.result.error, "Registration was cancelled or not allowed",
                                                              "Failed to register security key"), Error, stamp)]
        && (!w.supported ==> o.result.error == Fail(NotSupportedMessage) && Requests(o.events) == [])
        && (w.supported && RegistrationBegin(base, u, token, w).result.Thrown? ==>
              o.result.error == RegistrationBegin(base, u, token, w).result.error && Ceremonies(o.events) == [])
        && (w.supported && RegistrationBegin(base, u, token, w).result.Ok? && w.ceremony.Failed? ==>
              o.result.error == w.ceremony.error && |Requests(o.events)| == 1)
  {
    var t := RegisterTry(base, u, token, keyName, w, stamp);
    RegisterTryFacts(base, u, token, keyName, w, stamp);
    if t.result.Thrown? {
      var m := ClassifyCeremonyError(t.result.error, "Registration was cancelled or not allowed", "Failed to register security key");
      NotifyProjections(m, Error, stamp);
      ProjectionsAppend(t.events, Notify(m, Error, stamp));
    }
  }

  // ---------------------------------------------------------------------------------------------
  // validateDevice

  datatype ValidationOracle = ValidationOracle(
    supported: bool, begin: HttpOutcome<RequestOptionsWire>, ceremony: Ceremony<PlatformAssertion>,
    complete: HttpOutcome<JsonText>)

  const ValidatedMessage := "Security key validated successfully!"

  function ValidationBegin(base: string, u: User, token: Option<string>, w: ValidationOracle): Outcome<RequestOptionsWire> {
    ServiceSpec(base, StartAuthentication(u.id), token, w.begin)
  }

  function ValidationComplete(base: string, token: Option<string>, a: PlatformAssertion, w: ValidationOracle): Outcome<JsonText> {
    ServiceSpec(base, CompleteAuthentication(AssertionToWire(a)), token, w.complete)
  }

  /** After the assertion ceremony resolved: the complete request and the success notification. */
  function ValidateFinish(base: string, token: Option<string>, a: PlatformAssertion, w: ValidationOracle,
                          stamp: NoticeStamp): Outcome<bool> {
    var c := ValidationComplete(base, token, a, w);
    if c.result.Thrown? then Outcome(c.events, Thrown(c.result.error))
    else Outcome(c.events + Notify(ValidatedMessage, Success, stamp), Ok(true))
  }

  function ValidateCeremony(base: string, token: Option<string>, options: RequestOptionsWire, w: ValidationOracle,
                            stamp: NoticeStamp): Outcome<bool> {
    var asked := [CeremonyInvoked(GetAssertion(RequestOptionsFromWire(options)))];
    match w.ceremony
    case Failed(e) => Outcome(asked, Thrown(e))
    case Resolved(a) => Then(asked, ValidateFinish(base, token, a, w, stamp))
  }

  function ValidateTry(base: string, u: User, token: Option<string>, w: ValidationOracle, stamp: NoticeStamp): Outcome<bool> {
    if !w.supported then Outcome([], Thrown(Fail(NotSupportedMessage)))
    else
      var b := ValidationBegin(base, u, token, w);
      if b.result.Thrown? then Outcome(b.events, Thrown(b.result.error))
      else Then(b.events, ValidateCeremony(base, token, b.result.value, w, stamp))
  }

  function ValidateDeviceSpec(base: string, user: Option<User>, token: Option<string>,
                              w: ValidationOracle, stamp: NoticeStamp): Outcome<bool> {
    if user.None? then Outcome([], Thrown(Fail("Missing user data for validation")))
    else if !Truthy(token) then
      Outcome(Notify(NoTokenWarning, Warning, stamp), Thrown(Fail("No authentication token available")))
    else
      var t := ValidateTry(base, user.value, token, w, stamp);
      if t.result.Ok? then t
      else
        var m := ClassifyCeremonyError(t.result.error, "Validation was cancelled or not allowed", "Failed to validate security key");
        Outcome(t.events + Notify(m, Error, stamp), t.result)
  }

  method ValidateFinishStep(rt: Runtime, token: Option<string>, a: PlatformAssertion, w: ValidationOracle,
                            stamp: NoticeStamp) returns (r: Result<bool>)
    modifies rt
    ensures rt.trace == old(rt.trace) + ValidateFinish(rt.apiBase, token, a, w, stamp).events
    ensures r == ValidateFinish(rt.apiBase, token, a, w, stamp).result
  {
    ghost var t0 := rt.trace;
    var done := CallService(rt, CompleteAuthentication(AssertionToWire(a)), token, w.complete);
    if done.Thrown? {
      return Thrown(done.error);
    }
    var _ := AddNotificationNow(rt, ValidatedMessage, Some(Success), None, stamp.id, stamp.timestamp);
    AppendAssoc(t0, ValidationComplete(rt.apiBase, token, a, w).events, Notify(ValidatedMessage, Success, stamp));
    r := Ok(true);
  }

  method ValidateCeremonyStep(rt: Runtime, token: Option<string>, options: RequestOptionsWire, w: ValidationOracle,
                              stamp: NoticeStamp) returns (r: Result<bool>)
    modifies rt
    ensures rt.trace == old(rt.trace) + ValidateCeremony(rt.apiBase, token, options, w, stamp).events
    ensures r == ValidateCeremony(rt.apiBase, token, options, w, stamp).result
  {
    ghost var t0 := rt.trace;
    rt.Invoke(GetAssertion(RequestOptionsFromWire(options)));
    match w.ceremony {
      case Failed(e) =>
        r := Thrown(e);
      case Resolved(a) =>
        r := ValidateFinishStep(rt, token, a, w, stamp);
        AppendAssoc(t0, [CeremonyInvoked(GetAssertion(RequestOptionsFromWire(options)))],
                    ValidateFinish(rt.apiBase, token, a, w, stamp).events);
    }
  }

  method ValidateTryStep(rt: Runtime, u: User, token: Option<string>, w: ValidationOracle,
                         stamp: NoticeStamp) returns (r: Result<bool>)
    modifies rt
    ensures rt.trace == old(rt.trace) + ValidateTry(rt.apiBase, u, token, w, stamp).events
    ensures r == ValidateTry(rt.apiBase, u, token, w, stamp).result
  {
    if !w.supported {
      return Thrown(Fail(NotSupportedMessage));
    }
    ghost var t0 := rt.trace;
    var options := CallService(rt, StartAuthentication(u.id), token, w.begin);
    if options.Thrown? {
      return Thrown(options.error);
    }
    r := ValidateCeremonyStep(rt, token, options.value, w, stamp);
    AppendAssoc(t0, ValidationBegin(rt.apiBase, u, token, w).events,
                ValidateCeremony(rt.apiBase, token, options.value, w, stamp).events);
  }

  method ValidateDevice(rt: Runtime, user: Option<User>, token: Option<string>,
                        w: ValidationOracle, stamp: NoticeStamp) returns (r: Result<bool>)
    modifies rt
    ensures rt.trace == old(rt.trace) + ValidateDeviceSpec(rt.apiBase, user, token, w, stamp).events
    ensures r == ValidateDeviceSpec(rt.apiBase, user, token, w, stamp).result
  {
    if user.None? {
      return Thrown(Fail("Missing user data for validation"));
    }
    if !Truthy(token) {
      var _ := AddNotificationNow(rt, NoTokenWarning, Some(Warning), None, stamp.id, stamp.timestamp);
      return Thrown(Fail("No authentication token available"));
    }
    ghost var t0 := rt.trace;
    r := ValidateTryStep(rt, user.value, token, w, stamp);
    if r.Thrown? {
      var m := ClassifyCeremonyError(r.error, "Validation was cancelled or not allowed", "Failed to validate security key");
      var _ := AddNotificationNow(rt, m, Some(Error), None, stamp.id, stamp.timestamp);
      AppendAssoc(t0, ValidateTry(rt.apiBase, user.value, token, w, stamp).events, Notify(m, Error, stamp));
    }
  }

  /** The last validation step notifies only on success, after the complete request carrying the
      converted assertion. */
  lemma ValidateFinishFacts(base: string, token: Option<string>, a: PlatformAssertion, w: ValidationOracle,
                            stamp: NoticeStamp)
    ensures var f := ValidateFinish(base, token, a, w, stamp);
      var c := ValidationComplete(base, token, a, w);
      && Ceremonies(f.events) == []
      && (f.result.Ok? <==> c.result.Ok?)
      && (f.result.Thrown? ==> f.result.error == c.result.error && Notices(f.events) == [])
      && (f.result.Ok? ==>
            && f.result == Ok(true)
            && NotifiesLast(f.events, Notify(ValidatedMessage, Success, stamp))
            && Notices(f.events) == [Notice(ValidatedMessage, Success, stamp)]
            && |Requests(f.events)| == 1
            && Requests(f.events)[0].body == AuthenticationCompleteBody(AssertionToWire(a)))
  {
    var c := ValidationComplete(base, token, a, w);
    ServiceRequest(base, CompleteAuthentication(AssertionToWire(a)), token, w.complete);
    if c.result.Ok? {
      NotifyProjections(ValidatedMessage, Success, stamp);
      ProjectionsAppend(c.events, Notify(ValidatedMessage, Success, stamp));
      NotifiesLastAfter(c.events, Notify(ValidatedMessage, Success, stamp));
    }
  }

  /** The ceremony step starts exactly one assertion ceremony, on the converted options, before
      anything else; a rejected ceremony is rethrown with no request made. */
  lemma ValidateCeremonyFacts(base: string, token: Option<string>, options: RequestOptionsWire, w: ValidationOracle,
                              stamp: NoticeStamp)
    ensures var g := ValidateCeremony(base, token, options, w, stamp);
      && Ceremonies(g.events) == [GetAssertion(RequestOptionsFromWire(options))]
      && (w.ceremony.Failed? ==> g.result == Thrown(w.ceremony.error) && Notices(g.events) == [] && Requests(g.events) == [])
      && (w.ceremony.Resolved? ==>
            var f := ValidateFinish(base, token, w.ceremony.value, w, stamp);
            && g.result == f.result && Notices(g.events) == Notices(f.events) && Requests(g.events) == Requests(f.events)
            && (f.result.Ok? ==> NotifiesLast(g.events, Notify(ValidatedMessage, Success, stamp))))
  {
    var e := CeremonyInvoked(GetAssertion(RequestOptionsFromWire(options)));
    ProjectionsOne(e);
    if w.ceremony.Resolved? {
      var f := ValidateFinish(base, token, w.ceremony.value, w, stamp);
      ValidateFinishFacts(base, token, w.ceremony.value, w, stamp);
      ProjectionsCons(e, f.events);
      if f.result.Ok? {
        NotifiesLastBefore([e], f.events, Notify(ValidatedMessage, Success, stamp));
      }
    }
  }

  /** The `try` block of validation succeeds exactly when the browser supports WebAuthn, the begin
      request succeeds, the ceremony resolves and the complete request succeeds; a failure
      notifies nothing and rethrows the error of the step that failed. */
  lemma ValidateTryFacts(base: string, u: User, token: Option<string>, w: ValidationOracle, stamp: NoticeStamp)
    ensures var t := ValidateTry(base, u, token, w, stamp);
      var b := ValidationBegin(base, u, token, w);
      && (t.result.Ok? <==>
            w.supported && b.result.Ok? && w.ceremony.Resolved?
            && ValidationComplete(base, token, w.ceremony.value, w).result.Ok?)
      && (t.result.Thrown? ==> Notices(t.events) == [])
      && (!w.supported ==> t == Outcome([], Thrown(Fail(NotSupportedMessage))))
      && (w.supported && b.result.Thrown? ==> t.result == Thrown(b.result.error) && Ceremonies(t.events) == [])
      && (w.supported && b.result.Ok? && w.ceremony.Failed? ==> t.result == Thrown(w.ceremony.error))
  {
    if w.supported {
      var b := ValidationBegin(base, u, token, w);
      ServiceRequest(base, StartAuthentication(u.id), token, w.begin);
      if b.result.Ok? {
        var g := ValidateCeremony(base, token, b.result.value, w, stamp);
        ValidateCeremonyFacts(base, token, b.result.value, w, stamp);
        ProjectionsAppend(b.events, g.events);
        if w.ceremony.Resolved? {
          ValidateFinishFacts(base, token, w.ceremony.value, w, stamp);
        }
      }
    }
  }

  /** The begin request of validation is one request to the authentication begin path, with no
      notification and no ceremony. */
  lemma ValidationBeginRequest(base: string, u: User, token: Option<string>, w: ValidationOracle)
    ensures var b := ValidationBegin(base, u, token, w);
      && |Requests(b.events)| == 1 && Requests(b.events)[0].url == base + "/webauthn/authenticate/begin"
      && Notices(b.events) == [] && Ceremonies(b.events) == []
  {
    ServiceRequest(base, StartAuthentication(u.id), token, w.begin);
  }

  /** A successful `try` block made the begin request, started one assertion ceremony on the
      converted options, sent the converted assertion and only then notified. */
  lemma ValidateTryOk(base: string, u: User, token: Option<string>, w: ValidationOracle, stamp: NoticeStamp)
    requires ValidateTry(base, u, token, w, stamp).result.Ok?
    ensures var t := ValidateTry(base, u, token, w, stamp);
      && t.result == Ok(true)
      && NotifiesLast(t.events, Notify(ValidatedMessage, Success, stamp))
      && Notices(t.events) == [Notice(ValidatedMessage, Success, stamp)]
      && |Requests(t.events)| == 2
      && Requests(t.events)[0].url == base + "/webauthn/authenticate/begin"
      && Requests(t.events)[1].body == AuthenticationCompleteBody(AssertionToWire(w.ceremony.value))
      && Ceremonies(t.events) == [GetAssertion(RequestOptionsFromWire(ValidationBegin(base, u, token, w).result.value))]
  {
    var b := ValidationBegin(base, u, token, w);
    ValidateTryFacts(base, u, token, w, stamp);
    var g := ValidateCeremony(base, token, b.result.value, w, stamp);
    assert ValidateTry(base, u, token, w, stamp) == Outcome(b.events + g.events, g.result);
    ValidationBeginRequest(base, u, token, w);
    ValidateCeremonyFacts(base, token, b.result.value, w, stamp);
    ValidateFinishFacts(base, token, w.ceremony.value, w, stamp);
    SuccessAfterBegin(b.events, g.events, Notify(ValidatedMessage, Success, stamp));
  }

  /** Without a user validation throws at once and does nothing else; with one but without a token it
      emits exactly one warning and makes no request. Past those checks exactly one notification is
      emitted: the success of the `try` block, or an error with the classified message, the very
      error that occurred being rethrown. */
  lemma ValidateProperties(base: string, user: Option<User>, token: Option<string>,
                           w: ValidationOracle, stamp: NoticeStamp)
    ensures var o := ValidateDeviceSpec(base, user, token, w, stamp);
      && (user.None? ==> o == Outcome([], Thrown(Fail("Missing user data for validation"))))
      && (user.Some? && !Truthy(token) ==>
            && o.result == Thrown(Fail("No authentication token available"))
            && Notices(o.events) == [Notice(NoTokenWarning, Warning, stamp)] && Requests(o.events) == [])
      && (user.Some? && Truthy(token) ==>
            var t := ValidateTry(base, user.value, token, w, stamp);
            && o.result == t.result
            && (o.result.Ok? ==> o == t && Notices(o.events) == [Notice(ValidatedMessage, Success, stamp)])
            && (o.result.Thrown? ==>
                  Notices(o.events) == [Notice(ClassifyCeremonyError(t.result.error, "Validation was cancelled or not allowed",
                                                                     "Failed to validate security key"), Error, stamp)]))
  {
    if user.Some? {
      if !Truthy(token) {
        NotifyProjections(NoTokenWarning, Warning, stamp);
      } else {
        var t := ValidateTry(base, user.value, token, w, stamp);
        ValidateTryFacts(base, user.value, token, w, stamp);
        if t.result.Thrown? {
          var m := ClassifyCeremonyError(t.result.error, "Validation was cancelled or not allowed", "Failed to validate security key");
          NotifyProjections(m, Error, stamp);
          ProjectionsAppend(t.events, Notify(m, Error, stamp));
        } else {
          ValidateTryOk(base, user.value, token, w, stamp);
        }
      }
    }
  }

  // ---------------------------------------------------------------------------------------------
  // deleteDevice

  datatype DeleteOracle = DeleteOracle(request: HttpOutcome<JsonText>, reload: HttpOutcome<DevicesPayload>, coin: bool)

  function DeleteDeviceSpec(base: string, user: Option<User>, token: Option<string>, deviceId: string,
                            w: DeleteOracle, stamp: NoticeStamp): Outcome<bool> {
    if !Truthy(token) then Outcome([], Thrown(Fail("Missing JWT token")))
    else
      var d := ServiceSpec(base, DeleteDevice(deviceId), token, w.request);
      if d.result.Thrown? then
        Outcome(d.events + Notify(MessageOr(d.result.error, "Failed to delete security key"), Error, stamp), Thrown(d.result.error))
      else
        Outcome(d.events + LoadDevicesEvents(base, user, token, w.reload, w.coin, stamp)
                + Notify("Security key deleted successfully", Success, stamp), Ok(true))
  }

  method DeleteDeviceHook(rt: Runtime, user: Option<User>, token: Option<string>, deviceId: string,
                          w: DeleteOracle, stamp: NoticeStamp) returns (r: Result<bool>)
    modifies rt
    ensures rt.trace == old(rt.trace) + DeleteDeviceSpec(rt.apiBase, user, token, deviceId, w, stamp).events
    ensures r == DeleteDeviceSpec(rt.apiBase, user, token, deviceId, w, stamp).result
  {
    if !Truthy(token) {
      return Thrown(Fail("Missing JWT token"));
    }
    ghost var t0 := rt.trace;
    var done := CallService(rt, DeleteDevice(deviceId), token, w.request);
    ghost var d := ServiceSpec(rt.apiBase, DeleteDevice(deviceId), token, w.request).events;
    if done.Thrown? {
      var m := MessageOr(done.error, "Failed to delete security key");
      var _ := AddNotificationNow(rt, m, Some(Error), None, stamp.id, stamp.timestamp);
      AppendAssoc(t0, d, Notify(m, Error, stamp));
      return Thrown(done.error);
    }
    LoadDevices(rt, user, token, w.reload, w.coin, stamp);
    var _ := AddNotificationNow(rt, "Security key deleted successfully", Some(Success), None, stamp.id, stamp.timestamp);
    ghost var l := LoadDevicesEvents(rt.apiBase, user, token, w.reload, w.coin, stamp);
    AppendAssoc(t0, d, l);
    AppendAssoc(t0, d + l, Notify("Security key deleted successfully", Success, stamp));
    r := Ok(true);
  }

  /** Without a token deletion throws `'Missing JWT token'` and does nothing else, no notification
      included. Otherwise it makes its DELETE request first; on failure it emits exactly one
      notification, with the error's message, and rethrows the error. */
  lemma DeleteProperties(base: string, user: Option<User>, token: Option<string>, deviceId: string,
                         w: DeleteOracle, stamp: NoticeStamp)
    ensures var o := DeleteDeviceSpec(base, user, token, deviceId, w, stamp);
      var d := ServiceSpec(base, DeleteDevice(deviceId), token, w.request);
      && (!Truthy(token) ==> o == Outcome([], Thrown(Fail("Missing JWT token"))))
      && (Truthy(token) ==>
            && o.result.Ok? == d.result.Ok?
            && Requests(o.events)[0].verb == DELETE
            && Requests(o.events)[0].url == base + "/webauthn/device/" + deviceId)
      && (Truthy(token) && o.result.Thrown? ==>
            && o.result == Thrown(d.result.error)
            && Notices(o.events) == [Notice(MessageOr(d.result.error, "Failed to delete security key"), Error, stamp)]
            && |Requests(o.events)| == 1)
  {
    if Truthy(token) {
      var d := ServiceSpec(base, DeleteDevice(deviceId), token, w.request);
      DeleteRequest(base, token, deviceId, w);
      if d.result.Thrown? {
        DeleteFailure(base, user, token, deviceId, w, stamp);
      } else {
        DeleteSuccess(base, user, token, deviceId, w, stamp);
      }
    }
  }

  /** The DELETE request of `deleteDevice`, to the device's path, notifying nothing. */
  lemma DeleteRequest(base: string, token: Option<string>, deviceId: string, w: DeleteOracle)
    ensures var d := ServiceSpec(base, DeleteDevice(deviceId), token, w.request);
      && |Requests(d.events)| == 1 && Notices(d.events) == [] && Ceremonies(d.events) == []
      && Requests(d.events)[0].verb == DELETE
      && Requests(d.events)[0].url == base + "/webauthn/device/" + deviceId
  {
    ServiceRequest(base, DeleteDevice(deviceId), token, w.request);
  }

  /** A failed deletion emits one error notice, after its only request, and rethrows. */
  lemma DeleteFailure(base: string, user: Option<User>, token: Option<string>, deviceId: string,
                      w: DeleteOracle, stamp: NoticeStamp)
    requires Truthy(token) && ServiceSpec(base, DeleteDevice(deviceId), token, w.request).result.Thrown?
    ensures var o := DeleteDeviceSpec(base, user, token, deviceId, w, stamp);
      var d := ServiceSpec(base, DeleteDevice(deviceId), token, w.request);
      && o.result == Thrown(d.result.error)
      && Notices(o.events) == [Notice(MessageOr(d.result.error, "Failed to delete security key"), Error, stamp)]
      && Requests(o.events) == Requests(d.events)
  {
    var d := ServiceSpec(base, DeleteDevice(deviceId), token, w.request);
    var m := MessageOr(d.result.error, "Failed to delete security key");
    DeleteRequest(base, token, deviceId, w);
    NotifyProjections(m, Error, stamp);
    ProjectionsAppend(d.events, Notify(m, Error, stamp));
  }

  /** A successful deletion reloads the devices when there is a user, and only then emits its one
      success notification. */
  lemma DeleteSuccess(base: string, user: Option<User>, token: Option<string>, deviceId: string,
                      w: DeleteOracle, stamp: NoticeStamp)
    requires Truthy(token) && ServiceSpec(base, DeleteDevice(deviceId), token, w.request).result.Ok?
    ensures var o := DeleteDeviceSpec(base, user, token, deviceId, w, stamp);
      && o.result == Ok(true)
      && NotifiesLast(o.events, Notify("Security key deleted successfully", Success, stamp))
      && Notices(o.events) == [Notice("Security key deleted successfully", Success, stamp)]
      && Requests(o.events)[0] == Requests(ServiceSpec(base, DeleteDevice(deviceId), token, w.request).events)[0]
      && |Requests(o.events)| == (if user.Some? then 2 else 1)
  {
    var d := ServiceSpec(base, DeleteDevice(deviceId), token, w.request);
    var l := LoadDevicesEvents(base, user, token, w.reload, w.coin, stamp);
    var n := Notify("Security key deleted successfully", Success, stamp);
    ServiceRequest(base, DeleteDevice(deviceId), token, w.request);
    LoadDevicesProperties(base, user, token, w.reload, w.coin, stamp);
    NotifyProjections("Security key deleted successfully", Success, stamp);
    ProjectionsAppend(d.events, l);
    ProjectionsAppend(d.events + l, n);
    NotifiesLastAfter(d.events + l, n);
  }

  /** Effects `d` with one request, then `l` whose only request is `r` and which dispatches `a`,
      then `n` without requests: the second request is `r`, and `a` is dispatched. */
  lemma SecondRequestOf(d: seq<Event>, l: seq<Event>, n: seq<Event>, r: Request, a: Action)
    requires |Requests(d)| == 1 && Requests(l) == [r] && Requests(n) == [] && a in Actions(l)
    ensures |Requests(d + l + n)| == 2 && Requests(d + l + n)[1] == r && a in Actions(d + l + n)
  {
    ProjectionsAppend(d, l);
    ProjectionsAppend(d + l, n);
  }

  /** The device reload of a signed-in user sends one request, the GET of that user's devices,
      and stores the list it settles on. */
  lemma ReloadFacts(base: string, u: User, token: Option<string>, reload: HttpOutcome<DevicesPayload>,
                    coin: bool, stamp: NoticeStamp)
    ensures var l := LoadDevicesEvents(base, Some(u), token, reload, coin, stamp);
      && |Requests(l)| == 1 && Requests(l)[0].url == base + "/webauthn/user/" + u.id + "/devices"
      && SetWebAuthnDevices(GetUserDevicesSpec(base, u.id, token, reload, coin).result.value) in Actions(l)
  {
    var l := LoadDevicesEvents(base, Some(u), token, reload, coin, stamp);
    LoadDevicesProperties(base, Some(u), token, reload, coin, stamp);
    GetUserDevicesTrace(base, u.id, token, reload, coin);
    assert Actions(l)[|Actions(l)| - 1] == SetWebAuthnDevices(GetUserDevicesSpec(base, u.id, token, reload, coin).result.value);
  }

  /** With a signed-in user, the reload after a successful deletion is the GET of that user's
      devices, and the list it settles on is stored. */
  lemma DeleteReloads(base: string, u: User, token: Option<string>, deviceId: string,
                      w: DeleteOracle, stamp: NoticeStamp)
    requires Truthy(token) && ServiceSpec(base, DeleteDevice(deviceId), token, w.request).result.Ok?
    ensures var o := DeleteDeviceSpec(base, Some(u), token, deviceId, w, stamp);
      && |Requests(o.events)| == 2
      && Requests(o.events)[1].url == base + "/webauthn/user/" + u.id + "/devices"
      && SetWebAuthnDevices(GetUserDevicesSpec(base, u.id, token, w.reload, w.coin).result.value) in Actions(o.events)
  {
    var d := ServiceSpec(base, DeleteDevice(deviceId), token, w.request).events;
    var l := LoadDevicesEvents(base, Some(u), token, w.reload, w.coin, stamp);
    var n := Notify("Security key deleted successfully", Success, stamp);
    assert DeleteDeviceSpec(base, Some(u), token, deviceId, w, stamp).events == d + l + n;
    DeleteRequest(base, token, deviceId, w);
    ReloadFacts(base, u, token, w.reload, w.coin, stamp);
    NotifyProjections("Security key deleted successfully", Success, stamp);
    SecondRequestOf(d, l, n, Requests(l)[0], SetWebAuthnDevices(GetUserDevicesSpec(base, u.id, token, w.reload, w.coin).result.value));
  }

  // ---------------------------------------------------------------------------------------------
  // getProfile, getBalances, getTransferHistory

  datatype Load = ProfileLoad | BalancesLoad | HistoryLoad

  function LoadCall(k: Load, userId: string): ServiceCall {
    match k
    case ProfileLoad => GetProfile(userId)
    case BalancesLoad => GetBalances(userId)
    case HistoryLoad => GetTransferHistory(userId)
  }

  function LoadFailureMessage(k: Load): string {
    match k
    case ProfileLoad => "Failed to load user profile"
    case BalancesLoad => "Failed to load balances"
    case HistoryLoad => "Failed to load transfer history"
  }

  /** A guarded load: `None` (the hook returns nothing) when the user or the token is missing. */
  function GuardedLoadSpec(base: string, k: Load, user: Option<User>, token: Option<string>,
                           outcome: HttpOutcome<JsonText>, stamp: NoticeStamp): Outcome<Option<JsonText>> {
    if user.None? || !Truthy(token) then Outcome([], Ok(None))
    else
      var c := ServiceSpec(base, LoadCall(k, user.value.id), token, outcome);
      if c.result.Ok? then Outcome(c.events, Ok(Some(c.result.value)))
      else Outcome(c.events + Notify(LoadFailureMessage(k), Error, stamp), Thrown(c.result.error))
  }

  method GuardedLoad(rt: Runtime, k: Load, user: Option<User>, token: Option<string>,
                     outcome: HttpOutcome<JsonText>, stamp: NoticeStamp) returns (r: Result<Option<JsonText>>)
    modifies rt
    ensures rt.trace == old(rt.trace) + GuardedLoadSpec(rt.apiBase, k, user, token, outcome, stamp).events
    ensures r == GuardedLoadSpec(rt.apiBase, k, user, token, outcome, stamp).result
  {
    if user.None? || !Truthy(token) {
      return Ok(None);
    }
    ghost var t0 := rt.trace;
    var data := CallService(rt, LoadCall(k, user.value.id), token, outcome);
    if data.Ok? {
      return Ok(Some(data.value));
    }
    var _ := AddNotificationNow(rt, LoadFailureMessage(k), Some(Error), None, stamp.id, stamp.timestamp);
    AppendAssoc(t0, ServiceSpec(rt.apiBase, LoadCall(k, user.value.id), token, outcome).events,
                Notify(LoadFailureMessage(k), Error, stamp));
    r := Thrown(data.error);
  }

  method GetProfileHook(rt: Runtime, user: Option<User>, token: Option<string>,
                        outcome: HttpOutcome<JsonText>, stamp: NoticeStamp) returns (r: Result<Option<JsonText>>)
    modifies rt
    ensures rt.trace == old(rt.trace) + GuardedLoadSpec(rt.apiBase, ProfileLoad, user, token, outcome, stamp).events
    ensures r == GuardedLoadSpec(rt.apiBase, ProfileLoad, user, token, outcome, stamp).result
  {
    r := GuardedLoad(rt, ProfileLoad, user, token, outcome, stamp);
  }

  method GetBalancesHook(rt: Runtime, user: Option<User>, token: Option<string>,
                         outcome: HttpOutcome<JsonText>, stamp: NoticeStamp) returns (r: Result<Option<JsonText>>)
    modifies rt
    ensures rt.trace == old(rt.trace) + GuardedLoadSpec(rt.apiBase, BalancesLoad, user, token, outcome, stamp).events
    ensures r == GuardedLoadSpec(rt.apiBase, BalancesLoad, user, token, outcome, stamp).result
  {
    r := GuardedLoad(rt, BalancesLoad, user, token, outcome, stamp);
  }

  method GetTransferHistoryHook(rt: Runtime, user: Option<User>, token: Option<string>,
                                outcome: HttpOutcome<JsonText>, stamp: NoticeStamp) returns (r: Result<Option<JsonText>>)
    modifies rt
    ensures rt.trace == old(rt.trace) + GuardedLoadSpec(rt.apiBase, HistoryLoad, user, token, outcome, stamp).events
    ensures r == GuardedLoadSpec(rt.apiBase, HistoryLoad, user, token, outcome, stamp).result
  {
    r := GuardedLoad(rt, HistoryLoad, user, token, outcome, stamp);
  }

  /** Without a user or a token a load returns nothing and does nothing. Otherwise it makes its one
      GET; success returns the data without any notification, failure emits exactly one `'error'`
      notification with the load's own text and rethrows the request's error. */
  lemma GuardedLoadProperties(base: string, k: Load, user: Option<User>, token: Option<string>,
                              outcome: HttpOutcome<JsonText>, stamp: NoticeStamp)
    ensures var o := GuardedLoadSpec(base, k, user, token, outcome, stamp);
      && (user.None? || !Truthy(token) ==> o == Outcome([], Ok(None)))
      && (user.Some? && Truthy(token) ==>
            var c := ServiceSpec(base, LoadCall(k, user.value.id), token, outcome);
            && Requests(o.events) == Requests(c.events) && |Requests(o.events)| == 1
            && Requests(o.events)[0].verb == GET
            && (c.result.Ok? ==> o.result == Ok(Some(c.result.value)) && Notices(o.events) == [])
            && (c.result.Thrown? ==>
                  o.result == Thrown(c.result.error) && Notices(o.events) == [Notice(LoadFailureMessage(k), Error, stamp)]))
  {
    if user.Some? && Truthy(token) {
      var c := ServiceSpec(base, LoadCall(k, user.value.id), token, outcome);
      ServiceRequest(base, LoadCall(k, user.value.id), token, outcome);
      NotifyProjections(LoadFailureMessage(k), Error, stamp);
      ProjectionsAppend(c.events, Notify(LoadFailureMessage(k), Error, stamp));
    }
  }

  // ---------------------------------------------------------------------------------------------
  // updateProfile, transferAssets

  datatype Mutation = ProfileUpdate(profile: JsonText) | AssetTransfer(transfer: JsonText)

  function MutationCall(m: Mutation, userId: string): ServiceCall {
    match m
    case ProfileUpdate(p) => UpdateProfile(userId, p)
    case AssetTransfer(t) => TransferAssets(t)
  }

  function MutationSuccess(m: Mutation): string {
    if m.ProfileUpdate? then "Profile updated successfully" else "Asset transfer completed successfully"
  }

  function MutationFallback(m: Mutation): string {
    if m.ProfileUpdate? then "Failed to update profile" else "Failed to transfer assets"
  }

  function GuardedMutationSpec(base: string, m: Mutation, user: Option<User>, token: Option<string>,
                               outcome: HttpOutcome<JsonText>, stamp: NoticeStamp): Outcome<JsonText> {
    if user.None? || !Truthy(token) then Outcome([], Thrown(Fail("Missing user data or JWT token")))
    else
      var c := ServiceSpec(base, MutationCall(m, user.value.id), token, outcome);
      if c.result.Ok? then Outcome(c.events + Notify(MutationSuccess(m), Success, stamp), c.result)
      else Outcome(c.events + Notify(MessageOr(c.result.error, MutationFallback(m)), Error, stamp), c.result)
  }

  method GuardedMutation(rt: Runtime, m: Mutation, user: Option<User>, token: Option<string>,
                         outcome: HttpOutcome<JsonText>, stamp: NoticeStamp) returns (r: Result<JsonText>)
    modifies rt
    ensures rt.trace == old(rt.trace) + GuardedMutationSpec(rt.apiBase, m, user, token, outcome, stamp).events
    ensures r == GuardedMutationSpec(rt.apiBase, m, user, token, outcome, stamp).result
  {
    if user.None? || !Truthy(token) {
      return Thrown(Fail("Missing user data or JWT token"));
    }
    ghost var t0 := rt.trace;
    r := CallService(rt, MutationCall(m, user.value.id), token, outcome);
    ghost var c := ServiceSpec(rt.apiBase, MutationCall(m, user.value.id), token, outcome).events;
    if r.Ok? {
      var _ := AddNotificationNow(rt, MutationSuccess(m), Some(Success), None, stamp.id, stamp.timestamp);
      AppendAssoc(t0, c, Notify(MutationSuccess(m), Success, stamp));
    } else {
      var _ := AddNotificationNow(rt, MessageOr(r.error, MutationFallback(m)), Some(Error), None, stamp.id, stamp.timestamp);
      AppendAssoc(t0, c, Notify(MessageOr(r.error, MutationFallback(m)), Error, stamp));
    }
  }

  method UpdateProfileHook(rt: Runtime, user: Option<User>, token: Option<string>, profile: JsonText,
                           outcome: HttpOutcome<JsonText>, stamp: NoticeStamp) returns (r: Result<JsonText>)
    modifies rt
    ensures rt.trace == old(rt.trace) + GuardedMutationSpec(rt.apiBase, ProfileUpdate(profile), user, token, outcome, stamp).events
    ensures r == GuardedMutationSpec(rt.apiBase, ProfileUpdate(profile), user, token, outcome, stamp).result
  {
    r := GuardedMutation(rt, ProfileUpdate(profile), user, token, outcome, stamp);
  }

  method TransferAssetsHook(rt: Runtime, user: Option<User>, token: Option<string>, transfer: JsonText,
                            outcome: HttpOutcome<JsonText>, stamp: NoticeStamp) returns (r: Result<JsonText>)
    modifies rt
    ensures rt.trace == old(rt.trace) + GuardedMutationSpec(rt.apiBase, AssetTransfer(transfer), user, token, outcome, stamp).events
    ensures r == GuardedMutationSpec(rt.apiBase, AssetTransfer(transfer), user, token, outcome, stamp).result
  {
    r := GuardedMutation(rt, AssetTransfer(transfer), user, token, outcome, stamp);
  }

  /** Without a user or a token the mutation throws and does nothing, no notification included.
      Otherwise it makes its one request and emits exactly one notification after it: a success
      with the data returned, or an error with the error's message and the same error rethrown. */
  lemma GuardedMutationProperties(base: string, m: Mutation, user: Option<User>, token: Option<string>,
                                  outcome: HttpOutcome<JsonText>, stamp: NoticeStamp)
    ensures var o := GuardedMutationSpec(base, m, user, token, outcome, stamp);
      && (user.None? || !Truthy(token) ==> o == Outcome([], Thrown(Fail("Missing user data or JWT token"))))
      && (user.Some? && Truthy(token) ==>
            var c := ServiceSpec(base, MutationCall(m, user.value.id), token, outcome);
            && o.result == c.result
            && Requests(o.events) == Requests(c.events) && |Requests(o.events)| == 1
            && o.events[..|c.events|] == c.events
            && Notices(o.events) == [if c.result.Ok? then Notice(MutationSuccess(m), Success, stamp)
                                     else Notice(MessageOr(c.result.error, MutationFallback(m)), Error, stamp)])
  {
    if user.Some? && Truthy(token) {
      var c := ServiceSpec(base, MutationCall(m, user.value.id), token, outcome);
      ServiceRequest(base, MutationCall(m, user.value.id), token, outcome);
      var msg := if c.result.Ok? then MutationSuccess(m) else MessageOr(c.result.error, MutationFallback(m));
      var sev := if c.result.Ok? then Success else Error;
      NotifyProjections(msg, sev, stamp);
      ProjectionsAppend(c.events, Notify(msg, sev, stamp));
    }
  }

  // ---------------------------------------------------------------------------------------------
  // clearAllNotifications, clearError, clearAllErrors

  function RemovalActions(ns: seq<Notification>): (acts: seq<Action>)
    ensures |acts| == |ns|
    ensures forall i :: 0 <= i < |ns| ==> acts[i] == RemoveNotification(ns[i].id)
  {
    seq(|ns|, i requires 0 <= i < |ns| => RemoveNotification(ns[i].id))
  }

  /** `notifications.forEach(n => removeNotification(n.id))` over the snapshot `ns`. */
  method ClearAllNotifications(rt: Runtime, ns: seq<Notification>)
    modifies rt
    ensures rt.trace == old(rt.trace) + Dispatches(RemovalActions(ns))
  {
    var i := 0;
    while i < |ns|
      invariant 0 <= i <= |ns|
      invariant rt.trace == old(rt.trace) + Dispatches(RemovalActions(ns[..i]))
    {
      assert Dispatches(RemovalActions(ns[..i + 1])) == Dispatches(RemovalActions(ns[..i])) + [Dispatched(RemoveNotification(ns[i].id))];
      RemoveNotificationNow(rt, ns[i].id);
      i := i + 1;
    }
    assert ns[..i] == ns;
  }

  /** Dispatched against the state it was read from, the removals leave the queue empty and
      change nothing else. */
  lemma ClearAllNotificationsEmpties(s: AppState, clock: seq<Timestamp>)
    requires |clock| == |s.notifications|
    ensures Run(s, RemovalActions(s.notifications), clock) == s.(notifications := [])
  {
    var acts := RemovalActions(s.notifications);
    RunRemovalsOnly(s, acts, clock);
    var r := Run(s, acts, clock);
    NoneSurvive(s.notifications, acts, r.notifications);
  }

  /** Entries of `ns` whose ids were all removed: none of them survives. */
  lemma NoneSurvive(ns: seq<Notification>, acts: seq<Action>, rest: seq<Notification>)
    requires acts == RemovalActions(ns)
    requires forall j :: 0 <= j < |rest| ==>
      rest[j] in ns && forall i :: 0 <= i < |acts| ==> rest[j].id != acts[i].id
    ensures rest == []
  {
    forall x | x in ns ensures exists i :: 0 <= i < |acts| && acts[i].id == x.id {
      var i :| 0 <= i < |ns| && ns[i] == x;
      assert acts[i].id == x.id;
    }
    FirstIsMember(rest);
  }

  /** A non-empty sequence holds its first element. */
  lemma FirstIsMember<T>(xs: seq<T>)
    ensures xs == [] || xs[0] in xs
  {
  }

  /** `clearError(key)`: one `CLEAR_API_ERROR` of that key. */
  method ClearError(rt: Runtime, key: string)
    modifies rt
    ensures rt.trace == old(rt.trace) + [Dispatched(ClearApiError(key))]
  {
    rt.Dispatch(ClearApiError(key));
  }

  function ClearActions(keys: seq<string>): (acts: seq<Action>)
    ensures |acts| == |keys|
    ensures forall i :: 0 <= i < |keys| ==> acts[i] == ClearApiError(keys[i])
  {
    seq(|keys|, i requires 0 <= i < |keys| => ClearApiError(keys[i]))
  }

  /** `Object.keys(apiErrors).forEach(clearError)` over the snapshot `errors`: one clear per key, in
      an order the model does not fix, returned as `order`. */
  method ClearAllErrors(rt: Runtime, errors: map<string, string>) returns (order: seq<string>)
    modifies rt
    ensures rt.trace == old(rt.trace) + Dispatches(ClearActions(order))
    ensures forall k :: k in errors <==> k in order
    ensures |order| == |errors|
  {
    var pending := errors.Keys;
    order := [];
    while pending != {}
      invariant pending <= errors.Keys
      invariant forall k :: k in errors <==> k in order || k in pending
      invariant forall k :: k in order ==> k !in pending
      invariant |order| + |pending| == |errors|
      invariant rt.trace == old(rt.trace) + Dispatches(ClearActions(order))
      decreases |pending|
    {
      var k :| k in pending;
      assert Dispatches(ClearActions(order + [k])) == Dispatches(ClearActions(order)) + [Dispatched(ClearApiError(k))];
      ClearError(rt, k);
      order := order + [k];
      pending := pending - {k};
    }
  }

  /** Dispatched against the state it was read from, the clears leave the error map empty and
      change nothing else. */
  lemma ClearAllErrorsEmpties(s: AppState, order: seq<string>, clock: seq<Timestamp>)
    requires forall k :: k in s.apiErrors <==> k in order
    requires |clock| == |order|
    ensures Run(s, ClearActions(order), clock) == s.(apiErrors := map[])
  {
    var acts := ClearActions(order);
    RunAloneClearsOnlyErrors(s, acts, clock);
    var r := Run(s, acts, clock);
    forall k | k in s.apiErrors ensures k in (set i | 0 <= i < |acts| :: acts[i].key) {
      var i :| 0 <= i < |order| && order[i] == k;
      assert acts[i].key == k;
    }
    assert r.apiErrors.Keys == {};
  }
}
