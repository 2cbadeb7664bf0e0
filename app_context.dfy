/** The global state store of the front end: the state record, the closed set of actions and the
    reducer that turns a state and an action into the next state. */
module AppContext {
  import opened Common

  /** The ISO-8601 text `new Date().toISOString()` yields; the reducer reads the clock, so the
      reading is a parameter of `Apply`. */
  type Timestamp = string

  /** `Date.now() + Math.random()`: a number, not guaranteed to be unique. */
  type NotificationId = real

  /** The identity-provider user as far as the core reads it: `user.id`,
      `user.primaryEmailAddress?.emailAddress` and `user.fullName`. */
  datatype User = User(id: string, primaryEmail: Option<string>, fullName: Option<string>)

  datatype Device = Device(id: string, name: string, createdAt: string, lastUsed: string)

  datatype Severity = Success | Error | Warning | Info

  datatype Notification = Notification(id: NotificationId, message: string, severity: Severity, timestamp: Timestamp)

  /** The payload of `SET_WEBAUTHN_DEVICES`: a response body whose `devices` member may be missing. */
  datatype DevicesPayload = DevicesPayload(devices: Option<seq<Device>>)

  datatype AppState = AppState(
    user: Option<User>,
    isUserLoaded: bool,
    jwtToken: Option<string>,
    tokenLoading: bool,
    webAuthnDevices: seq<Device>,
    hasWebAuthnDevice: bool,
    webAuthnLoading: bool,
    apiErrors: map<string, string>,
    lastUpdated: Option<Timestamp>,
    notifications: seq<Notification>)

  const InitialState := AppState(None, false, None, false, [], false, false, map[], None, [])

  /** The eleven action types, plus `Unknown` for an action object whose `type` is none of them. */
  datatype Action =
    | SetUser(user: Option<User>)
    | SetUserLoaded(loaded: bool)
    | SetJwtToken(token: Option<string>)
    | SetTokenLoading(loading: bool)
    | SetWebAuthnDevices(payload: DevicesPayload)
    | SetWebAuthnLoading(loading: bool)
    | SetApiError(key: string, error: string)
    | ClearApiError(key: string)
    | AddNotification(notification: Notification)
    | RemoveNotification(id: NotificationId)
    | ResetState
    | Unknown(tag: string)

  /** `hasWebAuthnDevice` is the derived flag `webAuthnDevices.length > 0`. */
  predicate HasDeviceInvariant(s: AppState) {
    s.hasWebAuthnDevice == (|s.webAuthnDevices| > 0)
  }

  /** `payload.devices || []`. */
  function DevicesOf(p: DevicesPayload): seq<Device> {
    p.devices.GetOr([])
  }

  /** `notifications.filter(n => n.id !== id)`. */
  function RemoveById(ns: seq<Notification>, id: NotificationId): seq<Notification> {
    Filter(ns, (n: Notification) => n.id != id)
  }

  /** The reducer. It is total: every action, the unknown ones included, yields a state. */
  function Apply(s: AppState, a: Action, now: Timestamp): (r: AppState)
    ensures HasDeviceInvariant(s) ==> HasDeviceInvariant(r)
    ensures r.lastUpdated != s.lastUpdated ==> a.SetUser? || a.SetJwtToken? || a.SetWebAuthnDevices? || a.ResetState?
    ensures a.SetJwtToken? ==> !r.tokenLoading && r.jwtToken == a.token
    ensures r.notifications != s.notifications ==> a.AddNotification? || a.RemoveNotification? || a.ResetState?
    ensures r.apiErrors != s.apiErrors ==> a.SetApiError? || a.ClearApiError? || a.ResetState?
  {
    match a
    case SetUser(u) => s.(user := u, lastUpdated := Some(now))
    case SetUserLoaded(b) => s.(isUserLoaded := b)
    case SetJwtToken(t) => s.(jwtToken := t, tokenLoading := false, lastUpdated := Some(now))
    case SetTokenLoading(b) => s.(tokenLoading := b)
    case SetWebAuthnDevices(p) =>
      s.(webAuthnDevices := DevicesOf(p), hasWebAuthnDevice := |DevicesOf(p)| > 0,
         webAuthnLoading := false, lastUpdated := Some(now))
    case SetWebAuthnLoading(b) => s.(webAuthnLoading := b)
    case SetApiError(k, e) => s.(apiErrors := s.apiErrors[k := e])
    case ClearApiError(k) => s.(apiErrors := s.apiErrors - {k})
    case AddNotification(n) => s.(notifications := s.notifications + [n])
    case RemoveNotification(id) => s.(notifications := RemoveById(s.notifications, id))
    case ResetState => InitialState
    case Unknown(_) => s
  }

  /** The state after dispatching `acts` in order, `clock[i]` being the time of the i-th dispatch. */
  function Run(s: AppState, acts: seq<Action>, clock: seq<Timestamp>): AppState
    requires |clock| == |acts|
    decreases |acts|
  {
    if acts == [] then s else Run(Apply(s, acts[0], clock[0]), acts[1..], clock[1..])
  }

  // ---------------------------------------------------------------------------------------------
  // Properties of single transitions

  lemma InitialStateProperties()
    ensures HasDeviceInvariant(InitialState)
    ensures InitialState.apiErrors == map[] && InitialState.notifications == []
    ensures InitialState.user.None? && InitialState.jwtToken.None? && !InitialState.tokenLoading
  {
  }

  /** A devices update re-establishes the derived flag whatever the prior state, and a payload
      without a `devices` member yields an empty list and clears the loading flag. */
  lemma SetDevicesProperties(s: AppState, p: DevicesPayload, now: Timestamp)
    ensures var r := Apply(s, SetWebAuthnDevices(p), now);
      HasDeviceInvariant(r) && !r.webAuthnLoading && r.lastUpdated == Some(now)
      && (p.devices.None? ==> r.webAuthnDevices == [] && !r.hasWebAuthnDevice)
      && (p.devices.Some? ==> r.webAuthnDevices == p.devices.value)
  {
  }

  /** `SET_JWT_TOKEN` stores any token, null included, and always ends loading. */
  lemma SetJwtTokenProperties(s: AppState, t: Option<string>, now: Timestamp)
    ensures Apply(s, SetJwtToken(t), now) == s.(jwtToken := t, tokenLoading := false, lastUpdated := Some(now))
  {
  }

  /** `SET_API_ERROR` records the message under its key and changes nothing else. */
  lemma SetApiErrorProperties(s: AppState, k: string, e: string, now: Timestamp)
    ensures var r := Apply(s, SetApiError(k, e), now);
      k in r.apiErrors && r.apiErrors[k] == e
      && r.apiErrors.Keys == s.apiErrors.Keys + {k}
      && (forall k' :: k' in s.apiErrors && k' != k ==> r.apiErrors[k'] == s.apiErrors[k'])
      && r == s.(apiErrors := r.apiErrors)
  {
  }

  /** `CLEAR_API_ERROR` removes exactly its key, is idempotent and leaves a map without the key equal. */
  lemma ClearApiErrorProperties(s: AppState, k: string, now: Timestamp, later: Timestamp)
    ensures var r := Apply(s, ClearApiError(k), now);
      k !in r.apiErrors
      && r.apiErrors.Keys == s.apiErrors.Keys - {k}
      && (forall k' :: k' in r.apiErrors ==> r.apiErrors[k'] == s.apiErrors[k'])
      && r == s.(apiErrors := r.apiErrors)
      && Apply(r, ClearApiError(k), later) == r
      && (k !in s.apiErrors ==> r == s)
  {
    var r := Apply(s, ClearApiError(k), now);
    assert r.apiErrors - {k} == r.apiErrors;
    if k !in s.apiErrors {
      assert s.apiErrors - {k} == s.apiErrors;
    }
  }

  /** `ADD_NOTIFICATION` puts the notification last and keeps the earlier ones in their order. */
  lemma AddNotificationProperties(s: AppState, n: Notification, now: Timestamp)
    ensures var r := Apply(s, AddNotification(n), now);
      |r.notifications| == |s.notifications| + 1
      && r.notifications[..|s.notifications|] == s.notifications
      && r.notifications[|s.notifications|] == n
      && r == s.(notifications := r.notifications)
  {
  }

  /** `REMOVE_NOTIFICATION` drops every entry with the id, keeps every other entry, keeps the order
      (it distributes over concatenation), is idempotent, and leaves a queue without the id as it was. */
  lemma RemoveNotificationProperties(s: AppState, id: NotificationId, now: Timestamp, later: Timestamp)
    ensures var r := Apply(s, RemoveNotification(id), now);
      (forall i :: 0 <= i < |r.notifications| ==> r.notifications[i].id != id)
      && (forall i :: 0 <= i < |s.notifications| && s.notifications[i].id != id ==> s.notifications[i] in r.notifications)
      && (forall i :: 0 <= i < |r.notifications| ==> r.notifications[i] in s.notifications)
      && Apply(r, RemoveNotification(id), later) == r
      && ((forall i :: 0 <= i < |s.notifications| ==> s.notifications[i].id != id) ==> r == s)
      && r == s.(notifications := r.notifications)
  {
    var kept := RemoveById(s.notifications, id);
    assert Apply(s, RemoveNotification(id), now) == s.(notifications := kept);
    assert Apply(s.(notifications := kept), RemoveNotification(id), later) == s.(notifications := RemoveById(kept, id));
    FilterIdempotent(s.notifications, (n: Notification) => n.id != id);
    if forall i :: 0 <= i < |s.notifications| ==> s.notifications[i].id != id {
      FilterAllKept(s.notifications, (n: Notification) => n.id != id);
    }
  }

  lemma RemoveByIdAppend(xs: seq<Notification>, ys: seq<Notification>, id: NotificationId)
    ensures RemoveById(xs + ys, id) == RemoveById(xs, id) + RemoveById(ys, id)
  {
    FilterAppend(xs, ys, (n: Notification) => n.id != id);
  }

  /** Only `SET_USER`, `SET_JWT_TOKEN` and `SET_WEBAUTHN_DEVICES` stamp `lastUpdated` (with the
      dispatch time); `RESET_STATE` sets it back to null; every other action leaves it as it was.
      `SET_USER_LOADED` stores its flag as given, so the flag can go back to false. */
  lemma LastUpdatedProperties(s: AppState, a: Action, now: Timestamp)
    ensures var r := Apply(s, a, now);
      (a.SetUser? || a.SetJwtToken? || a.SetWebAuthnDevices? ==> r.lastUpdated == Some(now))
      && (a.ResetState? ==> r.lastUpdated.None?)
      && (!(a.SetUser? || a.SetJwtToken? || a.SetWebAuthnDevices? || a.ResetState?) ==> r.lastUpdated == s.lastUpdated)
      && (a.SetUserLoaded? ==> r.isUserLoaded == a.loaded)
  {
  }

  /** `RESET_STATE` yields exactly the initial state; an unknown action yields the state unchanged. */
  lemma ResetAndUnknownProperties(s: AppState, tag: string, now: Timestamp)
    ensures Apply(s, ResetState, now) == InitialState
    ensures Apply(s, Unknown(tag), now) == s
  {
  }

  // ---------------------------------------------------------------------------------------------
  // Properties of dispatch sequences

  lemma {:induction false} RunAppend(s: AppState, a: seq<Action>, ca: seq<Timestamp>, b: seq<Action>, cb: seq<Timestamp>)
    requires |ca| == |a| && |cb| == |b|
    ensures Run(s, a + b, ca + cb) == Run(Run(s, a, ca), b, cb)
    decreases |a|
  {
    if a == [] {
      assert a + b == b && ca + cb == cb;
    } else {
      assert (a + b)[1..] == a[1..] + b && (ca + cb)[1..] == ca[1..] + cb;
      RunAppend(Apply(s, a[0], ca[0]), a[1..], ca[1..], b, cb);
    }
  }

  /** Dispatching one more action after a sequence applies it to the state the sequence reached. */
  lemma RunSnoc(s: AppState, acts: seq<Action>, clock: seq<Timestamp>, a: Action, now: Timestamp)
    requires |clock| == |acts|
    ensures Run(s, acts + [a], clock + [now]) == Apply(Run(s, acts, clock), a, now)
  {
    RunAppend(s, acts, clock, [a], [now]);
  }

  /** The derived-flag invariant holds in the initial state and after every dispatch sequence. */
  lemma {:induction false} RunPreservesHasDevice(s: AppState, acts: seq<Action>, clock: seq<Timestamp>)
    requires |clock| == |acts| && HasDeviceInvariant(s)
    ensures HasDeviceInvariant(Run(s, acts, clock))
    decreases |acts|
  {
    if acts != [] {
      RunPreservesHasDevice(Apply(s, acts[0], clock[0]), acts[1..], clock[1..]);
    }
  }

  lemma {:induction false} RunAloneClearsOnlyErrors(s: AppState, acts: seq<Action>, clock: seq<Timestamp>)
    requires |clock| == |acts|
    requires forall i :: 0 <= i < |acts| ==> acts[i].ClearApiError?
    ensures var r := Run(s, acts, clock);
      r == s.(apiErrors := r.apiErrors)
      && r.apiErrors.Keys == s.apiErrors.Keys - (set i | 0 <= i < |acts| :: acts[i].key)
      && (forall k :: k in r.apiErrors ==> r.apiErrors[k] == s.apiErrors[k])
    decreases |acts|
  {
    if acts != [] {
      var s1 := Apply(s, acts[0], clock[0]);
      RunAloneClearsOnlyErrors(s1, acts[1..], clock[1..]);
      var keys := set i | 0 <= i < |acts| :: acts[i].key;
      var rest := set i | 0 <= i < |acts[1..]| :: acts[1..][i].key;
      assert keys == {acts[0].key} + rest by {
        forall k | k in keys ensures k in {acts[0].key} + rest {
          var i :| 0 <= i < |acts| && acts[i].key == k;
          if i > 0 { assert acts[1..][i - 1].key == k; }
        }
        forall k | k in rest ensures k in keys {
          var i :| 0 <= i < |acts[1..]| && acts[1..][i].key == k;
          assert acts[i + 1].key == k;
        }
      }
    }
  }

  lemma {:induction false} RunRemovalsOnly(s: AppState, acts: seq<Action>, clock: seq<Timestamp>)
    requires |clock| == |acts|
    requires forall i :: 0 <= i < |acts| ==> acts[i].RemoveNotification?
    ensures var r := Run(s, acts, clock);
      r == s.(notifications := r.notifications)
      && (forall j :: 0 <= j < |r.notifications| ==>
            r.notifications[j] in s.notifications && forall i :: 0 <= i < |acts| ==> r.notifications[j].id != acts[i].id)
    decreases |acts|
  {
    if acts != [] {
      var s1 := Apply(s, acts[0], clock[0]);
      RunRemovalsOnly(s1, acts[1..], clock[1..]);
      var r := Run(s, acts, clock);
      forall j | 0 <= j < |r.notifications|
        ensures r.notifications[j] in s.notifications
        ensures forall i :: 0 <= i < |acts| ==> r.notifications[j].id != acts[i].id
      {
        forall i | 0 <= i < |acts| ensures r.notifications[j].id != acts[i].id {
          if i > 0 { assert acts[1..][i - 1] == acts[i]; }
        }
      }
    }
  }
}
