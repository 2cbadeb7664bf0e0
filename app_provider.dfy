/** The provider component of the store: the two effects that keep the store in step with the
    identity provider. The first copies the signed-in user and the loaded flag; the second fetches
    a fresh session token whenever the user, the loaded flag or the session changes. The identity
    provider's readings at a render and the settlement of `session.getToken()` are parameters. */
module AppProvider {
  import opened Common
  import opened AppContext
  import opened Effects

  /** What the user effect dispatches: the user (null when signed out) and the loaded flag. */
  function UserSync(user: Option<User>, isLoaded: bool): (acts: seq<Action>)
    ensures |acts| == 2 && acts[0] == SetUser(user) && acts[1] == SetUserLoaded(isLoaded)
  {
    [SetUser(user), SetUserLoaded(isLoaded)]
  }

  method SyncUser(rt: Runtime, user: Option<User>, isLoaded: bool)
    modifies rt
    ensures rt.trace == old(rt.trace) + Dispatches(UserSync(user, isLoaded))
  {
    rt.Dispatch(SetUser(user));
    rt.Dispatch(SetUserLoaded(isLoaded));
  }

  /** After the user effect the store holds exactly the identity provider's user and loaded flag;
      nothing else changes but the `lastUpdated` stamp of `SET_USER`. */
  lemma UserSyncOnStore(s: AppState, user: Option<User>, isLoaded: bool, clock: seq<Timestamp>)
    requires |clock| == 2
    ensures Run(s, UserSync(user, isLoaded), clock)
         == s.(user := user, isUserLoaded := isLoaded, lastUpdated := Some(clock[0]))
  {
    var acts := UserSync(user, isLoaded);
    var s1 := Apply(s, acts[0], clock[0]);
    assert Run(s, acts, clock) == Run(s1, acts[1..], clock[1..]);
    assert Run(s1, acts[1..], clock[1..]) == Run(Apply(s1, acts[1], clock[1]), acts[2..], clock[2..]);
  }

  /** How `session.getToken()` settles: a token (possibly null) or a rejection. */
  datatype TokenOutcome = TokenIssued(token: Option<string>) | TokenFailed(error: JsError)

  const JwtErrorKey := "jwt"

  /** `user && isLoaded && session`, the signed-in test of the token effect. */
  predicate SignedIn(user: Option<User>, isLoaded: bool, hasSession: bool) {
    user.Some? && isLoaded && hasSession
  }

  /** What the token effect dispatches. Signed in: the loading flag, then the token or (on a
      rejection) a null token and the `'jwt'` error, and in the `finally` the flag cleared.
      Otherwise: a null token and the flag cleared. */
  function TokenRefresh(user: Option<User>, isLoaded: bool, hasSession: bool, outcome: TokenOutcome): seq<Action> {
    if SignedIn(user, isLoaded, hasSession) then
      match outcome
      case TokenIssued(t) => [SetTokenLoading(true), SetJwtToken(t), SetTokenLoading(false)]
      case TokenFailed(e) =>
        [SetTokenLoading(true), SetJwtToken(None), SetApiError(JwtErrorKey, "Token retrieval failed: " + e.message),
         SetTokenLoading(false)]
    else [SetJwtToken(None), SetTokenLoading(false)]
  }

  method RefreshToken(rt: Runtime, user: Option<User>, isLoaded: bool, hasSession: bool, outcome: TokenOutcome)
    modifies rt
    ensures rt.trace == old(rt.trace) + Dispatches(TokenRefresh(user, isLoaded, hasSession, outcome))
  {
    if user.Some? && isLoaded && hasSession {
      rt.Dispatch(SetTokenLoading(true));
      match outcome {
        case TokenIssued(t) =>
          rt.Dispatch(SetJwtToken(t));
        case TokenFailed(e) =>
          rt.Dispatch(SetJwtToken(None));
          rt.Dispatch(SetApiError(JwtErrorKey, "Token retrieval failed: " + e.message));
      }
      rt.Dispatch(SetTokenLoading(false));
    } else {
      rt.Dispatch(SetJwtToken(None));
      rt.Dispatch(SetTokenLoading(false));
    }
  }

  /** Whatever happens, the token effect ends with loading off. The store holds the issued token
      only when signed in and `getToken` resolved; signed out, or on a rejection, the token is
      null. A rejection records `'Token retrieval failed: '` and the error's message under
      `'jwt'`; otherwise the error map is untouched. User, devices and notifications never
      change. */
  lemma TokenRefreshOnStore(s: AppState, user: Option<User>, isLoaded: bool, hasSession: bool,
                            outcome: TokenOutcome, clock: seq<Timestamp>)
    requires |clock| == |TokenRefresh(user, isLoaded, hasSession, outcome)|
    ensures var r := Run(s, TokenRefresh(user, isLoaded, hasSession, outcome), clock);
      && !r.tokenLoading
      && (SignedIn(user, isLoaded, hasSession) && outcome.TokenIssued? ==> r.jwtToken == outcome.token)
      && (!SignedIn(user, isLoaded, hasSession) || outcome.TokenFailed? ==> r.jwtToken.None?)
      && (SignedIn(user, isLoaded, hasSession) && outcome.TokenFailed? ==>
            r.apiErrors == s.apiErrors[JwtErrorKey := "Token retrieval failed: " + outcome.error.message])
      && (!SignedIn(user, isLoaded, hasSession) || outcome.TokenIssued? ==> r.apiErrors == s.apiErrors)
      && r.user == s.user && r.isUserLoaded == s.isUserLoaded
      && r.webAuthnDevices == s.webAuthnDevices && r.notifications == s.notifications
  {
    var acts := TokenRefresh(user, isLoaded, hasSession, outcome);
    var s1 := Apply(s, acts[0], clock[0]);
    assert Run(s, acts, clock) == Run(s1, acts[1..], clock[1..]);
    var s2 := Apply(s1, acts[1], clock[1]);
    assert Run(s1, acts[1..], clock[1..]) == Run(s2, acts[2..], clock[2..]);
    if |acts| > 2 {
      var s3 := Apply(s2, acts[2], clock[2]);
      assert Run(s2, acts[2..], clock[2..]) == Run(s3, acts[3..], clock[3..]);
      if |acts| > 3 {
        assert Run(s3, acts[3..], clock[3..]) == Run(Apply(s3, acts[3], clock[3]), acts[4..], clock[4..]);
      }
    }
  }

  /** Signing out clears the token, whatever the token effect saw before. */
  lemma SignOutClearsToken(s: AppState, isLoaded: bool, hasSession: bool, outcome: TokenOutcome, clock: seq<Timestamp>)
    requires |clock| == 2
    ensures var r := Run(s, TokenRefresh(None, isLoaded, hasSession, outcome), clock);
      r.jwtToken.None? && !r.tokenLoading && r.apiErrors == s.apiErrors
  {
    TokenRefreshOnStore(s, None, isLoaded, hasSession, outcome, clock);
  }
}
