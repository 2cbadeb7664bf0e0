/** The admin site's WebAuthn gate: decisions over the request's session dictionary. A session
    holds `webauthn_verified` once a security-key ceremony completed, `admin_redirect_url` while
    an admin page waits for that ceremony, and `webauthn_verified_at`. The site is mounted at
    `/admin/`, so its named routes reverse to the paths below. */
module AdminGate {
  import opened Common
  import opened Django
  import opened WebAuthnModels

  /** A value stored in the session: the gate stores booleans and text. */
  datatype SessionValue = Flag(b: bool) | Text(s: string)

  /** Python truthiness of a session value. */
  predicate TruthyValue(v: SessionValue) {
    match v
    case Flag(b) => b
    case Text(s) => s != ""
  }

  type SessionData = map<string, SessionValue>

  const VerifiedKey := "webauthn_verified"
  const RedirectKey := "admin_redirect_url"
  const VerifiedAtKey := "webauthn_verified_at"

  const IndexPath := "/admin/"                 // reverse('admin:index')
  const LoginPath := "/admin/login/"           // reverse('admin:login')
  const VerifyPath := "/admin/webauthn-verify/" // reverse('admin:webauthn_verify')
  const CompletePath := "/admin/webauthn-verify-complete/" // reverse('admin:webauthn_verify_complete')
  const LogoutPath := "/admin/logout/"         // reverse('admin:logout')
  const SignInPath := "/sign-in"
  const SecurityPath := "/security"
  const NoKeyMessage := "You need to set up a security key before accessing the admin panel."

  /** `request.session.get('webauthn_verified')` is truthy. */
  predicate Verified(session: SessionData) {
    VerifiedKey in session && TruthyValue(session[VerifiedKey])
  }

  /** `WebAuthnAdminSite.has_permission`: the base permission (an active staff member) is
      required; the login page needs nothing more; every other page needs a verified session. */
  function HasPermission(basePermission: bool, path: string, session: SessionData): (r: bool)
    ensures !basePermission ==> !r
    ensures basePermission && path == LoginPath ==> r
    ensures basePermission && path != LoginPath ==> (r <==> Verified(session))
    ensures r <==> basePermission && (path == LoginPath || Verified(session))
  {
    if !basePermission then false
    else if path == LoginPath then true
    else VerifiedKey in session && TruthyValue(session[VerifiedKey])
  }

  /** Where `WebAuthnAdminSite.login` sends a request. */
  function LoginRedirect(isAuthenticated: bool, isStaff: bool): (url: string)
    ensures url == VerifyPath <==> isAuthenticated && isStaff
    ensures url == VerifyPath || url == SignInPath
  {
    if isAuthenticated && isStaff then VerifyPath else SignInPath
  }

  /** What Django's `AdminSite.admin_view` wrapper does with a request for a wrapped view. */
  datatype AdminViewOutcome = ToLogin(next: string) | ToIndex | Dispatch

  /** `self.admin_view(view)`, which wraps both custom views: a request `has_permission` refuses
      is sent to the login page with its full path as `next` (a refused logout goes to the index
      instead); a permitted one runs the view. `permitted` is the site's `has_permission`. */
  function AdminView(permitted: bool, path: string, fullPath: string): (o: AdminViewOutcome)
    ensures o == Dispatch <==> permitted
    ensures !permitted && path != LogoutPath ==> o == ToLogin(fullPath)
  {
    if permitted then Dispatch
    else if path == LogoutPath then ToIndex
    else ToLogin(fullPath)
  }

  /** `has_permission` as corrected: the two ceremony views are exempt from the verified-session
      test, like the login page, so that a staff member can reach the ceremony at all. */
  function HasPermissionCorrected(basePermission: bool, path: string, session: SessionData): (r: bool)
    ensures r <==> basePermission && (path == LoginPath || path == VerifyPath || path == CompletePath || Verified(session))
    ensures path != VerifyPath && path != CompletePath ==> r == HasPermission(basePermission, path, session)
  {
    basePermission && (path == LoginPath || path == VerifyPath || path == CompletePath || Verified(session))
  }

  /** The admin site's permission, as written or as corrected. */
  function SitePermission(corrected: bool, basePermission: bool, path: string, session: SessionData): bool {
    if corrected then HasPermissionCorrected(basePermission, path, session) else HasPermission(basePermission, path, session)
  }

  /** One request of a signed-in active staff member's browser to the admin site under
      `session` (the login override and the wrapper's redirects leave the session as it is):
      the path the browser is sent to next, or `None` once a view runs. The custom login page
      is not wrapped; the view paths of the site are wrapped by `admin_view`. */
  function StaffHop(corrected: bool, path: string, session: SessionData): Option<string> {
    if path == LoginPath then Some(LoginRedirect(true, true))
    else match AdminView(SitePermission(corrected, true, path, session), path, path)
      case Dispatch => None
      case ToIndex => Some(IndexPath)
      case ToLogin(_) => Some(LoginPath)
  }

  /** The path requested after following `n` redirects from `path`, or `None` once a view ran.
      A redirect to the login page carries `?next=`, whose path is the login path. */
  function StaffWalk(corrected: bool, path: string, session: SessionData, n: nat): Option<string>
    decreases n
  {
    if n == 0 then Some(path)
    else match StaffHop(corrected, path, session)
      case None => None
      case Some(p) => StaffWalk(corrected, p, session, n - 1)
  }

  /** As written, a staff member whose session is not verified is redirected for ever between the
      login page and the verification page: no number of redirects reaches a view, so neither the
      verification page nor its completion ever runs, and nothing sets the verified flag. */
  lemma {:induction false} StaffLoginLoops(session: SessionData, path: string, n: nat)
    requires !Verified(session)
    requires path == LoginPath || path == VerifyPath || path == CompletePath
    ensures var w := StaffWalk(false, path, session, n);
      w.Some? && (w.value == path || w.value == LoginPath || w.value == VerifyPath)
    decreases n
  {
    if n > 0 {
      var p := StaffHop(false, path, session);
      assert p == Some(if path == LoginPath then VerifyPath else LoginPath);
      StaffLoginLoops(session, p.value, n - 1);
    }
  }

  /** With the ceremony views exempt, the login page leads a staff member to the verification
      page, which runs, while every page other than the login and the two ceremony views is still
      refused to the unverified session. */
  lemma CorrectedGateReachesCeremony(session: SessionData, path: string)
    requires !Verified(session)
    ensures StaffWalk(true, LoginPath, session, 1) == Some(VerifyPath)
    ensures StaffWalk(true, LoginPath, session, 2).None?
    ensures path != LoginPath && path != VerifyPath && path != CompletePath ==> !HasPermissionCorrected(true, path, session)
  {
  }

  /** What the exemption also opens: the completion view runs for an unverified staff session,
      and since it sets the flag on any POST without looking at an assertion, one POST to it, with
      no security-key ceremony at all, opens every admin page. */
  lemma CorrectedCompletionNeedsNoCeremony(session: SessionData, nowIso: string, path: string)
    requires !Verified(session)
    ensures StaffHop(true, CompletePath, session).None?
    ensures HasPermissionCorrected(true, path, VerifyCompleteStep(session, true, nowIso).session)
  {
  }

  /** What `webauthn_verify_view` answers. */
  datatype VerifyPage =
    | RedirectWithError(url: string, message: string)
    | VerificationPage(title: string, hasPermission: bool)

  /** `webauthn_verify_view` for the signed-in user: without a registered security key the user
      is sent to the security page with an error; otherwise the verification page is rendered. */
  function VerifyView(cs: seq<Credential>, userId: nat): (page: VerifyPage)
    ensures page.RedirectWithError? <==> CredentialsOf(cs, userId) == []
    ensures page.RedirectWithError? ==> page == RedirectWithError(SecurityPath, NoKeyMessage)
    ensures page.VerificationPage? ==> page == VerificationPage("Verify Your Identity", true)
  {
    HasCredentialsIff(cs, userId);
    if !HasCredentials(cs, userId) then RedirectWithError(SecurityPath, NoKeyMessage)
    else VerificationPage("Verify Your Identity", true)
  }

  /** `UserAdmin.has_add_permission`: users are never added through the admin, only through
      Clerk. */
  function UserAdminHasAddPermission(isSuperuser: bool): (r: bool)
    ensures !r
  {
    false
  }

  /** What the `webauthn_required` decorator does with a request. */
  datatype GateOutcome = RedirectTo(url: string) | RunView

  /** The JSON answer of `webauthn_verify_complete`. */
  datatype CompleteReply = Proceed(redirectUrl: SessionValue) | InvalidRequest

  const TimezoneHasNoNow := PyException("AttributeError", "type object 'datetime.timezone' has no attribute 'now'")

  /** A session and its reply after a call. */
  datatype SessionStep = SessionStep(session: SessionData, result: PyResult<CompleteReply>)

  /** `webauthn_verify_complete` as written: on POST the flag is set, then `timezone.now()` raises
      because `timezone` is `datetime.timezone`; the redirect URL is never popped. */
  function VerifyCompleteAsWrittenStep(session: SessionData, isPost: bool): (s: SessionStep)
    ensures !isPost ==> s == SessionStep(session, Returned(InvalidRequest))
    ensures isPost ==> s.result.Raised? && s.session == session[VerifiedKey := Flag(true)]
  {
    if !isPost then SessionStep(session, Returned(InvalidRequest))
    else SessionStep(session[VerifiedKey := Flag(true)], Raised(TimezoneHasNoNow))
  }

  /** `webauthn_verify_complete` with Django's `timezone.now()`: on POST the flag and the time
      are set and the waiting URL is popped and returned, or the admin index when none waits;
      any other method changes nothing. */
  function VerifyCompleteStep(session: SessionData, isPost: bool, nowIso: string): (s: SessionStep)
    ensures !isPost ==> s == SessionStep(session, Returned(InvalidRequest))
    ensures isPost ==>
      && Verified(s.session)
      && VerifiedAtKey in s.session && s.session[VerifiedAtKey] == Text(nowIso)
      && RedirectKey !in s.session
      && (forall k :: k in s.session <==> (k in session && k != RedirectKey) || k == VerifiedKey || k == VerifiedAtKey)
      && (forall k :: k in s.session && k != VerifiedKey && k != VerifiedAtKey ==> s.session[k] == session[k])
      && s.result == Returned(Proceed(if RedirectKey in session then session[RedirectKey] else Text(IndexPath)))
  {
    if !isPost then SessionStep(session, Returned(InvalidRequest))
    else
      var marked := session[VerifiedKey := Flag(true)][VerifiedAtKey := Text(nowIso)];
      var url := if RedirectKey in marked then marked[RedirectKey] else Text(IndexPath);
      SessionStep(marked - {RedirectKey}, Returned(Proceed(url)))
  }

  /** `webauthn_required`: an unverified session records the full path it asked for and is sent
      to the verification page; a verified one runs the view with the session untouched. */
  function GateStep(session: SessionData, fullPath: string): (r: (SessionData, GateOutcome))
    ensures !Verified(session) ==> r == (session[RedirectKey := Text(fullPath)], RedirectTo(VerifyPath))
    ensures Verified(session) ==> r == (session, RunView)
  {
    if !(VerifiedKey in session && TruthyValue(session[VerifiedKey])) then
      (session[RedirectKey := Text(fullPath)], RedirectTo(VerifyPath))
    else (session, RunView)
  }

  /** The round trip the gate is for: a page turned away is remembered, and completing the
      ceremony (POST) returns exactly that page, clears the memory, opens the gate for the next
      request and grants the admin permission on every path. */
  lemma GateThenCompleteReturnsToPage(session: SessionData, fullPath: string, nowIso: string, nextPath: string, path: string)
    requires !Verified(session)
    ensures var s1 := GateStep(session, fullPath).0;
      var s2 := VerifyCompleteStep(s1, true, nowIso);
      && s2.result == Returned(Proceed(Text(fullPath)))
      && RedirectKey !in s2.session
      && GateStep(s2.session, nextPath) == (s2.session, RunView)
      && HasPermission(true, path, s2.session)
  {
    var s1 := GateStep(session, fullPath).0;
    assert s1[RedirectKey] == Text(fullPath);
  }

  /** A session that never completed the ceremony is refused every admin page other than the
      login page, even for a staff member. */
  lemma FreshSessionRefused(path: string)
    requires path != LoginPath
    ensures !HasPermission(true, path, map[])
    ensures GateStep(map[], path) == (map[RedirectKey := Text(path)], RedirectTo(VerifyPath))
  {
  }

  /** What the code as written does instead: every POST raises, whatever the session holds, so
      no URL is returned to the browser and a waiting URL stays in the session, yet the flag is set
      in the request's session; the corrected completion replies with a URL. */
  lemma AsWrittenNeverReturnsToPage(session: SessionData, nowIso: string)
    ensures var written := VerifyCompleteAsWrittenStep(session, true);
      var intended := VerifyCompleteStep(session, true, nowIso);
      && written.result.Raised? && intended.result.Returned? && intended.result.value.Proceed?
      && (RedirectKey in written.session <==> RedirectKey in session) && RedirectKey !in intended.session
      && Verified(written.session)
  {
  }

  /** The request's session, a dictionary the views change by assignment and `pop`. */
  class Session {
    var data: SessionData

    constructor ()
      ensures data == map[]
    {
      data := map[];
    }

    /** The `webauthn_required` wrapper around an admin view, asked for `fullPath`. */
    method WebAuthnRequired(fullPath: string) returns (outcome: GateOutcome)
      modifies this
      ensures (data, outcome) == GateStep(old(data), fullPath)
    {
      if !(VerifiedKey in data && TruthyValue(data[VerifiedKey])) {
        data := data[RedirectKey := Text(fullPath)];
        return RedirectTo(VerifyPath);
      }
      return RunView;
    }

    /** `webauthn_verify_complete` as written (the flag is set, then the call raises). */
    method VerifyCompleteAsWritten(isPost: bool) returns (res: PyResult<CompleteReply>)
      modifies this
      ensures SessionStep(data, res) == VerifyCompleteAsWrittenStep(old(data), isPost)
    {
      if !isPost {
        return Returned(InvalidRequest);
      }
      data := data[VerifiedKey := Flag(true)];
      return Raised(TimezoneHasNoNow);
    }

    /** `webauthn_verify_complete` with the current time, as ISO text, from the clock. */
    method VerifyComplete(isPost: bool, nowIso: string) returns (res: PyResult<CompleteReply>)
      modifies this
      ensures SessionStep(data, res) == VerifyCompleteStep(old(data), isPost, nowIso)
    {
      if !isPost {
        return Returned(InvalidRequest);
      }
      data := data[VerifiedKey := Flag(true)];
      data := data[VerifiedAtKey := Text(nowIso)];
      var url := Text(IndexPath);
      if RedirectKey in data {
        url := data[RedirectKey];
        data := data - {RedirectKey};
      }
      return Returned(Proceed(url));
    }
  }
}
