/** The four WebAuthn endpoints of the back end as operations on the credential and challenge
    tables. A begin call stores a new challenge that expires five minutes later; a complete
    call consumes a matching, unexpired challenge of its own type, and only when the library
    reports the ceremony verified. The library's option generators and response verifiers, and
    the random challenge bytes, are oracles: the model records the arguments the views pass to
    the generators and takes the verifiers' verdicts as inputs. */
module WebAuthnViews {
  import opened Common
  import opened Strings
  import opened Django
  import opened UserModels
  import opened WebAuthnModels

  /** `timedelta(minutes=5)`, in seconds. */
  const ChallengeLifetime := 300

  /** `WEBAUTHN_RP_ID` and `WEBAUTHN_RP_NAME` from the settings. */
  datatype RelyingParty = RelyingParty(id: string, name: string)

  /** The arguments `register_begin` passes to `generate_registration_options`. */
  datatype RegistrationRequest = RegistrationRequest(
    rpId: string, rpName: string, userId: string, userName: string, userDisplayName: string,
    challenge: string, excludeCredentials: seq<string>)

  /** The arguments `verify_begin` passes to `generate_authentication_options`. */
  datatype AuthenticationRequest = AuthenticationRequest(rpId: string, challenge: string, allowCredentials: seq<string>)

  datatype Body =
    | RegistrationOptions(registration: RegistrationRequest, challenge: string)
    | AuthenticationOptions(authentication: AuthenticationRequest, challenge: string)
    | Registered(credential: Credential)   // {'verified': True, 'credential': ...}
    | Authenticated(adminLogin: bool)      // {'verified': True, 'message': 'Authentication successful'}
    | Error(error: string)                 // {'error': ...}

  datatype Reply = Reply(status: nat, body: Body)

  /** What `verify_registration_response` does: verified (with the new credential's id, key and
      sign count, already base64 text), not verified, or raised. */
  datatype RegistrationCheck =
    | RegistrationVerified(credentialId: string, publicKey: string, signCount: int)
    | RegistrationRejected
    | RegistrationRaised(error: PyException)

  /** What `verify_authentication_response` does, given the stored key and sign count. */
  datatype AuthenticationCheck =
    | AuthenticationVerified(newSignCount: int)
    | AuthenticationRejected
    | AuthenticationRaised(error: PyException)

  /** The posted `credential` object, as far as the view reads it: its `id`. */
  datatype PostedCredential = PostedCredential(id: Option<string>)

  datatype Tables = Tables(credentials: seq<Credential>, challenges: seq<Challenge>)

  predicate Consistent(t: Tables) {
    CredentialIdsUnique(t.credentials) && ChallengeValuesUnique(t.challenges)
  }

  /** The tables after a view, and its reply or the exception that escaped it. */
  datatype MfaStep = MfaStep(tables: Tables, result: PyResult<Reply>)

  const InvalidChallenge := "Invalid or expired challenge"
  const VerificationFailed := "Verification failed"
  const NoCredentials := "No WebAuthn credentials registered"
  const CredentialNotFound := "Credential not found"

  // ---------------------------------------------------------------------------------------------
  // Lookups

  /** The row `WebAuthnChallenge.objects.get(user=..., challenge=..., challenge_type=...,
      expires_at__gt=now)` selects: strictly before its expiry. */
  predicate Live(ch: Challenge, userId: nat, value: string, kind: ChallengeType, now: Instant) {
    ch.userId == userId && ch.challenge == value && ch.challengeType == kind && now < ch.expiresAt
  }

  predicate ValueUsed(chs: seq<Challenge>, value: string) {
    exists k :: 0 <= k < |chs| && chs[k].challenge == value
  }

  function FindLiveFrom(chs: seq<Challenge>, userId: nat, value: string, kind: ChallengeType, now: Instant, from: nat)
    : (r: Option<nat>)
    requires from <= |chs|
    ensures r.Some? ==> from <= r.value < |chs| && Live(chs[r.value], userId, value, kind, now)
    ensures r.None? ==> forall k :: from <= k < |chs| ==> !Live(chs[k], userId, value, kind, now)
    decreases |chs| - from
  {
    if from == |chs| then None
    else if Live(chs[from], userId, value, kind, now) then Some(from)
    else FindLiveFrom(chs, userId, value, kind, now, from + 1)
  }

  /** The live challenge a complete call names, if any; a missing `challenge` matches no row. */
  function FindLive(chs: seq<Challenge>, userId: nat, value: Option<string>, kind: ChallengeType, now: Instant)
    : (r: Option<nat>)
    ensures r.Some? ==> value.Some? && r.value < |chs| && Live(chs[r.value], userId, value.value, kind, now)
    ensures r.None? ==> value.None? || forall k :: 0 <= k < |chs| ==> !Live(chs[k], userId, value.value, kind, now)
  {
    match value
    case None => None
    case Some(v) => FindLiveFrom(chs, userId, v, kind, now, 0)
  }

  predicate CredentialIdUsed(cs: seq<Credential>, credentialId: string) {
    exists k :: 0 <= k < |cs| && cs[k].credentialId == credentialId
  }

  function FindCredentialFrom(cs: seq<Credential>, userId: nat, credentialId: string, from: nat): (r: Option<nat>)
    requires from <= |cs|
    ensures r.Some? ==> from <= r.value < |cs| && cs[r.value].userId == userId && cs[r.value].credentialId == credentialId
    ensures r.None? ==> forall k :: from <= k < |cs| ==> !(cs[k].userId == userId && cs[k].credentialId == credentialId)
    decreases |cs| - from
  {
    if from == |cs| then None
    else if cs[from].userId == userId && cs[from].credentialId == credentialId then Some(from)
    else FindCredentialFrom(cs, userId, credentialId, from + 1)
  }

  /** `WebAuthnCredential.objects.get(user=user, credential_id=...)`: a credential of someone else
      is not found. */
  function FindCredential(cs: seq<Credential>, userId: nat, credentialId: Option<string>): (r: Option<nat>)
    ensures r.Some? ==> credentialId.Some? && r.value < |cs|
                        && cs[r.value].userId == userId && cs[r.value].credentialId == credentialId.value
    ensures r.None? ==> (credentialId.None? ||
      forall k :: 0 <= k < |cs| ==> !(cs[k].userId == userId && cs[k].credentialId == credentialId.value))
  {
    match credentialId
    case None => None
    case Some(id) => FindCredentialFrom(cs, userId, id, 0)
  }

  /** The list without its `i`-th element (`delete()` of that row). */
  function Without<T>(xs: seq<T>, i: nat): (r: seq<T>)
    requires i < |xs|
    ensures |r| == |xs| - 1
    ensures forall k :: 0 <= k < i ==> r[k] == xs[k]
    ensures forall k :: i <= k < |r| ==> r[k] == xs[k + 1]
  {
    xs[..i] + xs[i + 1..]
  }

  lemma WithoutKeepsChallengesUnique(chs: seq<Challenge>, i: nat)
    requires i < |chs|
    ensures ChallengeValuesUnique(chs) ==> ChallengeValuesUnique(Without(chs, i))
    ensures ChallengeValuesUnique(chs) ==> !ValueUsed(Without(chs, i), chs[i].challenge)
  {
    if ChallengeValuesUnique(chs) {
      var r := Without(chs, i);
      forall a, b | 0 <= a < b < |r| ensures r[a].challenge != r[b].challenge {
        var a', b' := if a < i then a else a + 1, if b < i then b else b + 1;
        assert r[a] == chs[a'] && r[b] == chs[b'];
      }
      forall k | 0 <= k < |r| ensures r[k].challenge != chs[i].challenge {
        var k' := if k < i then k else k + 1;
        assert r[k] == chs[k'];
      }
    }
  }

  // ---------------------------------------------------------------------------------------------
  // Begin

  /** `f"{user.first_name} {user.last_name}".strip() or user.email`. */
  function DisplayName(u: UserRow): string {
    var full := Strip(u.firstName + " " + u.lastName);
    if full == "" then u.email else full
  }

  /** The challenge row a begin call stores for `user` at `now`. */
  function IssuedChallenge(user: UserRow, nonce: string, kind: ChallengeType, now: Instant): (ch: Challenge)
    ensures ch.userId == user.id && ch.challenge == nonce && ch.challengeType == kind
    ensures ch.createdAt == now && ch.expiresAt == now + ChallengeLifetime
  {
    Challenge(user.id, nonce, kind, now, now + ChallengeLifetime)
  }

  const ChallengeTaken := ConstraintFailed(UniqueColumn, "webauthn_challenges.challenge")

  /** `register_begin`: one `'register'` challenge is stored (unless the random value repeats a
      stored one, which raises), and the options exclude exactly the user's credentials, newest
      first. */
  function RegisterBeginStep(t: Tables, rp: RelyingParty, user: UserRow, nonce: string, now: Instant): (s: MfaStep)
    ensures Consistent(t) ==> Consistent(s.tables)
    ensures s.tables.credentials == t.credentials
    ensures s.result.Raised? <==> ValueUsed(t.challenges, nonce)
    ensures s.result.Raised? ==> s.tables == t
    ensures s.result.Returned? ==>
      && s.tables.challenges == t.challenges + [IssuedChallenge(user, nonce, Register, now)]
      && s.result.value.status == 200
      && s.result.value.body == RegistrationOptions(
           RegistrationRequest(rp.id, rp.name, Decimal(user.id), user.email, DisplayName(user), nonce,
                               CredentialIds(CredentialsOf(t.credentials, user.id))), nonce)
  {
    if ValueUsed(t.challenges, nonce) then MfaStep(t, Raised(ChallengeTaken))
    else
      var options := RegistrationRequest(rp.id, rp.name, Decimal(user.id), user.email, DisplayName(user), nonce,
                                         CredentialIds(CredentialsOf(t.credentials, user.id)));
      MfaStep(Tables(t.credentials, t.challenges + [IssuedChallenge(user, nonce, Register, now)]),
              Returned(Reply(200, RegistrationOptions(options, nonce))))
  }

  /** `verify_begin`: a user with no credentials gets 400 and nothing is stored; otherwise one
      `'verify'` challenge is stored and the options allow exactly the user's credentials. */
  function VerifyBeginStep(t: Tables, rp: RelyingParty, user: UserRow, nonce: string, now: Instant): (s: MfaStep)
    ensures Consistent(t) ==> Consistent(s.tables)
    ensures s.tables.credentials == t.credentials
    ensures !HasCredentials(t.credentials, user.id) ==> s == MfaStep(t, Returned(Reply(400, Error(NoCredentials))))
    ensures HasCredentials(t.credentials, user.id) ==>
      && (s.result.Raised? <==> ValueUsed(t.challenges, nonce))
      && (s.result.Raised? ==> s.tables == t)
      && (s.result.Returned? ==>
            && s.tables.challenges == t.challenges + [IssuedChallenge(user, nonce, Verify, now)]
            && s.result.value == Reply(200, AuthenticationOptions(
                 AuthenticationRequest(rp.id, nonce, CredentialIds(CredentialsOf(t.credentials, user.id))), nonce)))
  {
    if !HasCredentials(t.credentials, user.id) then MfaStep(t, Returned(Reply(400, Error(NoCredentials))))
    else if ValueUsed(t.challenges, nonce) then MfaStep(t, Raised(ChallengeTaken))
    else
      var options := AuthenticationRequest(rp.id, nonce, CredentialIds(CredentialsOf(t.credentials, user.id)));
      MfaStep(Tables(t.credentials, t.challenges + [IssuedChallenge(user, nonce, Verify, now)]),
              Returned(Reply(200, AuthenticationOptions(options, nonce))))
  }

  /** The credential list of the options holds exactly the ids of the user's own credentials:
      registration excludes them all, authentication allows them all, and no one else's. */
  lemma OptionsListOwnCredentials(cs: seq<Credential>, userId: nat)
    ensures forall id :: id in CredentialIds(CredentialsOf(cs, userId)) <==>
      exists k :: 0 <= k < |cs| && cs[k].userId == userId && cs[k].credentialId == id
  {
    forall id | id in CredentialIds(CredentialsOf(cs, userId))
      ensures exists k :: 0 <= k < |cs| && cs[k].userId == userId && cs[k].credentialId == id
    {
      ListedIsOwn(cs, userId, id);
    }
    forall id | exists k :: 0 <= k < |cs| && cs[k].userId == userId && cs[k].credentialId == id
      ensures id in CredentialIds(CredentialsOf(cs, userId))
    {
      var k :| 0 <= k < |cs| && cs[k].userId == userId && cs[k].credentialId == id;
      OwnIsListed(cs, userId, k);
    }
  }

  lemma ListedIsOwn(cs: seq<Credential>, userId: nat, id: string)
    requires id in CredentialIds(CredentialsOf(cs, userId))
    ensures exists k :: 0 <= k < |cs| && cs[k].userId == userId && cs[k].credentialId == id
  {
    var own := CredentialsOf(cs, userId);
    var ids := CredentialIds(own);
    var i :| 0 <= i < |ids| && ids[i] == id;
    assert own[i] in own;
    var k :| 0 <= k < |cs| && cs[k] == own[i];
  }

  lemma OwnIsListed(cs: seq<Credential>, userId: nat, k: nat)
    requires k < |cs| && cs[k].userId == userId
    ensures cs[k].credentialId in CredentialIds(CredentialsOf(cs, userId))
  {
    var own := CredentialsOf(cs, userId);
    assert cs[k] in cs;
    assert cs[k] in own;
    var i :| 0 <= i < |own| && own[i] == cs[k];
    assert CredentialIds(own)[i] == cs[k].credentialId;
  }

  // ---------------------------------------------------------------------------------------------
  // Complete

  const CredentialTaken := ConstraintFailed(UniqueColumn, "webauthn_credentials.credential_id")

  /** `register_complete`. Without a live `'register'` challenge of the user: 400, nothing
      changes. A verifier that raises or does not verify: 400, the challenge stays. Verified: the
      new credential is stored (400 and nothing stored if its id is taken, since the unique
      violation is caught like any exception), and the used challenge is deleted. */
  function RegisterCompleteStep(t: Tables, user: UserRow, challenge: Option<string>, name: Option<string>,
                                check: RegistrationCheck, now: Instant): (s: MfaStep)
    ensures Consistent(t) ==> Consistent(s.tables)
    ensures s.result.Returned?
    ensures s.tables != t ==> s.result.value.status == 200
    ensures FindLive(t.challenges, user.id, challenge, Register, now).None? ==>
      s == MfaStep(t, Returned(Reply(400, Error(InvalidChallenge))))
  {
    match FindLive(t.challenges, user.id, challenge, Register, now)
    case None => MfaStep(t, Returned(Reply(400, Error(InvalidChallenge))))
    case Some(i) =>
      match check
      case RegistrationRaised(e) => MfaStep(t, Returned(Reply(400, Error(e.message))))
      case RegistrationRejected => MfaStep(t, Returned(Reply(400, Error(VerificationFailed))))
      case RegistrationVerified(credentialId, publicKey, signCount) =>
        if CredentialIdUsed(t.credentials, credentialId) then
          MfaStep(t, Returned(Reply(400, Error(CredentialTaken.message))))
        else
          var c := NewCredential(user.id, credentialId, publicKey, Some(signCount),
                                 Some(name.GetOr(DefaultCredentialName)), now);
          WithoutKeepsChallengesUnique(t.challenges, i);
          MfaStep(Tables(t.credentials + [c], Without(t.challenges, i)), Returned(Reply(200, Registered(c))))
  }

  /** A verified registration adds exactly one credential, owned by the user, with the verifier's
      id, key and sign count, the posted name or `'Security Key'`, and deletes exactly the
      challenge it used. */
  lemma RegistrationSucceeds(t: Tables, user: UserRow, challenge: Option<string>, name: Option<string>,
                             check: RegistrationCheck, now: Instant)
    requires FindLive(t.challenges, user.id, challenge, Register, now).Some?
    requires check.RegistrationVerified? && !CredentialIdUsed(t.credentials, check.credentialId)
    ensures var s := RegisterCompleteStep(t, user, challenge, name, check, now);
      var i := FindLive(t.challenges, user.id, challenge, Register, now).value;
      && s.result.value.status == 200 && s.result.value.body.Registered?
      && var c := s.result.value.body.credential;
      && s.tables.credentials == t.credentials + [c]
      && c.userId == user.id && c.credentialId == check.credentialId && c.publicKey == check.publicKey
      && c.signCount == check.signCount && c.name == name.GetOr("Security Key")
      && c.createdAt == now && c.lastUsedAt.None?
      && s.tables.challenges == Without(t.challenges, i)
  {
  }

  /** A ceremony the verifier does not accept, or whose credential id is already stored, is
      answered 400 and leaves both tables as they were; the challenge can be retried. */
  lemma RegistrationFailureKeepsChallenge(t: Tables, user: UserRow, challenge: Option<string>, name: Option<string>,
                                          check: RegistrationCheck, now: Instant)
    requires !check.RegistrationVerified? || CredentialIdUsed(t.credentials, check.credentialId)
    ensures var s := RegisterCompleteStep(t, user, challenge, name, check, now);
      s.tables == t && s.result.value.status == 400
  {
  }

  /** `verify_complete`. Without a live `'verify'` challenge of the user: 400, nothing changes.
      A credential the user does not own: 404, the challenge stays. A verifier that raises or does
      not verify: 400, the challenge stays. Verified: only that credential changes (its new sign
      count and the time of use) and the used challenge is deleted. */
  function VerifyCompleteStep(t: Tables, user: UserRow, posted: Option<PostedCredential>, challenge: Option<string>,
                              adminLogin: bool, verify: (string, int) -> AuthenticationCheck, now: Instant): (s: MfaStep)
    ensures Consistent(t) ==> Consistent(s.tables)
    ensures s.tables != t ==> s.result.Returned? && s.result.value.status == 200
    ensures FindLive(t.challenges, user.id, challenge, Verify, now).None? ==>
      s == MfaStep(t, Returned(Reply(400, Error(InvalidChallenge))))
  {
    match FindLive(t.challenges, user.id, challenge, Verify, now)
    case None => MfaStep(t, Returned(Reply(400, Error(InvalidChallenge))))
    case Some(i) =>
      match posted
      case None => MfaStep(t, Raised(NoneHasNoGet))
      case Some(p) =>
        match FindCredential(t.credentials, user.id, p.id)
        case None => MfaStep(t, Returned(Reply(404, Error(CredentialNotFound))))
        case Some(k) =>
          var c := t.credentials[k];
          match verify(c.publicKey, c.signCount)
          case AuthenticationRaised(e) => MfaStep(t, Returned(Reply(400, Error(e.message))))
          case AuthenticationRejected => MfaStep(t, Returned(Reply(400, Error(VerificationFailed))))
          case AuthenticationVerified(n) =>
            var used := c.(signCount := n, lastUsedAt := Some(now));
            WithoutKeepsChallengesUnique(t.challenges, i);
            MfaStep(Tables(t.credentials[k := used], Without(t.challenges, i)),
                    Returned(Reply(200, Authenticated(adminLogin))))
  }

  /** A posted id that names no credential of this user is answered 404 and the challenge stays. */
  lemma UnknownCredentialKeepsChallenge(t: Tables, user: UserRow, posted: PostedCredential, challenge: Option<string>,
                                        adminLogin: bool, verify: (string, int) -> AuthenticationCheck, now: Instant)
    requires FindLive(t.challenges, user.id, challenge, Verify, now).Some?
    requires FindCredential(t.credentials, user.id, posted.id).None?
    ensures VerifyCompleteStep(t, user, Some(posted), challenge, adminLogin, verify, now)
         == MfaStep(t, Returned(Reply(404, Error(CredentialNotFound))))
  {
  }

  /** An assertion the verifier rejects, or whose verification raises, is answered 400 with the
      verifier's message or `'Verification failed'`, and both tables stay as they were: the
      challenge can be retried. */
  lemma AuthenticationFailureKeepsChallenge(t: Tables, user: UserRow, posted: PostedCredential, challenge: Option<string>,
                                            adminLogin: bool, verify: (string, int) -> AuthenticationCheck, now: Instant)
    requires FindLive(t.challenges, user.id, challenge, Verify, now).Some?
    requires FindCredential(t.credentials, user.id, posted.id).Some?
    requires var c := t.credentials[FindCredential(t.credentials, user.id, posted.id).value];
      !verify(c.publicKey, c.signCount).AuthenticationVerified?
    ensures var c := t.credentials[FindCredential(t.credentials, user.id, posted.id).value];
      var v := verify(c.publicKey, c.signCount);
      VerifyCompleteStep(t, user, Some(posted), challenge, adminLogin, verify, now)
        == MfaStep(t, Returned(Reply(400, Error(if v.AuthenticationRaised? then v.error.message else VerificationFailed))))
  {
  }

  /** The challenge is consumed only by a verified assertion of one of the user's own credentials. */
  lemma ChallengeConsumedOnlyOnSuccess(t: Tables, user: UserRow, posted: Option<PostedCredential>, challenge: Option<string>,
                                       adminLogin: bool, verify: (string, int) -> AuthenticationCheck, now: Instant)
    ensures var s := VerifyCompleteStep(t, user, posted, challenge, adminLogin, verify, now);
      s.tables.challenges != t.challenges ==>
        && FindLive(t.challenges, user.id, challenge, Verify, now).Some?
        && posted.Some? && FindCredential(t.credentials, user.id, posted.value.id).Some?
        && s.result == Returned(Reply(200, Authenticated(adminLogin)))
        && var c := t.credentials[FindCredential(t.credentials, user.id, posted.value.id).value];
           verify(c.publicKey, c.signCount).AuthenticationVerified?
  {
  }

  /** A verified authentication changes exactly the credential used (sign count and last use)
      and deletes exactly the challenge used. */
  lemma AuthenticationSucceeds(t: Tables, user: UserRow, posted: PostedCredential, challenge: Option<string>,
                               adminLogin: bool, verify: (string, int) -> AuthenticationCheck, now: Instant)
    requires FindLive(t.challenges, user.id, challenge, Verify, now).Some?
    requires FindCredential(t.credentials, user.id, posted.id).Some?
    requires var c := t.credentials[FindCredential(t.credentials, user.id, posted.id).value];
      verify(c.publicKey, c.signCount).AuthenticationVerified?
    ensures var s := VerifyCompleteStep(t, user, Some(posted), challenge, adminLogin, verify, now);
      var i := FindLive(t.challenges, user.id, challenge, Verify, now).value;
      var k := FindCredential(t.credentials, user.id, posted.id).value;
      var c := t.credentials[k];
      && s.result == Returned(Reply(200, Authenticated(adminLogin)))
      && |s.tables.credentials| == |t.credentials|
      && s.tables.credentials[k] == c.(signCount := verify(c.publicKey, c.signCount).newSignCount, lastUsedAt := Some(now))
      && (forall j :: 0 <= j < |t.credentials| && j != k ==> s.tables.credentials[j] == t.credentials[j])
      && s.tables.challenges == Without(t.challenges, i)
  {
  }

  // ---------------------------------------------------------------------------------------------
  // Across calls

  /** The challenge `register_begin` issued at `issued` is live for a later `register_complete`
      exactly until five minutes have passed (the expiry is strict), and never for
      `verify_complete`: a registration challenge cannot be spent on an authentication. */
  lemma IssuedChallengeWindow(t: Tables, rp: RelyingParty, user: UserRow, nonce: string, issued: Instant, now: Instant)
    requires Consistent(t)
    requires RegisterBeginStep(t, rp, user, nonce, issued).result.Returned?
    ensures var t1 := RegisterBeginStep(t, rp, user, nonce, issued).tables;
      && (FindLive(t1.challenges, user.id, Some(nonce), Register, now).Some? <==> now < issued + ChallengeLifetime)
      && FindLive(t1.challenges, user.id, Some(nonce), Verify, now).None?
  {
    var t1 := RegisterBeginStep(t, rp, user, nonce, issued).tables;
    var n := |t.challenges|;
    assert t1.challenges[n] == IssuedChallenge(user, nonce, Register, issued);
    assert forall k :: 0 <= k < n ==> t1.challenges[k] == t.challenges[k];
    if now < issued + ChallengeLifetime {
      assert Live(t1.challenges[n], user.id, nonce, Register, now);
    }
  }

  /** A challenge is single-use: once a registration consumed it, presenting it again is
      answered 400 and changes nothing. */
  lemma RegistrationChallengeSingleUse(t: Tables, user: UserRow, challenge: Option<string>, name: Option<string>,
                                       check: RegistrationCheck, now: Instant, name2: Option<string>,
                                       check2: RegistrationCheck, later: Instant)
    requires Consistent(t)
    requires RegisterCompleteStep(t, user, challenge, name, check, now).result.value.status == 200
    ensures var t1 := RegisterCompleteStep(t, user, challenge, name, check, now).tables;
      RegisterCompleteStep(t1, user, challenge, name2, check2, later) == MfaStep(t1, Returned(Reply(400, Error(InvalidChallenge))))
  {
    var i := FindLive(t.challenges, user.id, challenge, Register, now).value;
    WithoutKeepsChallengesUnique(t.challenges, i);
  }

  /** Likewise for authentication. */
  lemma AuthenticationChallengeSingleUse(t: Tables, user: UserRow, posted: Option<PostedCredential>,
                                         challenge: Option<string>, adminLogin: bool,
                                         verify: (string, int) -> AuthenticationCheck, now: Instant,
                                         posted2: Option<PostedCredential>, later: Instant)
    requires Consistent(t)
    requires var s := VerifyCompleteStep(t, user, posted, challenge, adminLogin, verify, now);
      s.result.Returned? && s.result.value.status == 200
    ensures var t1 := VerifyCompleteStep(t, user, posted, challenge, adminLogin, verify, now).tables;
      VerifyCompleteStep(t1, user, posted2, challenge, adminLogin, verify, later)
        == MfaStep(t1, Returned(Reply(400, Error(InvalidChallenge))))
  {
    var i := FindLive(t.challenges, user.id, challenge, Verify, now).value;
    WithoutKeepsChallengesUnique(t.challenges, i);
  }

  // ---------------------------------------------------------------------------------------------
  // The tables as objects

  class MfaStore {
    var credentials: seq<Credential>
    var challenges: seq<Challenge>

    predicate Valid()
      reads this
    {
      Consistent(Tables(credentials, challenges))
    }

    constructor ()
      ensures credentials == [] && challenges == [] && Valid()
    {
      credentials := [];
      challenges := [];
    }

    /** `WebAuthnChallenge.objects.create(...)`. */
    method StoreChallenge(ch: Challenge) returns (stored: bool)
      requires Valid()
      modifies this
      ensures Valid() && credentials == old(credentials)
      ensures stored == !ValueUsed(old(challenges), ch.challenge)
      ensures challenges == if stored then old(challenges) + [ch] else old(challenges)
    {
      if ValueUsed(challenges, ch.challenge) {
        return false;
      }
      challenges := challenges + [ch];
      return true;
    }

    /** `register_begin(request)` for the signed-in `user`. */
    method RegisterBegin(rp: RelyingParty, user: UserRow, nonce: string, now: Instant) returns (res: PyResult<Reply>)
      requires Valid()
      modifies this
      ensures Valid()
      ensures var s := RegisterBeginStep(Tables(old(credentials), old(challenges)), rp, user, nonce, now);
        Tables(credentials, challenges) == s.tables && res == s.result
    {
      var stored := StoreChallenge(IssuedChallenge(user, nonce, Register, now));
      if !stored {
        return Raised(ChallengeTaken);
      }
      var exclude := CredentialIds(CredentialsOf(credentials, user.id));
      var options := RegistrationRequest(rp.id, rp.name, Decimal(user.id), user.email, DisplayName(user), nonce, exclude);
      res := Returned(Reply(200, RegistrationOptions(options, nonce)));
    }

    /** `verify_begin(request)` for the signed-in `user`. */
    method VerifyBegin(rp: RelyingParty, user: UserRow, nonce: string, now: Instant) returns (res: PyResult<Reply>)
      requires Valid()
      modifies this
      ensures Valid()
      ensures var s := VerifyBeginStep(Tables(old(credentials), old(challenges)), rp, user, nonce, now);
        Tables(credentials, challenges) == s.tables && res == s.result
    {
      if !HasCredentials(credentials, user.id) {
        return Returned(Reply(400, Error(NoCredentials)));
      }
      var stored := StoreChallenge(IssuedChallenge(user, nonce, Verify, now));
      if !stored {
        return Raised(ChallengeTaken);
      }
      var allow := CredentialIds(CredentialsOf(credentials, user.id));
      res := Returned(Reply(200, AuthenticationOptions(AuthenticationRequest(rp.id, nonce, allow), nonce)));
    }

    /** `register_complete(request)`. */
    method RegisterComplete(user: UserRow, challenge: Option<string>, name: Option<string>,
                            check: RegistrationCheck, now: Instant) returns (res: PyResult<Reply>)
      requires Valid()
      modifies this
      ensures Valid()
      ensures var s := RegisterCompleteStep(Tables(old(credentials), old(challenges)), user, challenge, name, check, now);
        Tables(credentials, challenges) == s.tables && res == s.result
    {
      var found := FindLive(challenges, user.id, challenge, Register, now);
      if found.None? {
        return Returned(Reply(400, Error(InvalidChallenge)));
      }
      var title := name.GetOr(DefaultCredentialName);
      match check {
        case RegistrationRaised(e) =>
          res := Returned(Reply(400, Error(e.message)));
        case RegistrationRejected =>
          res := Returned(Reply(400, Error(VerificationFailed)));
        case RegistrationVerified(credentialId, publicKey, signCount) =>
          if CredentialIdUsed(credentials, credentialId) {
            return Returned(Reply(400, Error(CredentialTaken.message)));
          }
          var c := NewCredential(user.id, credentialId, publicKey, Some(signCount), Some(title), now);
          credentials := credentials + [c];
          WithoutKeepsChallengesUnique(challenges, found.value);
          challenges := Without(challenges, found.value);
          res := Returned(Reply(200, Registered(c)));
      }
    }

    /** `verify_complete(request)`. */
    method VerifyComplete(user: UserRow, posted: Option<PostedCredential>, challenge: Option<string>, adminLogin: bool,
                          verify: (string, int) -> AuthenticationCheck, now: Instant) returns (res: PyResult<Reply>)
      requires Valid()
      modifies this
      ensures Valid()
      ensures var s := VerifyCompleteStep(Tables(old(credentials), old(challenges)), user, posted, challenge,
                                          adminLogin, verify, now);
        Tables(credentials, challenges) == s.tables && res == s.result
    {
      var found := FindLive(challenges, user.id, challenge, Verify, now);
      if found.None? {
        return Returned(Reply(400, Error(InvalidChallenge)));
      }
      if posted.None? {
        return Raised(NoneHasNoGet);
      }
      var k := FindCredential(credentials, user.id, posted.value.id);
      if k.None? {
        return Returned(Reply(404, Error(CredentialNotFound)));
      }
      var c := credentials[k.value];
      match verify(c.publicKey, c.signCount) {
        case AuthenticationRaised(e) =>
          res := Returned(Reply(400, Error(e.message)));
        case AuthenticationRejected =>
          res := Returned(Reply(400, Error(VerificationFailed)));
        case AuthenticationVerified(n) =>
          credentials := credentials[k.value := c.(signCount := n, lastUsedAt := Some(now))];
          WithoutKeepsChallengesUnique(challenges, found.value);
          challenges := Without(challenges, found.value);
          res := Returned(Reply(200, Authenticated(adminLogin)));
      }
    }
  }
}
