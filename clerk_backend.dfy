/** The REST framework authentication class of the back end: it reads a Bearer token from the
    `Authorization` header (section 2.1 of RFC 6750), has the identity provider verify it, and
    finds or creates the matching user row. Token verification (the key-set fetch and the JWT
    decode) is an oracle. */
module ClerkBackend {
  import opened Common
  import opened Django
  import opened UserModels

  // ---------------------------------------------------------------------------------------------
  // Header parsing

  /** The first position at or after `from` where `c` occurs in `s`. */
  function IndexFrom(s: string, c: char, from: nat): (r: Option<nat>)
    requires from <= |s|
    ensures r.Some? ==> from <= r.value < |s| && s[r.value] == c && forall k :: from <= k < r.value ==> s[k] != c
    ensures r.None? ==> forall k :: from <= k < |s| ==> s[k] != c
    decreases |s| - from
  {
    if from == |s| then None
    else if s[from] == c then Some(from)
    else IndexFrom(s, c, from + 1)
  }

  /** Python's `s.split(sep)` with an explicit one-character separator: the texts between
      consecutive separators, so that adjacent separators give an empty piece and there is
      always at least one piece. */
  function Split(s: string, sep: char): (r: seq<string>)
    ensures |r| >= 1
    ensures forall i, k :: 0 <= i < |r| && 0 <= k < |r[i]| ==> r[i][k] != sep
    decreases |s|
  {
    match IndexFrom(s, sep, 0)
    case None => [s]
    case Some(k) => [s[..k]] + Split(s[k + 1..], sep)
  }

  /** `sep.join(pieces)`. */
  function Join(pieces: seq<string>, sep: char): string
    requires |pieces| >= 1
  {
    if |pieces| == 1 then pieces[0] else pieces[0] + [sep] + Join(pieces[1..], sep)
  }

  /** Splitting loses nothing: joining the pieces with the separator gives the text back. */
  lemma {:induction false} SplitJoin(s: string, sep: char)
    ensures Join(Split(s, sep), sep) == s
    decreases |s|
  {
    match IndexFrom(s, sep, 0)
    case None =>
    case Some(k) =>
      var rest := Split(s[k + 1..], sep);
      assert Split(s, sep) == [s[..k]] + rest;
      assert (([s[..k]] + rest)[1..]) == rest;
      SplitJoin(s[k + 1..], sep);
      assert s == s[..k] + [sep] + s[k + 1..];
  }

  /** The first piece of a split is the text up to the first separator. */
  lemma SplitFirst(s: string, sep: char)
    ensures var f := Split(s, sep)[0];
      |f| <= |s| && f == s[..|f|] && (|f| == |s| || s[|f|] == sep)
  {
  }

  const BearerPrefix := "Bearer "

  /** `auth_header.split(' ')[1]` for a header that passed the `'Bearer '` test, or `None` when
      the header is absent, empty or does not start with `'Bearer '`. */
  function BearerToken(header: Option<string>): (t: Option<string>)
    ensures t.Some? <==> header.Some? && BearerPrefix <= header.value
    ensures t.Some? ==>
      var rest := header.value[|BearerPrefix|..];
      && |t.value| <= |rest| && t.value == rest[..|t.value|]
      && (forall k :: 0 <= k < |t.value| ==> t.value[k] != ' ')
      && (|t.value| == |rest| || rest[|t.value|] == ' ')
  {
    if !Truthy(header) || !(BearerPrefix <= header.value) then None
    else
      var pieces := Split(header.value, ' ');
      BearerSecondPiece(header.value);
      Some(pieces[1])
  }

  /** For a `'Bearer '` header the pieces are `'Bearer'` followed by the pieces of the rest. */
  lemma BearerSecondPiece(h: string)
    requires BearerPrefix <= h
    ensures var rest := h[|BearerPrefix|..];
      |Split(h, ' ')| >= 2 && Split(h, ' ')[1] == Split(rest, ' ')[0]
      && var f := Split(rest, ' ')[0]; |f| <= |rest| && f == rest[..|f|] && (|f| == |rest| || rest[|f|] == ' ')
  {
    assert h[6] == ' ';
    assert forall k :: 0 <= k < 6 ==> h[k] != ' ';
    assert IndexFrom(h, ' ', 0) == Some(6) by {
      assert IndexFrom(h, ' ', 0).Some? && IndexFrom(h, ' ', 0).value <= 6;
    }
    assert h[7..] == h[|BearerPrefix|..];
    SplitFirst(h[|BearerPrefix|..], ' ');
  }

  /** `'Bearer '` gives the empty token. */
  lemma BearerTokenEmpty()
    ensures BearerToken(Some("Bearer ")) == Some("")
  {
    assert "Bearer "[7..] == "";
  }

  /** The token is the second space-separated field: `'Bearer a b'` gives `'a'`. */
  lemma BearerTokenSecondField()
    ensures BearerToken(Some("Bearer a b")) == Some("a")
  {
    var h := "Bearer a b";
    BearerSecondPiece(h);
    assert h[|BearerPrefix|..] == "a b";
    SplitOfAB();
  }

  /** `'a b'.split(' ')[0]` is `'a'`. */
  lemma SplitOfAB()
    ensures Split("a b", ' ')[0] == "a"
  {
    assert "a b"[0] == 'a' && "a b"[1] == ' ';
    assert IndexFrom("a b", ' ', 0) == Some(1);
    assert "a b"[..1] == "a";
  }

  /** Any other scheme, and a lower-case `bearer`, is not parsed. */
  lemma BearerTokenOtherSchemes()
    ensures BearerToken(Some("bearer abc")) == None && BearerToken(Some("Basic abc")) == None
    ensures BearerToken(Some("")) == None && BearerToken(None) == None
  {
    assert "bearer abc"[0] != BearerPrefix[0];
    assert "Basic abc"[1] != BearerPrefix[1];
  }

  // ---------------------------------------------------------------------------------------------
  // get_or_create_user

  /** The claims of a verified token the back end reads; an absent claim is `None`. */
  datatype Claims = Claims(
    sub: Option<string>, email: Option<string>, firstName: Option<string>, lastName: Option<string>,
    profileImageUrl: Option<string>)

  /** The row created for a `clerk_id` seen for the first time: email, names and image from the
      claims, blank when a claim is absent, and the column defaults otherwise. */
  function FromClaims(clerkId: string, c: Claims): UserRow {
    NewUser(clerkId, c.email.GetOr(""),
            NoExtraFields.(firstName := Some(c.firstName.GetOr("")), lastName := Some(c.lastName.GetOr("")),
                           profileImageUrl := Some(c.profileImageUrl.GetOr(""))))
  }

  /** An existing row refreshed from the claims: the email always (blank when absent), names and
      image only when the claim is present. */
  function Refreshed(u: UserRow, c: Claims): UserRow {
    u.(email := c.email.GetOr(""), firstName := c.firstName.GetOr(u.firstName),
       lastName := c.lastName.GetOr(u.lastName), profileImageUrl := c.profileImageUrl.GetOr(u.profileImageUrl))
  }

  /** `get_or_create_user(token_data)`: the table after it and the user it returns. A token with
      no `sub` looks up no row and then cannot be stored, `clerk_id` being non-null. */
  function GetOrCreateStep(rows: seq<UserRow>, nextId: nat, c: Claims): (s: Step<UserRow>)
    ensures WellFormed(rows, nextId) ==> WellFormed(s.rows, s.nextId)
    ensures s.result.Raised? ==> s.rows == rows && s.nextId == nextId
    ensures s.result.Returned? ==> c.sub.Some? && s.result.value.clerkId == c.sub.value
  {
    match c.sub
    case None => Step(rows, nextId, Raised(ConstraintFailed(NotNullColumn, "users.clerk_id")))
    case Some(id) =>
      match FindByClerkId(rows, id)
      case None => Insert(rows, nextId, FromClaims(id, c))
      case Some(i) => Save(rows, nextId, i, Refreshed(rows[i], c))
  }

  /** A `clerk_id` seen for the first time adds exactly one row, holding the claims with blank
      defaults, active and not staff; it fails, adding nothing, only when the email is taken. */
  lemma GetOrCreateNew(rows: seq<UserRow>, nextId: nat, c: Claims)
    requires c.sub.Some? && !ClerkIdUsed(rows, -1, c.sub.value)
    ensures var s := GetOrCreateStep(rows, nextId, c);
      && (s.result.Returned? <==> !EmailUsed(rows, -1, c.email.GetOr("")))
      && (s.result.Returned? ==>
            var u := s.result.value;
            && s.rows == rows + [u] && s.nextId == nextId + 1 && u.id == nextId
            && u.clerkId == c.sub.value && u.email == c.email.GetOr("")
            && u.firstName == c.firstName.GetOr("") && u.lastName == c.lastName.GetOr("")
            && u.profileImageUrl == c.profileImageUrl.GetOr("")
            && u.isActive && !u.isStaff && !u.isSuperuser)
  {
  }

  /** A known `clerk_id` adds no row. The email is overwritten unconditionally, even to blank;
      names and image keep their old values when the claim is absent; nothing else changes. */
  lemma GetOrCreateExisting(rows: seq<UserRow>, nextId: nat, c: Claims, i: nat)
    requires WellFormed(rows, nextId)
    requires c.sub.Some? && i < |rows| && rows[i].clerkId == c.sub.value
    ensures var s := GetOrCreateStep(rows, nextId, c);
      && |s.rows| == |rows| && s.nextId == nextId
      && (s.result.Returned? <==> !EmailUsed(rows, i, c.email.GetOr("")))
      && (s.result.Returned? ==>
            var u := s.result.value;
            && s.rows == rows[i := u]
            && u.email == c.email.GetOr("")
            && u.firstName == c.firstName.GetOr(rows[i].firstName)
            && u.lastName == c.lastName.GetOr(rows[i].lastName)
            && u.profileImageUrl == c.profileImageUrl.GetOr(rows[i].profileImageUrl)
            && u.(email := rows[i].email, firstName := rows[i].firstName, lastName := rows[i].lastName,
                  profileImageUrl := rows[i].profileImageUrl) == rows[i])
  {
    FindByClerkIdUnique(rows, nextId, c.sub.value);
    assert !ClerkIdUsed(rows, i, c.sub.value);
  }

  /** Authenticating twice with the same claims changes the table no further than once and
      returns the same user: the upsert is idempotent. */
  lemma {:induction false} GetOrCreateIdempotent(rows: seq<UserRow>, nextId: nat, c: Claims)
    requires WellFormed(rows, nextId)
    requires GetOrCreateStep(rows, nextId, c).result.Returned?
    ensures var s1 := GetOrCreateStep(rows, nextId, c);
      GetOrCreateStep(s1.rows, s1.nextId, c) == s1
  {
    var s1 := GetOrCreateStep(rows, nextId, c);
    var id := c.sub.value;
    var u := s1.result.value;
    var i: nat;
    if FindByClerkId(rows, id).None? {
      i := |rows|;
      assert s1.rows == rows + [u];
      assert Refreshed(u, c) == u;
    } else {
      i := FindByClerkId(rows, id).value;
      assert s1.rows == rows[i := u];
      assert Refreshed(u, c) == u;
    }
    assert s1.rows[i] == u && u.clerkId == id;
    FindByClerkIdUnique(s1.rows, s1.nextId, id);
    assert FindByClerkId(s1.rows, id) == Some(i);
    assert !EmailUsed(s1.rows, i, u.email);
    assert !ClerkIdUsed(s1.rows, i, u.clerkId);
    assert s1.rows[i := u] == s1.rows;
  }

  /** `self.get_or_create_user(decoded_token)`. */
  method GetOrCreateUser(table: UserTable, c: Claims) returns (res: PyResult<UserRow>)
    requires table.Valid()
    modifies table
    ensures table.Valid()
    ensures var s := GetOrCreateStep(old(table.rows), old(table.nextId), c);
      table.rows == s.rows && table.nextId == s.nextId && res == s.result
  {
    if c.sub.None? {
      return Raised(ConstraintFailed(NotNullColumn, "users.clerk_id"));
    }
    var found := FindByClerkId(table.rows, c.sub.value);
    if found.None? {
      res := table.Create(FromClaims(c.sub.value, c));
    } else {
      var u := table.rows[found.value];
      u := u.(email := c.email.GetOr(""));
      u := u.(firstName := c.firstName.GetOr(u.firstName));
      u := u.(lastName := c.lastName.GetOr(u.lastName));
      u := u.(profileImageUrl := c.profileImageUrl.GetOr(u.profileImageUrl));
      res := table.Update(found.value, u);
    }
  }

  // ---------------------------------------------------------------------------------------------
  // authenticate

  /** What token verification does: it decodes the claims or raises. */
  datatype TokenCheck = Decoded(claims: Claims) | Invalid(error: PyException)

  /** The `(user, token)` pair a successful `authenticate` returns. */
  datatype Credentials = Credentials(user: UserRow, token: string)

  /** `AuthenticationFailed(f'Invalid token: {str(e)}')`. */
  function InvalidToken(e: PyException): (f: PyException)
    ensures f.name == "AuthenticationFailed" && f.message == "Invalid token: " + e.message
  {
    PyException("AuthenticationFailed", "Invalid token: " + e.message)
  }

  /** Evaluating `clerk.api_key = ...`: the module imports `Clerk`, never binds `clerk`. */
  const ClerkUnbound := PyException("NameError", "name 'clerk' is not defined")

  /** `authenticate` as the repository has it: no Bearer header returns `None`; with one, the
      first statement in the `try` raises `NameError`, mapped to `AuthenticationFailed`. The
      table is never read or written. */
  function AuthenticateAsWritten(header: Option<string>): (r: PyResult<Option<Credentials>>)
    ensures r == Returned(None) <==> BearerToken(header).None?
    ensures r != Returned(None) ==> r == Raised(InvalidToken(ClerkUnbound))
  {
    match BearerToken(header)
    case None => Returned(None)
    case Some(_) => Raised(InvalidToken(ClerkUnbound))
  }

  /** As written, no request ever authenticates. */
  lemma AsWrittenNeverAuthenticates(header: Option<string>)
    ensures !(AuthenticateAsWritten(header).Returned? && AuthenticateAsWritten(header).value.Some?)
  {
  }

  /** `authenticate` without the unbound `clerk` statement: a Bearer token is verified, and the
      user found or created; any exception on the way becomes `AuthenticationFailed` with the
      `'Invalid token: '` prefix. */
  function AuthenticateStep(rows: seq<UserRow>, nextId: nat, header: Option<string>, verify: string -> TokenCheck)
    : (s: Step<Option<Credentials>>)
    ensures WellFormed(rows, nextId) ==> WellFormed(s.rows, s.nextId)
    ensures s.result == Returned(None) <==> BearerToken(header).None?
    ensures BearerToken(header).None? ==> s.rows == rows && s.nextId == nextId
    ensures s.result.Raised? ==> s.rows == rows && s.nextId == nextId && s.result.exception.name == "AuthenticationFailed"
    ensures s.result.Returned? && s.result.value.Some? ==>
      var t := BearerToken(header);
      && t.Some? && s.result.value.value.token == t.value && verify(t.value).Decoded?
      && GetOrCreateStep(rows, nextId, verify(t.value).claims).result.Returned?
      && s.result.value.value.user == GetOrCreateStep(rows, nextId, verify(t.value).claims).result.value
  {
    match BearerToken(header)
    case None => Step(rows, nextId, Returned(None))
    case Some(t) =>
      match verify(t)
      case Invalid(e) => Step(rows, nextId, Raised(InvalidToken(e)))
      case Decoded(c) =>
        var g := GetOrCreateStep(rows, nextId, c);
        match g.result
        case Raised(e) => Step(g.rows, g.nextId, Raised(InvalidToken(e)))
        case Returned(u) => Step(g.rows, g.nextId, Returned(Some(Credentials(u, t))))
  }

  /** A request authenticates exactly when it carries a Bearer token that verifies and whose user
      can be found or stored; the user is the one the token's `sub` names. */
  lemma AuthenticateIff(rows: seq<UserRow>, nextId: nat, header: Option<string>, verify: string -> TokenCheck)
    ensures var s := AuthenticateStep(rows, nextId, header, verify);
      var t := BearerToken(header);
      (s.result.Returned? && s.result.value.Some?) <==>
        t.Some? && verify(t.value).Decoded? && GetOrCreateStep(rows, nextId, verify(t.value).claims).result.Returned?
    ensures var s := AuthenticateStep(rows, nextId, header, verify);
      s.result.Returned? && s.result.value.Some? ==> Some(s.result.value.value.user.clerkId) == verify(BearerToken(header).value).claims.sub
  {
  }

  /** A request the corrected `authenticate` accepts and the repository's rejects: a first sign-in
      with a token that verifies. */
  lemma FirstSignInDiffers()
    ensures var header := Some("Bearer t0");
      var verify := (tok: string) => Decoded(Claims(Some("user_1"), Some("a@example.com"), None, None, None));
      && AuthenticateStep([], 1, header, verify).result
           == Returned(Some(Credentials(UserRow(1, "user_1", "a@example.com", "", "", "", "", true, false, false), "t0")))
      && AuthenticateAsWritten(header).Raised?
  {
    var t := BearerToken(Some("Bearer t0")).value;
    assert "Bearer t0"[7..] == "t0";
    assert |t| == 2;
    assert t == "t0";
  }

  // ---------------------------------------------------------------------------------------------
  // verify_clerk_token

  /** What fetching Clerk's key set (`requests.get(jwks_url).json()`) gives. */
  datatype JwksFetch = Keys(jwks: string) | FetchFailed(error: PyException)

  /** Reading `settings.CLERK_PUBLISHABLE_KEY`: the settings module defines no such name. */
  const PublishableKeyUndefined := PyException("AttributeError", "'Settings' object has no attribute 'CLERK_PUBLISHABLE_KEY'")

  /** `verify_clerk_token` as the repository has it: the key set is fetched, then reading the
      audience setting raises before `jwt.decode` is called, so no token ever decodes. */
  function VerifyClerkTokenAsWritten(fetch: JwksFetch): (r: TokenCheck)
    ensures r.Invalid?
    ensures fetch.FetchFailed? ==> r == Invalid(fetch.error)
    ensures fetch.Keys? ==> r == Invalid(PublishableKeyUndefined)
  {
    match fetch
    case FetchFailed(e) => Invalid(e)
    case Keys(_) => Invalid(PublishableKeyUndefined)
  }

  /** What `jwt.decode` raises for a token issued to another audience. */
  const AudienceMismatch := PyException("JWTClaimsError", "Invalid audience")

  /** `verify_clerk_token` with the publishable key defined as `audience`: a failed fetch raises;
      otherwise the token, the key set and the audience go to the RS256 decoder `decode`. */
  function VerifyClerkToken(token: string, fetch: JwksFetch, audience: string,
                            decode: (string, string, string) -> TokenCheck): (r: TokenCheck)
    ensures fetch.FetchFailed? ==> r == Invalid(fetch.error)
    ensures fetch.Keys? ==> r == decode(token, fetch.jwks, audience)
  {
    match fetch
    case FetchFailed(e) => Invalid(e)
    case Keys(k) => decode(token, k, audience)
  }

  /** Even with the unbound `clerk` statement removed, the undefined audience setting makes every
      request with a Bearer token fail with `'Invalid token: '` and leave the table as it was. */
  lemma UndefinedAudienceNeverAuthenticates(rows: seq<UserRow>, nextId: nat, header: Option<string>, fetch: JwksFetch)
    ensures var s := AuthenticateStep(rows, nextId, header, (tok: string) => VerifyClerkTokenAsWritten(fetch));
      && s.rows == rows && s.nextId == nextId
      && (BearerToken(header).Some? ==> s.result.Raised? && s.result.exception.name == "AuthenticationFailed")
      && (BearerToken(header).Some? && fetch.Keys? ==> s.result == Raised(InvalidToken(PublishableKeyUndefined)))
  {
  }

  /** With the audience defined, the first sign-in of `FirstSignInDiffers` goes through: a token
      the decoder accepts for that audience authenticates, where the repository's
      `verify_clerk_token` raises. */
  lemma DefinedAudienceDiffers(audience: string)
    ensures var header := Some("Bearer t0");
      var fetch := Keys("jwks");
      var claims := Claims(Some("user_1"), Some("a@example.com"), None, None, None);
      var decode := (tok: string, keys: string, aud: string) => if aud == audience then Decoded(claims) else Invalid(AudienceMismatch);
      && AuthenticateStep([], 1, header, (tok: string) => VerifyClerkToken(tok, fetch, audience, decode)).result.Returned?
      && AuthenticateStep([], 1, header, (tok: string) => VerifyClerkTokenAsWritten(fetch)).result.Raised?
  {
    FirstSignInDiffers();
    var t := BearerToken(Some("Bearer t0"));
    assert t.Some?;
  }

  /** `ClerkAuthentication.authenticate(request)` without the unbound `clerk` statement. */
  method Authenticate(table: UserTable, header: Option<string>, verify: string -> TokenCheck)
    returns (res: PyResult<Option<Credentials>>)
    requires table.Valid()
    modifies table
    ensures table.Valid()
    ensures var s := AuthenticateStep(old(table.rows), old(table.nextId), header, verify);
      table.rows == s.rows && table.nextId == s.nextId && res == s.result
  {
    var token := BearerToken(header);
    if token.None? {
      return Returned(None);
    }
    var check := verify(token.value);
    if check.Invalid? {
      return Raised(InvalidToken(check.error));
    }
    var user := GetOrCreateUser(table, check.claims);
    match user
    case Raised(e) => res := Raised(InvalidToken(e));
    case Returned(u) => res := Returned(Some(Credentials(u, token.value)));
  }
}
