/** The two tables of the WebAuthn app: registered authenticators (`webauthn_credentials`) and
    outstanding ceremony challenges (`webauthn_challenges`), with their unique columns, their
    defaults, the listing order of credentials and the cascade from a deleted user. */
module WebAuthnModels {
  import opened Common
  import opened Django

  /** `challenge_type`, one of the two declared choices `'register'` and `'verify'`. */
  datatype ChallengeType = Register | Verify

  function ChallengeTypeName(t: ChallengeType): (s: string)
    ensures s == "register" || s == "verify"
    ensures t == Register <==> s == "register"
  {
    match t
    case Register => "register"
    case Verify => "verify"
  }

  /** A row of `webauthn_credentials`; the id and key are the base64 text stored by the views. */
  datatype Credential = Credential(
    userId: nat, credentialId: string, publicKey: string, signCount: int, deviceType: string,
    name: string, createdAt: Instant, lastUsedAt: Option<Instant>)

  /** A row of `webauthn_challenges`. */
  datatype Challenge = Challenge(
    userId: nat, challenge: string, challengeType: ChallengeType, createdAt: Instant, expiresAt: Instant)

  const DefaultCredentialName := "Security Key"

  /** `WebAuthnCredential.objects.create(...)` at `now`: an omitted sign count is 0 and an omitted
      name is `'Security Key'`; the device type is blank, the creation time is `now` and the
      credential has not been used. */
  function NewCredential(userId: nat, credentialId: string, publicKey: string, signCount: Option<int>,
                         name: Option<string>, now: Instant): (c: Credential)
    ensures c.userId == userId && c.credentialId == credentialId && c.publicKey == publicKey
    ensures c.signCount == signCount.GetOr(0) && c.name == name.GetOr(DefaultCredentialName)
    ensures c.deviceType == "" && c.createdAt == now && c.lastUsedAt.None?
  {
    Credential(userId, credentialId, publicKey, signCount.GetOr(0), "", name.GetOr(DefaultCredentialName), now, None)
  }

  /** `credential_id` is unique across all credentials. */
  predicate CredentialIdsUnique(cs: seq<Credential>) {
    forall i, j :: 0 <= i < j < |cs| ==> cs[i].credentialId != cs[j].credentialId
  }

  /** The challenge value is unique across all challenges. */
  predicate ChallengeValuesUnique(chs: seq<Challenge>) {
    forall i, j :: 0 <= i < j < |chs| ==> chs[i].challenge != chs[j].challenge
  }

  // ---------------------------------------------------------------------------------------------
  // Listing order: `ordering = ['-created_at']`

  predicate NewestFirst(cs: seq<Credential>) {
    forall i, j :: 0 <= i < j < |cs| ==> cs[i].createdAt >= cs[j].createdAt
  }

  /** Places `c` into a list before its first credential no newer than `c`. */
  function InsertByAge(c: Credential, sorted: seq<Credential>): (r: seq<Credential>)
    ensures |r| == |sorted| + 1
  {
    if sorted == [] then [c]
    else if c.createdAt >= sorted[0].createdAt then [c] + sorted
    else [sorted[0]] + InsertByAge(c, sorted[1..])
  }

  /** Inserting adds exactly `c`. */
  lemma {:induction false} InsertByAgeAdds(c: Credential, sorted: seq<Credential>)
    ensures multiset(InsertByAge(c, sorted)) == multiset(sorted) + multiset{c}
    decreases |sorted|
  {
    if sorted != [] && c.createdAt < sorted[0].createdAt {
      InsertByAgeAdds(c, sorted[1..]);
      assert sorted == [sorted[0]] + sorted[1..];
    }
  }

  /** Every credential of the result is `c` or one of the list. */
  lemma {:induction false} InsertByAgeFrom(c: Credential, sorted: seq<Credential>)
    ensures forall x :: x in InsertByAge(c, sorted) ==> x == c || x in sorted
    decreases |sorted|
  {
    if sorted != [] && c.createdAt < sorted[0].createdAt {
      InsertByAgeFrom(c, sorted[1..]);
    }
  }

  /** Inserting into a newest-first list keeps it newest first. */
  lemma {:induction false} InsertByAgeSorted(c: Credential, sorted: seq<Credential>)
    requires NewestFirst(sorted)
    ensures NewestFirst(InsertByAge(c, sorted))
    decreases |sorted|
  {
    if sorted != [] && c.createdAt < sorted[0].createdAt {
      var tail := sorted[1..];
      var rest := InsertByAge(c, tail);
      InsertByAgeSorted(c, tail);
      InsertByAgeFrom(c, tail);
      var r := [sorted[0]] + rest;
      assert forall x :: x in tail ==> x.createdAt <= sorted[0].createdAt;
      assert forall k :: 0 <= k < |rest| ==> rest[k].createdAt <= sorted[0].createdAt by {
        forall k | 0 <= k < |rest| ensures rest[k].createdAt <= sorted[0].createdAt {
          assert rest[k] in rest;
        }
      }
      assert forall k :: 0 < k < |r| ==> r[k] == rest[k - 1];
    }
  }

  /** A query's result in the model's order: every credential of `cs`, newest first (the order
      among credentials created at the same instant is not specified by the schema). */
  function ByAge(cs: seq<Credential>): (r: seq<Credential>)
    ensures NewestFirst(r) && multiset(r) == multiset(cs) && |r| == |cs|
  {
    if cs == [] then []
    else
      assert cs == [cs[0]] + cs[1..];
      InsertByAgeAdds(cs[0], ByAge(cs[1..]));
      InsertByAgeSorted(cs[0], ByAge(cs[1..]));
      InsertByAge(cs[0], ByAge(cs[1..]))
  }

  /** The elements of a filter: those of the list that the predicate keeps. */
  lemma FilterMembers<T>(xs: seq<T>, keep: T -> bool)
    ensures forall x :: x in Filter(xs, keep) <==> x in xs && keep(x)
  {
    var r := Filter(xs, keep);
    forall x | x in r ensures x in xs && keep(x) {
      var i :| 0 <= i < |r| && r[i] == x;
    }
    forall x | x in xs && keep(x) ensures x in r {
      var i :| 0 <= i < |xs| && xs[i] == x;
    }
  }

  /** `WebAuthnCredential.objects.filter(user=user)`: exactly that user's credentials, newest first. */
  function CredentialsOf(cs: seq<Credential>, userId: nat): (r: seq<Credential>)
    ensures NewestFirst(r)
    ensures multiset(r) == multiset(Filter(cs, (c: Credential) => c.userId == userId))
    ensures forall c :: c in r <==> c in cs && c.userId == userId
  {
    var own := Filter(cs, (c: Credential) => c.userId == userId);
    FilterMembers(cs, (c: Credential) => c.userId == userId);
    var r := ByAge(own);
    assert forall c :: c in r <==> c in multiset(own);
    r
  }

  /** The credential ids of a list of credentials, in order. */
  function CredentialIds(cs: seq<Credential>): (ids: seq<string>)
    ensures |ids| == |cs| && forall i :: 0 <= i < |cs| ==> ids[i] == cs[i].credentialId
  {
    seq(|cs|, i requires 0 <= i < |cs| => cs[i].credentialId)
  }

  /** `filter(user=user).exists()`. */
  predicate HasCredentials(cs: seq<Credential>, userId: nat) {
    exists i :: 0 <= i < |cs| && cs[i].userId == userId
  }

  lemma HasCredentialsIff(cs: seq<Credential>, userId: nat)
    ensures HasCredentials(cs, userId) <==> CredentialsOf(cs, userId) != []
  {
    var r := CredentialsOf(cs, userId);
    if HasCredentials(cs, userId) {
      var i :| 0 <= i < |cs| && cs[i].userId == userId;
      assert cs[i] in r;
    }
    if r != [] {
      assert r[0] in cs && r[0].userId == userId;
      var i :| 0 <= i < |cs| && cs[i] == r[0];
    }
  }

  // ---------------------------------------------------------------------------------------------
  // on_delete=CASCADE

  /** Deleting a user deletes that user's credentials and challenges and nothing else. */
  function CascadeCredentials(cs: seq<Credential>, userId: nat): (r: seq<Credential>)
    ensures forall c :: c in r <==> c in cs && c.userId != userId
  {
    FilterMembers(cs, (c: Credential) => c.userId != userId);
    Filter(cs, (c: Credential) => c.userId != userId)
  }

  function CascadeChallenges(chs: seq<Challenge>, userId: nat): (r: seq<Challenge>)
    ensures forall ch :: ch in r <==> ch in chs && ch.userId != userId
  {
    FilterMembers(chs, (ch: Challenge) => ch.userId != userId);
    Filter(chs, (ch: Challenge) => ch.userId != userId)
  }

  /** Filtering keeps order, so it keeps a column unique. */
  lemma {:induction false} FilterKeepsCredentialIdsUnique(cs: seq<Credential>, keep: Credential -> bool)
    requires CredentialIdsUnique(cs)
    ensures CredentialIdsUnique(Filter(cs, keep))
    decreases |cs|
  {
    if cs != [] {
      var rest := Filter(cs[1..], keep);
      FilterKeepsCredentialIdsUnique(cs[1..], keep);
      assert forall k :: 0 <= k < |rest| ==> rest[k] in cs[1..];
    }
  }

  lemma {:induction false} FilterKeepsChallengesUnique(chs: seq<Challenge>, keep: Challenge -> bool)
    requires ChallengeValuesUnique(chs)
    ensures ChallengeValuesUnique(Filter(chs, keep))
    decreases |chs|
  {
    if chs != [] {
      var rest := Filter(chs[1..], keep);
      FilterKeepsChallengesUnique(chs[1..], keep);
      assert forall k :: 0 <= k < |rest| ==> rest[k] in chs[1..];
    }
  }

  /** After the cascade the user owns nothing and both unique columns stay unique. */
  lemma CascadeProperties(cs: seq<Credential>, chs: seq<Challenge>, userId: nat)
    requires CredentialIdsUnique(cs) && ChallengeValuesUnique(chs)
    ensures CredentialsOf(CascadeCredentials(cs, userId), userId) == []
    ensures !HasCredentials(CascadeCredentials(cs, userId), userId)
    ensures forall i :: 0 <= i < |CascadeChallenges(chs, userId)| ==> CascadeChallenges(chs, userId)[i].userId != userId
    ensures CredentialIdsUnique(CascadeCredentials(cs, userId)) && ChallengeValuesUnique(CascadeChallenges(chs, userId))
  {
    FilterKeepsCredentialIdsUnique(cs, (c: Credential) => c.userId != userId);
    FilterKeepsChallengesUnique(chs, (ch: Challenge) => ch.userId != userId);
    HasCredentialsIff(CascadeCredentials(cs, userId), userId);
    var rest := CascadeChallenges(chs, userId);
    assert forall i :: 0 <= i < |rest| ==> rest[i] in rest;
  }
}
