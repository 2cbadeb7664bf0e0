/** The identity provider's webhook: after a signature check it mirrors `user.created` and
    `user.updated` events into the user table by `clerk_id`, and marks users of `user.deleted`
    events inactive. The HMAC-SHA256 of RFC 2104, rendered as lower-case hex, is an oracle. An
    exception that escapes the view is a `Raised` result (a 500 response). */
module ClerkWebhook {
  import opened Common
  import opened Strings
  import opened Django
  import opened UserModels

  /** The lower-case hexadecimal text `hexdigest()` produces. */
  type HexText = s: string | forall i :: 0 <= i < |s| ==> s[i] in "0123456789abcdef"

  /** One entry of the payload's `email_addresses`; `email_address` may be absent. */
  datatype EmailEntry = EmailEntry(emailAddress: Option<string>)

  /** The payload's `data` object: the members the view reads, `None` when absent. JSON `null`
      and values of other JSON types are not part of this model. */
  datatype UserData = UserData(
    id: Option<string>, emailAddresses: Option<seq<EmailEntry>>, firstName: Option<string>,
    lastName: Option<string>, profileImageUrl: Option<string>)

  /** The parsed request body: its `type` and its `data`. */
  datatype WebhookEvent = WebhookEvent(eventType: Option<string>, data: Option<UserData>)

  datatype ReplyBody =
    | InvalidSignature            // {'error': 'Invalid signature'}
    | Success(created: Option<bool>)  // {'status': 'success'}, with 'created' for an upsert
    | Ignored                     // {'status': 'ignored'}

  datatype Reply = Reply(status: nat, body: ReplyBody)

  // ---------------------------------------------------------------------------------------------
  // verify_webhook_signature

  const NoneCompared := PyException("TypeError", "unsupported operand types(s) or combination of types: 'str' and 'NoneType'")
  const NonAsciiCompared := PyException("TypeError", "comparing strings with non-ASCII characters is not supported")
  const SecretUnset := PyException("AttributeError", "'NoneType' object has no attribute 'encode'")

  /** `hmac.compare_digest(expected, signature)` for a `str` on the left: a missing right-hand
      side or a non-ASCII string raises `TypeError`; otherwise it is string equality. */
  function CompareDigest(expected: string, signature: Option<string>): (r: PyResult<bool>)
    ensures r.Raised? <==> signature.None? || !IsAscii(expected) || !IsAscii(signature.value)
    ensures r == Returned(true) <==> IsAscii(expected) && signature == Some(expected)
  {
    match signature
    case None => Raised(NoneCompared)
    case Some(s) => if !IsAscii(expected) || !IsAscii(s) then Raised(NonAsciiCompared) else Returned(expected == s)
  }

  lemma HexIsAscii(h: HexText)
    ensures IsAscii(h)
  {
    forall i | 0 <= i < |h| ensures h[i] < '\U{0080}' {
      assert h[i] in "0123456789abcdef";
    }
  }

  /** `verify_webhook_signature(payload, signature)`, with `hexMac(secret, payload)` the hex
      HMAC-SHA256 of the payload under the encoded secret. The check passes exactly when a secret
      is configured and the header carries that digest; an unset secret or a missing or non-ASCII
      header raises instead of failing. */
  function VerifySignature(payload: seq<Byte>, signature: Option<string>, secret: Option<string>,
                           hexMac: (string, seq<Byte>) -> HexText): (r: PyResult<bool>)
    ensures r == Returned(true) <==> secret.Some? && signature == Some(hexMac(secret.value, payload))
    ensures r.Raised? <==> secret.None? || signature.None? || !IsAscii(signature.value)
  {
    match secret
    case None => Raised(SecretUnset)
    case Some(key) =>
      HexIsAscii(hexMac(key, payload));
      CompareDigest(hexMac(key, payload), signature)
  }

  // ---------------------------------------------------------------------------------------------
  // clerk_webhook_sync_user

  const UserCreated := "user.created"
  const UserUpdated := "user.updated"
  const UserDeleted := "user.deleted"
  const NoFirstAddress := PyException("IndexError", "list index out of range")

  /** `data.get('email_addresses', [{}])[0].get('email_address', '')`: blank when the list or the
      address is absent; an empty list raises `IndexError`. */
  function PrimaryEmail(d: UserData): (r: PyResult<string>)
    ensures r.Raised? <==> d.emailAddresses == Some([])
    ensures d.emailAddresses.None? ==> r == Returned("")
    ensures d.emailAddresses.Some? && d.emailAddresses.value != [] ==>
      r == Returned(d.emailAddresses.value[0].emailAddress.GetOr(""))
  {
    match d.emailAddresses
    case None => Returned("")
    case Some(entries) => if entries == [] then Raised(NoFirstAddress) else Returned(entries[0].emailAddress.GetOr(""))
  }

  /** The row `update_or_create` creates: the payload's id, email, names and image (blank when
      absent), with the other columns at their defaults. */
  function CreatedRow(clerkId: string, email: string, d: UserData): UserRow {
    NewUser(clerkId, email, NoExtraFields.(firstName := Some(d.firstName.GetOr("")), lastName := Some(d.lastName.GetOr("")),
                                           profileImageUrl := Some(d.profileImageUrl.GetOr(""))))
  }

  /** An existing row after `update_or_create` assigned the defaults: all four synced columns are
      overwritten, blank when absent; activity and permissions are not among them. */
  function SyncedRow(u: UserRow, email: string, d: UserData): UserRow {
    u.(email := email, firstName := d.firstName.GetOr(""), lastName := d.lastName.GetOr(""),
       profileImageUrl := d.profileImageUrl.GetOr(""))
  }

  /** The upsert of a `user.created`/`user.updated` event: the table after it and `created`. */
  function UpsertStep(rows: seq<UserRow>, nextId: nat, d: UserData): (s: Step<bool>)
    ensures WellFormed(rows, nextId) ==> WellFormed(s.rows, s.nextId)
    ensures s.result.Raised? ==> s.rows == rows && s.nextId == nextId
    ensures s.result.Returned? ==> d.id.Some? && s.result.value == !ClerkIdUsed(rows, -1, d.id.value)
  {
    match PrimaryEmail(d)
    case Raised(e) => Step(rows, nextId, Raised(e))
    case Returned(email) =>
      match d.id
      case None => Step(rows, nextId, Raised(ConstraintFailed(NotNullColumn, "users.clerk_id")))
      case Some(id) =>
        match FindByClerkId(rows, id)
        case None =>
          var s := Insert(rows, nextId, CreatedRow(id, email, d));
          Step(s.rows, s.nextId, if s.result.Returned? then Returned(true) else Raised(s.result.exception))
        case Some(i) =>
          var s := Save(rows, nextId, i, SyncedRow(rows[i], email, d));
          Step(s.rows, s.nextId, if s.result.Returned? then Returned(false) else Raised(s.result.exception))
  }

  /** The whole view. A signature check that does not pass leaves the table as it was. */
  function SyncStep(rows: seq<UserRow>, nextId: nat, payload: seq<Byte>, signature: Option<string>,
                    secret: Option<string>, hexMac: (string, seq<Byte>) -> HexText, ev: WebhookEvent): (s: Step<Reply>)
    ensures WellFormed(rows, nextId) ==> WellFormed(s.rows, s.nextId)
    ensures VerifySignature(payload, signature, secret, hexMac) != Returned(true) ==> s.rows == rows && s.nextId == nextId
    ensures VerifySignature(payload, signature, secret, hexMac) == Returned(false) ==>
      s.result == Returned(Reply(401, InvalidSignature))
    ensures s.result.Returned? && s.result.value.status == 401 ==>
      VerifySignature(payload, signature, secret, hexMac) == Returned(false)
  {
    match VerifySignature(payload, signature, secret, hexMac)
    case Raised(e) => Step(rows, nextId, Raised(e))
    case Returned(ok) =>
      if !ok then Step(rows, nextId, Returned(Reply(401, InvalidSignature)))
      else if ev.eventType == Some(UserCreated) || ev.eventType == Some(UserUpdated) then
        match ev.data
        case None => Step(rows, nextId, Raised(NoneHasNoGet))
        case Some(d) =>
          var u := UpsertStep(rows, nextId, d);
          Step(u.rows, u.nextId, if u.result.Returned? then Returned(Reply(200, Success(Some(u.result.value))))
                                else Raised(u.result.exception))
      else if ev.eventType == Some(UserDeleted) then
        match ev.data
        case None => Step(rows, nextId, Raised(NoneHasNoGet))
        case Some(d) => DeactivatedProperties(rows, nextId, d.id); Step(Deactivated(rows, d.id), nextId, Returned(Reply(200, Success(None))))
      else Step(rows, nextId, Returned(Reply(200, Ignored)))
  }

  /** An upsert adds a row exactly when the id is new, and then only one; it leaves the synced
      columns of the id's row equal to the payload (blank when absent). */
  lemma UpsertProperties(rows: seq<UserRow>, nextId: nat, d: UserData)
    requires WellFormed(rows, nextId)
    requires UpsertStep(rows, nextId, d).result.Returned?
    ensures var s := UpsertStep(rows, nextId, d);
      var email := PrimaryEmail(d).value;
      var id := d.id.value;
      && FindByClerkId(s.rows, id).Some?
      && (s.result.value ==> s.rows == rows + [s.rows[|rows|]] && s.nextId == nextId + 1)
      && (!s.result.value ==> |s.rows| == |rows| && s.nextId == nextId)
      && var u := s.rows[FindByClerkId(s.rows, id).value];
      && u.email == email && u.firstName == d.firstName.GetOr("") && u.lastName == d.lastName.GetOr("")
      && u.profileImageUrl == d.profileImageUrl.GetOr("")
  {
    var s := UpsertStep(rows, nextId, d);
    var email := PrimaryEmail(d).value;
    var id := d.id.value;
    var i: nat;
    if FindByClerkId(rows, id).None? {
      i := |rows|;
    } else {
      i := FindByClerkId(rows, id).value;
    }
    assert s.rows[i].clerkId == id;
    FindByClerkIdUnique(s.rows, s.nextId, id);
    assert FindByClerkId(s.rows, id) == Some(i);
  }

  /** `user.updated` for a row that exists keeps its id, its activity (a deactivated user stays
      inactive) and its permissions. */
  lemma UpdateKeepsStanding(rows: seq<UserRow>, nextId: nat, d: UserData, i: nat)
    requires WellFormed(rows, nextId)
    requires d.id.Some? && i < |rows| && rows[i].clerkId == d.id.value
    requires UpsertStep(rows, nextId, d).result.Returned?
    ensures var s := UpsertStep(rows, nextId, d);
      && s.result == Returned(false) && |s.rows| == |rows|
      && s.rows[i].id == rows[i].id && s.rows[i].clerkId == rows[i].clerkId
      && s.rows[i].isActive == rows[i].isActive && s.rows[i].isStaff == rows[i].isStaff
      && s.rows[i].isSuperuser == rows[i].isSuperuser
      && forall j :: 0 <= j < |rows| && j != i ==> s.rows[j] == rows[j]
  {
    FindByClerkIdUnique(rows, nextId, d.id.value);
  }

  /** Replaying an upsert event changes nothing more, and reports `created` false. */
  lemma {:induction false} UpsertReplay(rows: seq<UserRow>, nextId: nat, d: UserData)
    requires WellFormed(rows, nextId)
    requires UpsertStep(rows, nextId, d).result.Returned?
    ensures var s1 := UpsertStep(rows, nextId, d);
      var s2 := UpsertStep(s1.rows, s1.nextId, d);
      s2.rows == s1.rows && s2.nextId == s1.nextId && s2.result == Returned(false)
  {
    var s1 := UpsertStep(rows, nextId, d);
    var email := PrimaryEmail(d).value;
    var id := d.id.value;
    UpsertProperties(rows, nextId, d);
    var i := FindByClerkId(s1.rows, id).value;
    var u := s1.rows[i];
    assert SyncedRow(u, email, d) == u;
    assert !EmailUsed(s1.rows, i, u.email) && !ClerkIdUsed(s1.rows, i, u.clerkId);
    assert s1.rows[i := u] == s1.rows;
  }

  /** `user.deleted` removes no row and adds none; it marks the rows with that id inactive and
      changes nothing else, and replaying it changes nothing more. */
  lemma DeleteOnlyDeactivates(rows: seq<UserRow>, nextId: nat, payload: seq<Byte>, signature: Option<string>,
                              secret: Option<string>, hexMac: (string, seq<Byte>) -> HexText, d: UserData)
    requires VerifySignature(payload, signature, secret, hexMac) == Returned(true)
    ensures var s := SyncStep(rows, nextId, payload, signature, secret, hexMac, WebhookEvent(Some(UserDeleted), Some(d)));
      && s.result == Returned(Reply(200, Success(None)))
      && s.rows == Deactivated(rows, d.id) && s.nextId == nextId
      && SyncStep(s.rows, s.nextId, payload, signature, secret, hexMac, WebhookEvent(Some(UserDeleted), Some(d))) == s
  {
    DeactivatedProperties(rows, nextId, d.id);
  }

  /** Any other event type is answered `'ignored'` and changes nothing. */
  lemma OtherEventsIgnored(rows: seq<UserRow>, nextId: nat, payload: seq<Byte>, signature: Option<string>,
                           secret: Option<string>, hexMac: (string, seq<Byte>) -> HexText, ev: WebhookEvent)
    requires VerifySignature(payload, signature, secret, hexMac) == Returned(true)
    requires ev.eventType !in {Some(UserCreated), Some(UserUpdated), Some(UserDeleted)}
    ensures SyncStep(rows, nextId, payload, signature, secret, hexMac, ev) == Step(rows, nextId, Returned(Reply(200, Ignored)))
  {
  }

  /** `clerk_webhook_sync_user(request)`. */
  method SyncUser(table: UserTable, payload: seq<Byte>, signature: Option<string>, secret: Option<string>,
                  hexMac: (string, seq<Byte>) -> HexText, ev: WebhookEvent) returns (res: PyResult<Reply>)
    requires table.Valid()
    modifies table
    ensures table.Valid()
    ensures var s := SyncStep(old(table.rows), old(table.nextId), payload, signature, secret, hexMac, ev);
      table.rows == s.rows && table.nextId == s.nextId && res == s.result
  {
    var check := VerifySignature(payload, signature, secret, hexMac);
    if check.Raised? {
      return Raised(check.exception);
    }
    if !check.value {
      return Returned(Reply(401, InvalidSignature));
    }
    if ev.eventType == Some(UserCreated) || ev.eventType == Some(UserUpdated) {
      if ev.data.None? {
        return Raised(NoneHasNoGet);
      }
      var d := ev.data.value;
      var email := PrimaryEmail(d);
      if email.Raised? {
        return Raised(email.exception);
      }
      if d.id.None? {
        return Raised(ConstraintFailed(NotNullColumn, "users.clerk_id"));
      }
      var found := FindByClerkId(table.rows, d.id.value);
      var saved: PyResult<UserRow>;
      if found.None? {
        saved := table.Create(CreatedRow(d.id.value, email.value, d));
      } else {
        saved := table.Update(found.value, SyncedRow(table.rows[found.value], email.value, d));
      }
      if saved.Raised? {
        return Raised(saved.exception);
      }
      return Returned(Reply(200, Success(Some(found.None?))));
    } else if ev.eventType == Some(UserDeleted) {
      if ev.data.None? {
        return Raised(NoneHasNoGet);
      }
      table.Deactivate(ev.data.value.id);
      return Returned(Reply(200, Success(None)));
    }
    return Returned(Reply(200, Ignored));
  }
}
