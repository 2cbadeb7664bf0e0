/** The `users` table of the authentication app and its manager. A row is keyed by the identity
    provider's `clerk_id`; `clerk_id` and `email` are unique columns, so the database refuses a
    `save()` that would repeat either. The table is in memory; row ids are handed out in
    increasing order from 1, as an auto-increment key is. */
module UserModels {
  import opened Common
  import opened Strings
  import opened Django

  /** A row of `users`: the columns the core reads or writes (timestamps and the password are not
      part of this model). */
  datatype UserRow = UserRow(
    id: nat, clerkId: string, email: string, firstName: string, lastName: string,
    profileImageUrl: string, phoneNumber: string, isActive: bool, isStaff: bool, isSuperuser: bool)

  /** Another row than the one at `skip` already holds this `clerk_id` (`skip` is -1 for a new row). */
  predicate ClerkIdUsed(rows: seq<UserRow>, skip: int, clerkId: string) {
    exists j :: 0 <= j < |rows| && j != skip && rows[j].clerkId == clerkId
  }

  /** Another row than the one at `skip` already holds this `email`. */
  predicate EmailUsed(rows: seq<UserRow>, skip: int, email: string) {
    exists j :: 0 <= j < |rows| && j != skip && rows[j].email == email
  }

  /** The table's integrity: ids, `clerk_id`s and emails are each unique, and every id was handed
      out before `nextId`. */
  predicate WellFormed(rows: seq<UserRow>, nextId: nat) {
    (forall i, j :: 0 <= i < j < |rows| ==>
       rows[i].id != rows[j].id && rows[i].clerkId != rows[j].clerkId && rows[i].email != rows[j].email)
    && (forall i :: 0 <= i < |rows| ==> rows[i].id < nextId)
  }

  /** The table after an operation, and what the operation returned or raised. */
  datatype Step<+T> = Step(rows: seq<UserRow>, nextId: nat, result: PyResult<T>)

  /** `save()` of a new row: it is stored under the next id, unless it repeats a unique column. */
  function Insert(rows: seq<UserRow>, nextId: nat, r: UserRow): (s: Step<UserRow>)
    ensures s.result.Returned? <==> !ClerkIdUsed(rows, -1, r.clerkId) && !EmailUsed(rows, -1, r.email)
    ensures s.result.Returned? ==>
      s.result.value == r.(id := nextId) && s.rows == rows + [s.result.value] && s.nextId == nextId + 1
    ensures s.result.Raised? ==> s.rows == rows && s.nextId == nextId && s.result.exception.name == "IntegrityError"
    ensures WellFormed(rows, nextId) ==> WellFormed(s.rows, s.nextId)
  {
    if ClerkIdUsed(rows, -1, r.clerkId) then Step(rows, nextId, Raised(ConstraintFailed(UniqueColumn, "users.clerk_id")))
    else if EmailUsed(rows, -1, r.email) then Step(rows, nextId, Raised(ConstraintFailed(UniqueColumn, "users.email")))
    else
      var stored := r.(id := nextId);
      Step(rows + [stored], nextId + 1, Returned(stored))
  }

  /** `save()` of the row loaded from position `i`, with new column values: it replaces that row
      (keeping its id), unless it would repeat another row's `clerk_id` or email. */
  function Save(rows: seq<UserRow>, nextId: nat, i: nat, r: UserRow): (s: Step<UserRow>)
    requires i < |rows|
    ensures s.result.Returned? <==> !ClerkIdUsed(rows, i, r.clerkId) && !EmailUsed(rows, i, r.email)
    ensures s.result.Returned? ==> s.result.value == r.(id := rows[i].id) && s.rows == rows[i := s.result.value]
    ensures s.result.Raised? ==> s.rows == rows && s.result.exception.name == "IntegrityError"
    ensures s.nextId == nextId
    ensures WellFormed(rows, nextId) ==> WellFormed(s.rows, s.nextId)
  {
    if ClerkIdUsed(rows, i, r.clerkId) then Step(rows, nextId, Raised(ConstraintFailed(UniqueColumn, "users.clerk_id")))
    else if EmailUsed(rows, i, r.email) then Step(rows, nextId, Raised(ConstraintFailed(UniqueColumn, "users.email")))
    else
      var stored := r.(id := rows[i].id);
      Step(rows[i := stored], nextId, Returned(stored))
  }

  /** `User.objects.get(clerk_id=...)` as a position: the row holding that `clerk_id`, if any. */
  function FindByClerkId(rows: seq<UserRow>, clerkId: string): (r: Option<nat>)
    ensures r.Some? ==> r.value < |rows| && rows[r.value].clerkId == clerkId
    ensures r.Some? ==> forall j :: 0 <= j < r.value ==> rows[j].clerkId != clerkId
    ensures r.None? <==> !ClerkIdUsed(rows, -1, clerkId)
  {
    if rows == [] then None
    else if rows[0].clerkId == clerkId then Some(0)
    else match FindByClerkId(rows[1..], clerkId)
      case None => assert forall j :: 1 <= j < |rows| ==> rows[j] == rows[1..][j - 1]; None
      case Some(k) => Some(k + 1)
  }

  /** In a well-formed table the row found is the only row with that `clerk_id`. */
  lemma FindByClerkIdUnique(rows: seq<UserRow>, nextId: nat, clerkId: string)
    requires WellFormed(rows, nextId) && FindByClerkId(rows, clerkId).Some?
    ensures forall j :: 0 <= j < |rows| && rows[j].clerkId == clerkId ==> j == FindByClerkId(rows, clerkId).value
  {
  }

  /** `User.objects.filter(clerk_id=clerkId).update(is_active=False)`: the matching rows become
      inactive; no row is removed or added and no other column changes. A `None` id matches no
      row, since `clerk_id` is never null. */
  function Deactivated(rows: seq<UserRow>, clerkId: Option<string>): (r: seq<UserRow>)
    ensures |r| == |rows|
    ensures forall i :: 0 <= i < |rows| ==> r[i].(isActive := rows[i].isActive) == rows[i]
    ensures forall i :: 0 <= i < |rows| ==> r[i].isActive == (rows[i].isActive && clerkId != Some(rows[i].clerkId))
  {
    seq(|rows|, i requires 0 <= i < |rows| =>
          if clerkId == Some(rows[i].clerkId) then rows[i].(isActive := false) else rows[i])
  }

  /** Deactivating keeps the table well formed, and deactivating twice is deactivating once. */
  lemma DeactivatedProperties(rows: seq<UserRow>, nextId: nat, clerkId: Option<string>)
    ensures WellFormed(rows, nextId) ==> WellFormed(Deactivated(rows, clerkId), nextId)
    ensures Deactivated(Deactivated(rows, clerkId), clerkId) == Deactivated(rows, clerkId)
  {
    var once := Deactivated(rows, clerkId);
    var twice := Deactivated(once, clerkId);
    assert forall i :: 0 <= i < |rows| ==> twice[i] == once[i];
  }

  /** The table as a mutable object: its rows in insertion order and the next id to hand out. */
  class UserTable {
    var rows: seq<UserRow>
    var nextId: nat

    predicate Valid()
      reads this
    {
      WellFormed(rows, nextId)
    }

    constructor ()
      ensures rows == [] && nextId == 1 && Valid()
    {
      rows := [];
      nextId := 1;
    }

    /** `row.save()` of a new row. */
    method Create(r: UserRow) returns (res: PyResult<UserRow>)
      requires Valid()
      modifies this
      ensures Valid()
      ensures var s := Insert(old(rows), old(nextId), r); rows == s.rows && nextId == s.nextId && res == s.result
    {
      if ClerkIdUsed(rows, -1, r.clerkId) {
        res := Raised(ConstraintFailed(UniqueColumn, "users.clerk_id"));
      } else if EmailUsed(rows, -1, r.email) {
        res := Raised(ConstraintFailed(UniqueColumn, "users.email"));
      } else {
        var stored := r.(id := nextId);
        rows := rows + [stored];
        nextId := nextId + 1;
        res := Returned(stored);
      }
    }

    /** `row.save()` of the row at position `i` after its fields were assigned. */
    method Update(i: nat, r: UserRow) returns (res: PyResult<UserRow>)
      requires Valid() && i < |rows|
      modifies this
      ensures Valid()
      ensures var s := Save(old(rows), old(nextId), i, r); rows == s.rows && nextId == s.nextId && res == s.result
    {
      if ClerkIdUsed(rows, i, r.clerkId) {
        res := Raised(ConstraintFailed(UniqueColumn, "users.clerk_id"));
      } else if EmailUsed(rows, i, r.email) {
        res := Raised(ConstraintFailed(UniqueColumn, "users.email"));
      } else {
        var stored := r.(id := rows[i].id);
        rows := rows[i := stored];
        res := Returned(stored);
      }
    }

    /** `filter(clerk_id=clerkId).update(is_active=False)`. */
    method Deactivate(clerkId: Option<string>)
      requires Valid()
      modifies this
      ensures Valid()
      ensures rows == Deactivated(old(rows), clerkId) && nextId == old(nextId)
    {
      DeactivatedProperties(rows, nextId, clerkId);
      rows := Deactivated(rows, clerkId);
    }
  }

  // ---------------------------------------------------------------------------------------------
  // UserManager

  /** The keyword arguments a caller passes through `**extra_fields`; an absent one leaves the
      column at its default. */
  datatype ExtraFields = ExtraFields(
    firstName: Option<string>, lastName: Option<string>, profileImageUrl: Option<string>,
    phoneNumber: Option<string>, isActive: Option<bool>, isStaff: Option<bool>, isSuperuser: Option<bool>)

  const NoExtraFields := ExtraFields(None, None, None, None, None, None, None)

  /** The unsaved row `self.model(clerk_id=..., email=..., **extra_fields)`: each supplied field,
      and otherwise the column default (blank text, active, neither staff nor superuser). */
  function NewUser(clerkId: string, email: string, extra: ExtraFields): UserRow {
    UserRow(0, clerkId, email, extra.firstName.GetOr(""), extra.lastName.GetOr(""),
            extra.profileImageUrl.GetOr(""), extra.phoneNumber.GetOr(""),
            extra.isActive.GetOr(true), extra.isStaff.GetOr(false), extra.isSuperuser.GetOr(false))
  }

  /** A user created with no extra fields is active, not staff and not a superuser, with blank
      names, image and phone. */
  lemma NewUserDefaults(clerkId: string, email: string)
    ensures var u := NewUser(clerkId, email, NoExtraFields);
      u.isActive && !u.isStaff && !u.isSuperuser
      && u.firstName == "" && u.lastName == "" && u.profileImageUrl == "" && u.phoneNumber == ""
      && u.clerkId == clerkId && u.email == email
  {
  }

  /** Python's `str.lower` on ASCII letters. */
  function LowerAscii(s: string): (r: string)
    ensures |r| == |s|
    ensures forall i :: 0 <= i < |s| ==> r[i] == (if 'A' <= s[i] <= 'Z' then (s[i] as int + 32) as char else s[i])
  {
    seq(|s|, i requires 0 <= i < |s| => if 'A' <= s[i] <= 'Z' then (s[i] as int + 32) as char else s[i])
  }

  /** The position of the last `c` among the first `n` characters of `s`. */
  function LastIndexIn(s: string, c: char, n: nat): (r: Option<nat>)
    requires n <= |s|
    ensures r.Some? ==> r.value < n && s[r.value] == c && forall k :: r.value < k < n ==> s[k] != c
    ensures r.None? ==> forall k :: 0 <= k < n ==> s[k] != c
  {
    if n == 0 then None
    else if s[n - 1] == c then Some(n - 1)
    else LastIndexIn(s, c, n - 1)
  }

  /** The position of the last `c` in `s`, as `rsplit(c, 1)` finds it. */
  function LastIndexOf(s: string, c: char): (r: Option<nat>)
    ensures r.Some? ==> r.value < |s| && s[r.value] == c && forall k :: r.value < k < |s| ==> s[k] != c
    ensures r.None? ==> forall k :: 0 <= k < |s| ==> s[k] != c
  {
    LastIndexIn(s, c, |s|)
  }

  /** `BaseUserManager.normalize_email`: `None` becomes the empty string; when the stripped text
      contains an `@`, the part after the last `@` is lower-cased and the stripped text kept
      otherwise; without an `@` the text is returned as given, unstripped. */
  function NormalizeEmail(email: Option<string>): string {
    var e := email.GetOr("");
    var t := Strip(e);
    match LastIndexOf(t, '@')
    case None => e
    case Some(k) => t[..k] + "@" + LowerAscii(t[k + 1..])
  }

  lemma LowerAsciiIdempotent(s: string)
    ensures LowerAscii(LowerAscii(s)) == LowerAscii(s)
  {
  }

  /** A text that neither begins nor ends with a removable character is its own trim. */
  lemma TrimByUnchanged(s: string, ws: char -> bool)
    requires s != [] && !ws(s[0]) && !ws(s[|s| - 1])
    ensures TrimBy(s, ws) == s
  {
    assert DropLeading(s, ws) == s;
  }

  /** The last `@` sits where `LastIndexOf` says: the position is determined by its ensures. */
  lemma {:induction false} LastIndexInAt(s: string, n: nat, k: nat)
    requires k < n <= |s| && s[k] == '@' && forall j :: k < j < n ==> s[j] != '@'
    ensures LastIndexIn(s, '@', n) == Some(k)
    decreases n
  {
    if n - 1 != k {
      LastIndexInAt(s, n - 1, k);
    }
  }

  lemma LastIndexOfAt(s: string, k: nat)
    requires k < |s| && s[k] == '@' && forall j :: k < j < |s| ==> s[j] != '@'
    ensures LastIndexOf(s, '@') == Some(k)
  {
    LastIndexInAt(s, |s|, k);
  }

  /** The ends of a trimmed text are not removable. */
  lemma TrimByEnds(s: string, ws: char -> bool)
    ensures var r := TrimBy(s, ws); r != [] ==> !ws(r[0]) && !ws(r[|r| - 1])
  {
    var d := DropLeading(s, ws);
    var r := DropTrailing(d, ws);
    if r != [] {
      assert r[0] == d[0];
    }
  }

  /** Lower-casing neither creates nor removes an `@`, and keeps the last character non-blank. */
  lemma LowerAsciiKeeps(s: string)
    ensures forall j :: 0 <= j < |s| ==> (LowerAscii(s)[j] == '@' <==> s[j] == '@')
    ensures s != [] && !IsPyWhitespace(s[|s| - 1]) ==> !IsPyWhitespace(LowerAscii(s)[|s| - 1])
  {
  }

  /** In `a + "@" + d` with no `@` in `d`, the last `@` is the one added. */
  lemma LastAtOfJoin(a: string, d: string)
    requires forall j :: 0 <= j < |d| ==> d[j] != '@'
    ensures LastIndexOf(a + "@" + d, '@') == Some(|a|)
  {
    var r := a + "@" + d;
    assert r[|a|] == '@';
    assert forall j :: |a| < j < |r| ==> r[j] == d[j - |a| - 1];
    LastIndexOfAt(r, |a|);
  }

  /** `a + "@" + d` is stripped when `a` does not begin and `d` does not end with a blank. */
  lemma StripOfJoin(a: string, d: string)
    requires a != [] ==> !IsPyWhitespace(a[0])
    requires d != [] ==> !IsPyWhitespace(d[|d| - 1])
    ensures Strip(a + "@" + d) == a + "@" + d
  {
    var r := a + "@" + d;
    assert r[0] == (if a == [] then '@' else a[0]);
    assert r[|r| - 1] == (if d == [] then '@' else d[|d| - 1]);
    TrimByUnchanged(r, IsPyWhitespace);
  }

  /** The normal form of a stripped address with its last `@` at `k` is stripped, has its last
      `@` at `k`, and keeps the local part. */
  lemma NormalFormShape(t: string, k: nat)
    requires t != [] && !IsPyWhitespace(t[0]) && !IsPyWhitespace(t[|t| - 1])
    requires LastIndexOf(t, '@') == Some(k)
    ensures var r := t[..k] + "@" + LowerAscii(t[k + 1..]);
      Strip(r) == r && LastIndexOf(r, '@') == Some(k) && r[..k] == t[..k] && r[k + 1..] == LowerAscii(t[k + 1..])
  {
    var local, tail := t[..k], t[k + 1..];
    var dom := LowerAscii(tail);
    LowerAsciiKeeps(tail);
    assert forall j :: 0 <= j < |tail| ==> tail[j] != '@' by {
      forall j | 0 <= j < |tail| ensures tail[j] != '@' {
        assert tail[j] == t[k + 1 + j];
      }
    }
    LastAtOfJoin(local, dom);
    assert local != [] ==> local[0] == t[0];
    assert tail != [] ==> tail[|tail| - 1] == t[|t| - 1];
    StripOfJoin(local, dom);
    var r := local + "@" + dom;
    assert r[..k] == local && r[k + 1..] == dom;
  }

  /** Normalising an address twice is normalising it once. */
  lemma NormalizeEmailIdempotent(email: Option<string>)
    ensures NormalizeEmail(Some(NormalizeEmail(email))) == NormalizeEmail(email)
  {
    var e := email.GetOr("");
    var t := Strip(e);
    var r := NormalizeEmail(email);
    match LastIndexOf(t, '@')
    case None =>
      assert r == e;
      assert NormalizeEmail(Some(r)) == e;
    case Some(k) =>
      var dom := LowerAscii(t[k + 1..]);
      assert r == t[..k] + "@" + dom;
      TrimByEnds(e, IsPyWhitespace);
      NormalFormShape(t, k);
      LowerAsciiIdempotent(t[k + 1..]);
      var r2 := NormalizeEmail(Some(r));
      assert Strip(r) == r && LastIndexOf(r, '@') == Some(k);
      assert r[..k] == t[..k] && r[k + 1..] == dom && LowerAscii(dom) == dom;
      assert r2 == r[..k] + "@" + LowerAscii(r[k + 1..]);
  }

  /** `extra_fields.setdefault(key, value)`: the caller's value when supplied, otherwise `value`. */
  function SetDefault(supplied: Option<bool>, value: bool): (r: Option<bool>)
    ensures r.Some? && (supplied.Some? ==> r == supplied) && (supplied.None? ==> r.value == value)
  {
    if supplied.Some? then supplied else Some(value)
  }

  const MissingClerkId := PyException("ValueError", "Users must have a clerk_id")

  /** `UserManager.create_user` once the address has been normalised to `email`: a falsy
      `clerk_id` raises `ValueError` and creates nothing; otherwise the row with that email and
      the extra fields is saved. */
  function StoreNewUser(rows: seq<UserRow>, nextId: nat, clerkId: Option<string>, email: string,
                        extra: ExtraFields): (s: Step<UserRow>)
    ensures !Truthy(clerkId) ==> s == Step(rows, nextId, Raised(MissingClerkId))
    ensures Truthy(clerkId) ==> s == Insert(rows, nextId, NewUser(clerkId.value, email, extra))
  {
    if !Truthy(clerkId) then Step(rows, nextId, Raised(MissingClerkId))
    else Insert(rows, nextId, NewUser(clerkId.value, email, extra))
  }

  /** `UserManager.create_user`: the row is stored with the normalised address. */
  function CreateUserStep(rows: seq<UserRow>, nextId: nat, clerkId: Option<string>, email: Option<string>,
                          extra: ExtraFields): (s: Step<UserRow>)
    ensures !Truthy(clerkId) ==> s == Step(rows, nextId, Raised(MissingClerkId))
    ensures s == StoreNewUser(rows, nextId, clerkId, NormalizeEmail(email), extra)
  {
    StoreNewUser(rows, nextId, clerkId, NormalizeEmail(email), extra)
  }

  /** The extra fields `create_superuser` passes on: staff and superuser unless the caller said otherwise. */
  function SuperuserFields(extra: ExtraFields): ExtraFields {
    extra.(isStaff := SetDefault(extra.isStaff, true), isSuperuser := SetDefault(extra.isSuperuser, true))
  }

  /** `create_user` with the normalised address `email` either fails on a missing id, or fails on
      a repeated unique column, or adds exactly one row holding the given id, that email and the
      supplied fields (defaults elsewhere) under a fresh id. */
  lemma CreateUserProperties(rows: seq<UserRow>, nextId: nat, clerkId: Option<string>, email: string,
                             extra: ExtraFields)
    ensures var s := StoreNewUser(rows, nextId, clerkId, email, extra);
      s.result.Returned? <==>
        Truthy(clerkId) && !ClerkIdUsed(rows, -1, clerkId.value) && !EmailUsed(rows, -1, email)
    ensures var s := StoreNewUser(rows, nextId, clerkId, email, extra);
      s.result.Returned? ==>
        && clerkId.Some? && s.rows == rows + [s.result.value] && s.result.value.id == nextId
        && s.result.value.clerkId == clerkId.value && s.result.value.email == email
        && s.result.value.isActive == extra.isActive.GetOr(true)
        && s.result.value.isStaff == extra.isStaff.GetOr(false)
        && s.result.value.isSuperuser == extra.isSuperuser.GetOr(false)
  {
  }

  /** `create_user` keeps the table well formed, and a failed call leaves it as it was. */
  lemma CreateUserKeepsTable(rows: seq<UserRow>, nextId: nat, clerkId: Option<string>, email: string,
                             extra: ExtraFields)
    requires WellFormed(rows, nextId)
    ensures var s := StoreNewUser(rows, nextId, clerkId, email, extra);
      WellFormed(s.rows, s.nextId) && (s.result.Raised? ==> s.rows == rows)
  {
  }

  /** `create_superuser` makes a staff superuser unless the caller explicitly passed `False` for
      either flag, in which case the caller's choice stands. */
  lemma CreateSuperuserFlags(rows: seq<UserRow>, nextId: nat, clerkId: Option<string>, email: string,
                             extra: ExtraFields)
    ensures var s := StoreNewUser(rows, nextId, clerkId, email, SuperuserFields(extra));
      s.result.Returned? ==>
        s.result.value.isStaff == extra.isStaff.GetOr(true) && s.result.value.isSuperuser == extra.isSuperuser.GetOr(true)
  {
    var fields := SuperuserFields(extra);
    assert fields.isStaff.GetOr(false) == extra.isStaff.GetOr(true);
    assert fields.isSuperuser.GetOr(false) == extra.isSuperuser.GetOr(true);
  }

  /** `User.objects.create_user(clerk_id, email, **extra_fields)`. */
  method CreateUser(table: UserTable, clerkId: Option<string>, email: Option<string>, extra: ExtraFields)
    returns (res: PyResult<UserRow>)
    requires table.Valid()
    modifies table
    ensures table.Valid()
    ensures var s := CreateUserStep(old(table.rows), old(table.nextId), clerkId, email, extra);
      table.rows == s.rows && table.nextId == s.nextId && res == s.result
  {
    if clerkId.None? || clerkId.value == "" {
      return Raised(MissingClerkId);
    }
    var normalized := NormalizeEmail(email);
    res := table.Create(NewUser(clerkId.value, normalized, extra));
  }

  /** `User.objects.create_superuser(clerk_id, email, **extra_fields)`. */
  method CreateSuperuser(table: UserTable, clerkId: Option<string>, email: Option<string>, extra: ExtraFields)
    returns (res: PyResult<UserRow>)
    requires table.Valid()
    modifies table
    ensures table.Valid()
    ensures var s := CreateUserStep(old(table.rows), old(table.nextId), clerkId, email, SuperuserFields(extra));
      table.rows == s.rows && table.nextId == s.nextId && res == s.result
  {
    var fields := extra.(isStaff := SetDefault(extra.isStaff, true));
    fields := fields.(isSuperuser := SetDefault(fields.isSuperuser, true));
    res := CreateUser(table, clerkId, email, fields);
  }
}
