/**
 * The user directory (src/users/users.service.ts): phone normalisation, the
 * digits-only lookup key, query filtering, and the in-place updates of the
 * users array (invitations, registration, legacy-password migration, push
 * token and profile updates). Password hashing is an opaque pair of
 * functions: `hash` and `compare`.
 */
module Users {
  import opened Common

  datatype User = User(
    id: string,
    name: string,
    email: Option<string>,
    password: Option<string>,
    passwordHash: Option<string>,
    mobile: Option<string>,
    avatar: Option<string>,
    pushToken: Option<string>)

  /** A placeholder user created by an invitation: a name and possibly a mobile. */
  function Invited(id: string, name: string, mobile: Option<string>): User {
    User(id, name, None, None, None, mobile, None, None)
  }

  // ---------------------------------------------------------------------
  // Phone numbers

  predicate IsDigit(c: char) { '0' <= c <= '9' }

  predicate IsPhoneChar(c: char) { IsDigit(c) || c == '+' }

  /** `s.replace(/\D/g, '')`. */
  function Digits(s: string): string {
    Filter(s, IsDigit)
  }

  /** A normalised phone: a '+' or a digit, followed by digits only. */
  predicate IsNormalPhone(s: string) {
    |s| > 0 && IsPhoneChar(s[0]) && forall i :: 1 <= i < |s| ==> IsDigit(s[i])
  }

  /** `normalizePhone`. */
  function NormalizePhone(phone: Option<string>): Option<string> {
    if !Truthy(phone) then phone
    else
      var cleaned := Filter(Trim(phone.value), IsPhoneChar);
      if cleaned == "" then None
      else if cleaned[0] == '+' then Some("+" + Digits(cleaned[1..]))
      else Some(Digits(cleaned))
  }

  /** `phoneLookupKey`. */
  function PhoneLookupKey(phone: Option<string>): Option<string> {
    var normalized := NormalizePhone(phone);
    if !Truthy(normalized) then None else Some(Digits(normalized.value))
  }

  lemma DigitsAfterPlus(s: string)
    requires |s| > 0 && s[0] == '+'
    ensures Digits(s) == Digits(s[1..])
  {
    assert s == [s[0]] + s[1..];
    FilterConcat([s[0]], s[1..], IsDigit);
    assert Filter([s[0]], IsDigit) == [];
  }

  lemma CleanedKeepsDigits(s: string)
    ensures Digits(Filter(Trim(s), IsPhoneChar)) == Digits(s)
  {
    FilterIgnoresTrim(s, IsPhoneChar);
    FilterFilter(s, IsDigit, IsPhoneChar);
  }

  /**
   * What `normalizePhone` does: a falsy input comes back unchanged; an input
   * without digits and '+' gives undefined; anything else becomes a
   * normalised phone with exactly the input's digits, led by '+' when the
   * cleaned input starts with '+'.
   */
  lemma {:induction false} NormalizePhoneSpec(phone: Option<string>)
    ensures !Truthy(phone) ==> NormalizePhone(phone) == phone
    ensures Truthy(phone) ==>
      (NormalizePhone(phone).None? <==> Filter(phone.value, IsPhoneChar) == "")
    ensures Truthy(phone) && NormalizePhone(phone).Some? ==>
      var r := NormalizePhone(phone).value;
      IsNormalPhone(r) && Digits(r) == Digits(phone.value)
      && (r[0] == '+' <==> Filter(phone.value, IsPhoneChar)[0] == '+')
  {
    if Truthy(phone) {
      var s := phone.value;
      var cleaned := Filter(Trim(s), IsPhoneChar);
      FilterIgnoresTrim(s, IsPhoneChar);
      CleanedKeepsDigits(s);
      if cleaned != "" {
        var r := NormalizePhone(phone).value;
        if cleaned[0] == '+' {
          DigitsAfterPlus(cleaned);
          var d := Digits(cleaned[1..]);
          assert r == "+" + d;
          assert r[1..] == d;
          DigitsAfterPlus(r);
          FilterFilter(cleaned[1..], IsDigit, IsDigit);
        } else {
          assert IsDigit(cleaned[0]);
          FilterHead(cleaned, IsDigit);
          FilterFilter(cleaned, IsDigit, IsDigit);
        }
      }
    }
  }

  /** A normalised phone has no surrounding whitespace. */
  lemma TrimNormal(s: string)
    requires IsNormalPhone(s)
    ensures Trim(s) == s
  {
    assert !IsSpace(s[0]) && !IsSpace(s[|s| - 1]);
    assert LeadingSpaces(s) == 0;
    assert TrailingSpaces(s) == 0;
  }

  /** `normalizePhone` leaves a normalised phone as it is. */
  lemma NormalizeNormal(s: string)
    requires IsNormalPhone(s)
    ensures NormalizePhone(Some(s)) == Some(s)
  {
    TrimNormal(s);
    FilterAll(s, IsPhoneChar);
    if s[0] == '+' {
      FilterAll(s[1..], IsDigit);
      assert "+" + s[1..] == s;
    } else {
      FilterAll(s, IsDigit);
    }
  }

  /** Normalising a normalised phone changes nothing. */
  lemma {:induction false} NormalizePhoneIdempotent(phone: Option<string>)
    ensures NormalizePhone(NormalizePhone(phone)) == NormalizePhone(phone)
  {
    NormalizePhoneSpec(phone);
    if Truthy(phone) && NormalizePhone(phone).Some? {
      NormalizeNormal(NormalizePhone(phone).value);
    }
  }

  /**
   * The lookup key is the input's digits, and it exists exactly when the
   * input is truthy and holds a digit or a '+'.
   */
  lemma {:induction false} PhoneLookupKeySpec(phone: Option<string>)
    ensures PhoneLookupKey(phone) ==
      if Truthy(phone) && Filter(phone.value, IsPhoneChar) != "" then Some(Digits(phone.value)) else None
    ensures PhoneLookupKey(phone).Some? ==>
      forall i :: 0 <= i < |PhoneLookupKey(phone).value| ==> IsDigit(PhoneLookupKey(phone).value[i])
  {
    NormalizePhoneSpec(phone);
  }

  /** Two truthy phones share a lookup key exactly when they carry the same digits. */
  lemma SameKeyIffSameDigits(a: string, b: string)
    requires Filter(a, IsDigit) != "" && Filter(b, IsDigit) != ""
    ensures PhoneLookupKey(Some(a)) == PhoneLookupKey(Some(b)) <==> Digits(a) == Digits(b)
  {
    FilterFilter(a, IsDigit, IsPhoneChar);
    FilterFilter(b, IsDigit, IsPhoneChar);
    PhoneLookupKeySpec(Some(a));
    PhoneLookupKeySpec(Some(b));
  }

  /** '+15551234567' and '15551234567' find the same user. */
  lemma PlusPrefixDoesNotMatter(d: string)
    requires |d| > 0 && forall i :: 0 <= i < |d| ==> IsDigit(d[i])
    ensures PhoneLookupKey(Some("+" + d)) == PhoneLookupKey(Some(d))
  {
    FilterAll(d, IsDigit);
    DigitsAfterPlus("+" + d);
    assert ("+" + d)[1..] == d;
    SameKeyIffSameDigits("+" + d, d);
  }

  // ---------------------------------------------------------------------
  // Lookups (Array.prototype.find over the users array)

  /** Index of the first user with the given id (`findOneById`). */
  function IndexOfId(users: seq<User>, id: string): (r: Option<nat>)
    ensures r.Some? ==> r.value < |users| && users[r.value].id == id
    ensures r.None? ==> forall k :: 0 <= k < |users| ==> users[k].id != id
  {
    FirstWhere(users, (u: User) => u.id == id)
  }

  predicate UserExists(users: seq<User>, id: string) {
    IndexOfId(users, id).Some?
  }

  /** `entry.email?.trim().toLowerCase()`. */
  function StoredEmailKey(u: User): Option<string> {
    if u.email.Some? then Some(NormalizeEmail(u.email.value)) else None
  }

  /** `findOneByMobile` as written: two absent lookup keys compare equal. */
  function FindOneByMobileAsWritten(users: seq<User>, mobile: string): Option<User> {
    var key := PhoneLookupKey(Some(mobile));
    match FirstWhere(users, (u: User) => PhoneLookupKey(u.mobile) == key)
    case None => None
    case Some(i) => Some(users[i])
  }

  /** A mobile with no digits finds a user who has no mobile at all. */
  lemma DigitlessMobileFindsPhonelessUser()
    ensures var u := Invited("u-1", "No Phone", None);
      FindOneByMobileAsWritten([u], "abc") == Some(u)
  {
    var u := Invited("u-1", "No Phone", None);
    FilterNone("abc", IsPhoneChar);
    PhoneLookupKeySpec(Some("abc"));
    assert PhoneLookupKey(u.mobile) == None == PhoneLookupKey(Some("abc"));
  }

  /** `findOneByMobile`, matching only when the given mobile has a lookup key. */
  function FindOneByMobile(users: seq<User>, mobile: string): (r: Option<User>)
    ensures r.Some? ==> (r.value in users && PhoneLookupKey(r.value.mobile).Some?
      && PhoneLookupKey(r.value.mobile) == PhoneLookupKey(Some(mobile)))
    ensures r.None? ==> forall k :: 0 <= k < |users| ==>
      PhoneLookupKey(users[k].mobile).None? || PhoneLookupKey(users[k].mobile) != PhoneLookupKey(Some(mobile))
  {
    var key := PhoneLookupKey(Some(mobile));
    if key.None? then None
    else match FirstWhere(users, (u: User) => PhoneLookupKey(u.mobile) == key)
      case None => None
      case Some(i) => Some(users[i])
  }

  /** The corrected lookup agrees with the written one whenever the mobile has a key. */
  lemma FindOneByMobileAgrees(users: seq<User>, mobile: string)
    requires PhoneLookupKey(Some(mobile)).Some?
    ensures FindOneByMobile(users, mobile) == FindOneByMobileAsWritten(users, mobile)
  {
  }

  /** `create`'s duplicate-email check as written: an absent email matches every user without one. */
  function EmailTakenAsWritten(users: seq<User>, normalizedEmail: Option<string>): bool {
    FirstWhere(users, (u: User) => StoredEmailKey(u) == normalizedEmail).Some?
  }

  /** Registering without an email is refused as soon as any stored user lacks an email. */
  lemma MissingEmailCollidesAsWritten()
    ensures EmailTakenAsWritten([Invited("u-1", "Invitee", None)], None)
  {
  }

  /** The duplicate-email check, applied only when an email is given. */
  function EmailTaken(users: seq<User>, normalizedEmail: Option<string>): (r: bool)
    ensures r <==> (normalizedEmail.Some? &&
      exists k :: 0 <= k < |users| && StoredEmailKey(users[k]) == normalizedEmail)
  {
    normalizedEmail.Some? && FirstWhere(users, (u: User) => StoredEmailKey(u) == normalizedEmail).Some?
  }

  // ---------------------------------------------------------------------
  // findByQuery

  /** A query on the user fields; every field left undefined matches anything. */
  datatype Query = Query(
    id: Option<string>,
    name: Option<string>,
    email: Option<string>,
    password: Option<string>,
    passwordHash: Option<string>,
    mobile: Option<string>,
    avatar: Option<string>,
    pushToken: Option<string>)

  /** `user[key] === value` for every key of the query whose value is defined. */
  predicate Matches(u: User, q: Query) {
    && (q.id.None? || u.id == q.id.value)
    && (q.name.None? || u.name == q.name.value)
    && (q.email.None? || u.email == q.email)
    && (q.password.None? || u.password == q.password)
    && (q.passwordHash.None? || u.passwordHash == q.passwordHash)
    && (q.mobile.None? || u.mobile == q.mobile)
    && (q.avatar.None? || u.avatar == q.avatar)
    && (q.pushToken.None? || u.pushToken == q.pushToken)
  }

  /** The query with its `password` and `passwordHash` keys deleted. */
  function SafeQuery(q: Query): Query {
    q.(password := None, passwordHash := None)
  }

  /** `findByQuery`: the users, in order, that equal the query on every non-secret key. */
  function FindByQuery(users: seq<User>, q: Query): (r: seq<User>)
    ensures forall i :: 0 <= i < |r| ==> r[i] in users && Matches(r[i], SafeQuery(q))
    ensures forall i :: 0 <= i < |users| && Matches(users[i], SafeQuery(q)) ==> users[i] in r
  {
    Filter(users, (u: User) => Matches(u, SafeQuery(q)))
  }

  /** The secret keys of a query are never matched on: a query of secrets alone returns everyone. */
  lemma {:induction false} SecretsNeverMatched(users: seq<User>, password: Option<string>, passwordHash: Option<string>)
    ensures FindByQuery(users, Query(None, None, None, password, passwordHash, None, None, None)) == users
  {
    var q := Query(None, None, None, password, passwordHash, None, None, None);
    FilterAll(users, (u: User) => Matches(u, SafeQuery(q)));
  }

  // ---------------------------------------------------------------------
  // Passwords

  /** `checkPassword`: the hash when there is one, else a legacy plaintext password. */
  function CheckPassword(password: string, u: User, compare: (string, string) -> bool): (ok: bool)
    ensures Truthy(u.passwordHash) ==> (ok <==> compare(password, u.passwordHash.value))
    ensures !Truthy(u.passwordHash) ==> (ok <==> Truthy(u.password) && u.password.value == password)
  {
    if Truthy(u.passwordHash) then compare(password, u.passwordHash.value)
    else if Truthy(u.password) then u.password.value == password
    else false
  }

  /** A hashing pair is consistent when every password checks against its own hash. */
  ghost predicate Consistent(hash: string -> string, compare: (string, string) -> bool) {
    forall p :: compare(p, hash(p))
  }

  /** The migrated form of a legacy user: the plaintext is hashed and removed. */
  function Migrated(u: User, hash: string -> string): User
    requires Truthy(u.password)
  {
    u.(passwordHash := Some(hash(u.password.value)), password := None)
  }

  /**
   * The stored user after a successful validation: a legacy plaintext
   * password (no hash, a password) is migrated; any other user is kept.
   */
  function AfterValidation(u: User, hash: string -> string): (v: User)
    ensures v == u.(passwordHash := v.passwordHash, password := v.password)
    ensures Truthy(u.passwordHash) || !Truthy(u.password) ==> v == u
  {
    if !Truthy(u.passwordHash) && Truthy(u.password) then Migrated(u, hash) else u
  }

  /** After migration the same password still authenticates, and no plaintext is kept. */
  lemma MigrationKeepsPassword(u: User, hash: string -> string, compare: (string, string) -> bool)
    requires Truthy(u.password) && !Truthy(u.passwordHash)
    requires Consistent(hash, compare)
    requires Truthy(Some(hash(u.password.value)))
    ensures CheckPassword(u.password.value, Migrated(u, hash), compare)
    ensures Migrated(u, hash).password.None?
  {
  }

  // ---------------------------------------------------------------------
  // The users array, updated in place

  /** What `create` receives from a registration; every field but the name may be undefined. */
  datatype RegisterInput = RegisterInput(
    name: string,
    email: Option<string>,
    password: Option<string>,
    mobile: Option<string>,
    avatar: Option<string>,
    pushToken: Option<string>)

  /** The fields `updateUser` may change; undefined means "leave alone". */
  datatype UserUpdate = UserUpdate(
    name: Option<string>,
    email: Option<string>,
    mobile: Option<string>,
    avatar: Option<string>,
    password: Option<string>)

  /** Index of the first user an invitation with this normalised mobile re-uses. */
  function InviteMatch(users: seq<User>, normalized: Option<string>): (r: Option<nat>)
    ensures r.Some? ==> (r.value < |users| && Truthy(normalized)
      && PhoneLookupKey(users[r.value].mobile) == PhoneLookupKey(normalized))
    ensures r.Some? ==> forall k :: 0 <= k < r.value ==> PhoneLookupKey(users[k].mobile) != PhoneLookupKey(normalized)
    ensures r.None? ==> (!Truthy(normalized)
      || forall k :: 0 <= k < |users| ==> PhoneLookupKey(users[k].mobile) != PhoneLookupKey(normalized))
  {
    if Truthy(normalized) then
      FirstWhere(users, (e: User) => PhoneLookupKey(e.mobile) == PhoneLookupKey(normalized))
    else None
  }

  /** Index of the invited placeholder a registration with this normalised mobile upgrades. */
  function PlaceholderMatch(users: seq<User>, normalized: Option<string>): (r: Option<nat>)
    ensures r.Some? ==> (r.value < |users| && Truthy(normalized)
      && !Truthy(users[r.value].email) && !Truthy(users[r.value].passwordHash) && !Truthy(users[r.value].password)
      && PhoneLookupKey(users[r.value].mobile) == PhoneLookupKey(normalized))
    ensures r.None? ==> (!Truthy(normalized)
      || forall k :: 0 <= k < |users| ==>
           (Truthy(users[k].email) || Truthy(users[k].passwordHash) || Truthy(users[k].password)
            || PhoneLookupKey(users[k].mobile) != PhoneLookupKey(normalized)))
  {
    if Truthy(normalized) then
      FirstWhere(users, (e: User) => !Truthy(e.email) && !Truthy(e.passwordHash) && !Truthy(e.password)
        && PhoneLookupKey(e.mobile) == PhoneLookupKey(normalized))
    else None
  }

  /** Index of the user `validateCredentials` looks at. */
  function IndexOfEmail(users: seq<User>, normalizedEmail: string): (r: Option<nat>)
    ensures r.Some? ==> r.value < |users| && StoredEmailKey(users[r.value]) == Some(normalizedEmail)
    ensures r.Some? ==> forall k :: 0 <= k < r.value ==> StoredEmailKey(users[k]) != Some(normalizedEmail)
    ensures r.None? ==> forall k :: 0 <= k < |users| ==> StoredEmailKey(users[k]) != Some(normalizedEmail)
  {
    FirstWhere(users, (e: User) => StoredEmailKey(e) == Some(normalizedEmail))
  }

  /** Index of the user `validateCredentials` accepts for this email and password, if any. */
  function ValidatedIndex(users: seq<User>, email: string, password: string,
                          compare: (string, string) -> bool): (r: Option<nat>)
    ensures r.Some? ==> (r.value < |users| && StoredEmailKey(users[r.value]) == Some(NormalizeEmail(email))
      && CheckPassword(password, users[r.value], compare))
    ensures r.Some? ==> forall k :: 0 <= k < r.value ==> StoredEmailKey(users[k]) != Some(NormalizeEmail(email))
    ensures r.None? ==> forall k :: (0 <= k < |users| && StoredEmailKey(users[k]) == Some(NormalizeEmail(email)) ==>
      !CheckPassword(password, users[k], compare) || exists j :: 0 <= j < k && StoredEmailKey(users[j]) == StoredEmailKey(users[k]))
  {
    var key := NormalizeEmail(email);
    match IndexOfEmail(users, key)
    case None => None
    case Some(i) =>
      if CheckPassword(password, users[i], compare) then Some(i)
      else
        assert forall k :: 0 <= k < |users| && StoredEmailKey(users[k]) == Some(key) && k != i ==>
          i < k && StoredEmailKey(users[i]) == StoredEmailKey(users[k]);
        None
  }

  /** Whether some user other than `id` already holds this normalised email. */
  predicate EmailHeldByOther(users: seq<User>, id: string, normalizedEmail: string) {
    exists k :: 0 <= k < |users| && users[k].id != id && StoredEmailKey(users[k]) == Some(normalizedEmail)
  }

  /** Index of the first id that names no user. */
  function FirstMissing(users: seq<User>, ids: seq<string>): (r: Option<nat>)
    ensures r.None? <==> forall i :: 0 <= i < |ids| ==> UserExists(users, ids[i])
    ensures r.Some? ==> (r.value < |ids| && !UserExists(users, ids[r.value])
      && forall j :: 0 <= j < r.value ==> UserExists(users, ids[j]))
  {
    FirstWhere(ids, (id: string) => !UserExists(users, id))
  }

  /**
   * The existence loop of the services (`findOneById` on every id in turn,
   * throwing at the first one that is missing): the index it stops at.
   */
  method FindMissingUser(users: seq<User>, ids: seq<string>) returns (r: Option<nat>)
    ensures r == FirstMissing(users, ids)
  {
    var k := 0;
    while k < |ids|
      invariant 0 <= k <= |ids|
      invariant forall j :: 0 <= j < k ==> UserExists(users, ids[j])
    {
      if !UserExists(users, ids[k]) {
        return Some(k);
      }
      k := k + 1;
    }
    r := None;
  }

  /** One entry of `invitedUsers`: a name and possibly a mobile. */
  datatype InviteInput = InviteInput(name: string, mobile: Option<string>)

  /** The users array after an invitation, and the user the invitation returns. */
  datatype Invitation = Invitation(users: seq<User>, user: User)

  /**
   * `createInvitedUser` on the users array: a mobile whose lookup key is
   * already known renames the first user holding it; anything else appends
   * a placeholder with the normalised mobile. Existing users keep their
   * ids, and at most one user is added.
   */
  function Invite(users: seq<User>, name: string, mobile: Option<string>, freshId: string): (r: Invitation)
    ensures |users| <= |r.users| <= |users| + 1
    ensures forall k :: 0 <= k < |users| ==> r.users[k].id == users[k].id
    ensures r.user in r.users && r.user.name == name
    ensures InviteMatch(users, NormalizePhone(mobile)).Some? ==>
      (|r.users| == |users| && r.user == r.users[InviteMatch(users, NormalizePhone(mobile)).value]
      && forall k :: 0 <= k < |users| ==> r.users[k] == users[k].(name := r.users[k].name))
    ensures InviteMatch(users, NormalizePhone(mobile)).None? ==>
      r.user == Invited(freshId, name, NormalizePhone(mobile)) && r.users == users + [r.user]
  {
    var normalized := NormalizePhone(mobile);
    match InviteMatch(users, normalized)
    case Some(i) => Invitation(users[i := users[i].(name := name)], users[i].(name := name))
    case None => Invitation(users + [Invited(freshId, name, normalized)], Invited(freshId, name, normalized))
  }

  /**
   * Inviting the same mobile twice adds at most one user, and both
   * invitations return the same user, as long as the mobile has a digit or '+'.
   */
  lemma InviteIdempotent(users: seq<User>, name1: string, name2: string, mobile: Option<string>, id1: string, id2: string)
    requires Truthy(NormalizePhone(mobile))
    ensures var first := Invite(users, name1, mobile, id1);
      var second := Invite(first.users, name2, mobile, id2);
      |second.users| == |first.users| && second.user.id == first.user.id
  {
    var n := NormalizePhone(mobile);
    var first := Invite(users, name1, mobile, id1);
    match InviteMatch(users, n)
    case Some(i) =>
      assert forall k :: 0 <= k <= i ==> first.users[k].mobile == users[k].mobile;
      MatchAt(first.users, n, i);
    case None =>
      MatchAt(first.users, n, |users|);
  }

  /** The first user whose mobile has the key of `n` is the one an invitation re-uses. */
  lemma MatchAt(users: seq<User>, n: Option<string>, i: nat)
    requires Truthy(n) && i < |users| && PhoneLookupKey(users[i].mobile) == PhoneLookupKey(n)
    requires forall k :: 0 <= k < i ==> PhoneLookupKey(users[k].mobile) != PhoneLookupKey(n)
    ensures InviteMatch(users, n) == Some(i)
  {
  }

  /** The users array and the collected ids after a list of invitations. */
  datatype Provisioned = Provisioned(users: seq<User>, ids: seq<string>)

  /**
   * A list of invitations made in order. Every returned id belongs to a
   * user afterwards, the existing users keep their ids, and no more users
   * are added than there are invitations.
   */
  function Provision(users: seq<User>, invites: seq<InviteInput>, freshIds: seq<string>): (r: Provisioned)
    requires |freshIds| == |invites|
    ensures |r.ids| == |invites|
    ensures |users| <= |r.users| <= |users| + |invites|
    ensures forall k :: 0 <= k < |users| ==> r.users[k].id == users[k].id
    ensures forall i :: 0 <= i < |r.ids| ==> UserExists(r.users, r.ids[i])
    decreases |invites|
  {
    if |invites| == 0 then Provisioned(users, [])
    else
      var n := |invites| - 1;
      var p := Provision(users, invites[..n], freshIds[..n]);
      var inv := Invite(p.users, invites[n].name, invites[n].mobile, freshIds[n]);
      KeepsUsers(p.users, inv.users, p.ids);
      ExistsById(inv.users, inv.user);
      Provisioned(inv.users, p.ids + [inv.user.id])
  }

  lemma ProvisionStep(users: seq<User>, invites: seq<InviteInput>, freshIds: seq<string>, k: nat)
    requires |freshIds| == |invites| && k < |invites|
    ensures var p := Provision(users, invites[..k], freshIds[..k]);
      var inv := Invite(p.users, invites[k].name, invites[k].mobile, freshIds[k]);
      Provision(users, invites[..k + 1], freshIds[..k + 1]) == Provisioned(inv.users, p.ids + [inv.user.id])
  {
    assert invites[..k + 1][..k] == invites[..k];
    assert freshIds[..k + 1][..k] == freshIds[..k];
  }

  /** A user in the array is found by its id. */
  lemma ExistsById(users: seq<User>, u: User)
    requires u in users
    ensures UserExists(users, u.id)
  {
    var k :| 0 <= k < |users| && users[k] == u;
    assert users[k].id == u.id;
  }

  /** Ids that existed before an update that keeps every index's id still exist after it. */
  lemma KeepsUsers(before: seq<User>, after: seq<User>, ids: seq<string>)
    requires |before| <= |after|
    requires forall k :: 0 <= k < |before| ==> after[k].id == before[k].id
    requires forall i :: 0 <= i < |ids| ==> UserExists(before, ids[i])
    ensures forall i :: 0 <= i < |ids| ==> UserExists(after, ids[i])
  {
    forall i | 0 <= i < |ids| ensures UserExists(after, ids[i]) {
      var k := IndexOfId(before, ids[i]).value;
      assert after[k].id == ids[i];
    }
  }

  class UserStore {
    var users: seq<User>

    constructor (initial: seq<User>)
      ensures users == initial
    {
      users := initial;
    }

    /** `createInvitedUser`: the users array and result are those of `Invite`. */
    method CreateInvitedUser(name: string, mobile: Option<string>, freshId: string) returns (u: User)
      modifies this
      ensures Invitation(users, u) == Invite(old(users), name, mobile, freshId)
    {
      var normalizedMobile := NormalizePhone(mobile);
      var existing := InviteMatch(users, normalizedMobile);
      if existing.Some? {
        var i := existing.value;
        users := users[i := users[i].(name := name)];
        u := users[i];
        return;
      }
      u := Invited(freshId, name, normalizedMobile);
      users := users + [u];
    }

    /**
     * The invitation loop of the services that accept `invitedUsers`: each
     * invitation in order goes through `createInvitedUser`, and the ids it
     * returns are collected.
     */
    method InviteAll(invites: seq<InviteInput>, freshIds: seq<string>) returns (ids: seq<string>)
      requires |freshIds| == |invites|
      modifies this
      ensures Provisioned(users, ids) == Provision(old(users), invites, freshIds)
    {
      ids := [];
      var k := 0;
      while k < |invites|
        invariant 0 <= k <= |invites|
        invariant Provisioned(users, ids) == Provision(old(users), invites[..k], freshIds[..k])
      {
        ProvisionStep(old(users), invites, freshIds, k);
        var u := CreateInvitedUser(invites[k].name, invites[k].mobile, freshIds[k]);
        ids := ids + [u.id];
        k := k + 1;
      }
      assert invites[..k] == invites && freshIds[..k] == freshIds;
    }

    /**
     * `create`: a registration whose mobile matches an invited placeholder
     * (no email, password or hash) upgrades it in place; otherwise an email
     * already in use fails, and a new user is appended with its email and
     * mobile normalised and only the hash of its password.
     */
    method Create(input: RegisterInput, hash: string -> string, freshId: string) returns (r: Result<User>)
      modifies this
      ensures var mobile := NormalizePhone(input.mobile);
        var email := if input.email.Some? then Some(NormalizeEmail(input.email.value)) else None;
        var passwordHash := if Truthy(input.password) then Some(hash(input.password.value)) else None;
        match PlaceholderMatch(old(users), mobile)
        case Some(i) =>
          var old_ := old(users)[i];
          && |users| == |old(users)|
          && users == old(users)[i := users[i]]
          && r == Ok(users[i])
          && users[i].id == old_.id
          && users[i].email == (if Truthy(email) then email else old_.email)
          && users[i].passwordHash == (if Truthy(passwordHash) then passwordHash else old_.passwordHash)
          && users[i].name == (if input.name != "" then input.name else old_.name)
          && users[i].mobile == (if Truthy(mobile) then mobile else old_.mobile)
          && users[i].password.None?
          && users[i].avatar == old_.avatar && users[i].pushToken == old_.pushToken
        case None =>
          if EmailTaken(old(users), email) then
            r == Err(Failure("User with this email already exists")) && users == old(users)
          else
            var created := User(freshId, input.name, email, None, passwordHash, mobile, input.avatar, input.pushToken);
            r == Ok(created) && users == old(users) + [created]
    {
      var normalizedMobile := NormalizePhone(input.mobile);
      var normalizedEmail := if input.email.Some? then Some(NormalizeEmail(input.email.value)) else None;
      var passwordHash := if Truthy(input.password) then Some(hash(input.password.value)) else None;
      var placeholder := PlaceholderMatch(users, normalizedMobile);
      if placeholder.Some? {
        var i := placeholder.value;
        var user := users[i];
        if Truthy(normalizedEmail) { user := user.(email := normalizedEmail); }
        if Truthy(passwordHash) { user := user.(passwordHash := passwordHash); }
        if input.name != "" { user := user.(name := input.name); }
        if Truthy(normalizedMobile) { user := user.(mobile := normalizedMobile); }
        user := user.(password := None);
        users := users[i := user];
        r := Ok(user);
        return;
      }
      if EmailTaken(users, normalizedEmail) {
        r := Err(Failure("User with this email already exists"));
        return;
      }
      var newUser := User(freshId, input.name, normalizedEmail, None, passwordHash, normalizedMobile, input.avatar, input.pushToken);
      users := users + [newUser];
      r := Ok(newUser);
    }

    /**
     * `validateCredentials`: the first user with the normalised email is
     * returned when the password checks; a legacy plaintext password is then
     * replaced by its hash. Any failure changes nothing.
     */
    method ValidateCredentials(email: string, password: string, hash: string -> string,
                               compare: (string, string) -> bool) returns (r: Option<User>)
      modifies this
      ensures match IndexOfEmail(old(users), NormalizeEmail(email))
        case None => r.None? && users == old(users)
        case Some(i) =>
          var u := old(users)[i];
          if !CheckPassword(password, u, compare) then r.None? && users == old(users)
          else if !Truthy(u.passwordHash) && Truthy(u.password) then
            users == old(users)[i := Migrated(u, hash)] && r == Some(Migrated(u, hash))
          else users == old(users) && r == Some(u)
      ensures var i := ValidatedIndex(old(users), email, password, compare);
        |users| == |old(users)| && (r.Some? <==> i.Some?) && (r.Some? ==> r == Some(users[i.value]))
      ensures var i := ValidatedIndex(old(users), email, password, compare);
        i.Some? ==> (users == old(users)[i.value := AfterValidation(old(users)[i.value], hash)]
                     && r == Some(AfterValidation(old(users)[i.value], hash)))
    {
      var i := IndexOfEmail(users, NormalizeEmail(email));
      if i.None? {
        return None;
      }
      var user := users[i.value];
      if !CheckPassword(password, user, compare) {
        return None;
      }
      if !Truthy(user.passwordHash) && Truthy(user.password) {
        user := user.(passwordHash := Some(hash(user.password.value)));
        user := user.(password := None);
        users := users[i.value := user];
      }
      r := Some(user);
    }

    /** `updatePushToken`: sets the token of the first user with that id, if any. */
    method UpdatePushToken(id: string, pushToken: string) returns (r: Option<User>)
      modifies this
      ensures match IndexOfId(old(users), id)
        case None => r.None? && users == old(users)
        case Some(i) =>
          users == old(users)[i := old(users)[i].(pushToken := Some(pushToken))] && r == Some(users[i])
    {
      var i := IndexOfId(users, id);
      if i.None? {
        return None;
      }
      users := users[i.value := users[i.value].(pushToken := Some(pushToken))];
      r := Some(users[i.value]);
    }

    /**
     * `updateUser`: on an unknown id nothing changes; an email held by another
     * user fails and changes nothing; otherwise the first user with that id
     * becomes `UpdatedUser` of itself.
     */
    method UpdateUser(id: string, updates: UserUpdate, hash: string -> string) returns (r: Result<Option<User>>)
      modifies this
      ensures match IndexOfId(old(users), id)
        case None => r == Ok(None) && users == old(users)
        case Some(i) =>
          var email := if updates.email.Some? then Some(NormalizeEmail(updates.email.value)) else None;
          if Truthy(email) && EmailHeldByOther(old(users), id, email.value) then
            r == Err(Failure("User with this email already exists")) && users == old(users)
          else
            users == old(users)[i := UpdatedUser(old(users)[i], updates, hash)]
            && r == Ok(Some(UpdatedUser(old(users)[i], updates, hash)))
    {
      var normalizedEmail := if updates.email.Some? then Some(NormalizeEmail(updates.email.value)) else None;
      var found := IndexOfId(users, id);
      if found.None? {
        return Ok(None);
      }
      var i := found.value;
      if Truthy(normalizedEmail) {
        var clash := FirstWhere(users, (e: User) => e.id != id && StoredEmailKey(e) == normalizedEmail);
        if clash.Some? {
          return Err(Failure("User with this email already exists"));
        }
      }
      var user := UpdatedUser(users[i], updates, hash);
      users := users[i := user];
      r := Ok(Some(user));
    }
  }

  /** The email `updateUser` stores: '' clears it, a non-blank one is normalised, otherwise it stays. */
  function UpdatedEmail(current: Option<string>, given: Option<string>): (r: Option<string>)
    ensures given.None? ==> r == current
    ensures given == Some("") ==> r.None?
    ensures given.Some? && !IsBlank(given.value) ==> r == Some(NormalizeEmail(given.value))
    ensures given.Some? && given.value != "" && IsBlank(given.value) ==> r == current
  {
    var normalized := if given.Some? then Some(NormalizeEmail(given.value)) else None;
    if Truthy(normalized) then normalized
    else if given == Some("") then None
    else current
  }

  /** The mobile `updateUser` stores: a given one is normalised, or undefined when it has no digit or '+'. */
  function UpdatedMobile(current: Option<string>, given: Option<string>): (r: Option<string>)
    ensures given.None? ==> r == current
    ensures given.Some? ==> (r.None? <==> Filter(given.value, IsPhoneChar) == "")
    ensures given.Some? && r.Some? ==> IsNormalPhone(r.value) && Digits(r.value) == Digits(given.value)
  {
    NormalizePhoneSpec(given);
    if given.Some? then
      var normalized := NormalizePhone(given);
      if Truthy(normalized) then normalized else None
    else current
  }

  /** The avatar `updateUser` stores: a given one is trimmed, and a blank one becomes undefined. */
  function UpdatedAvatar(current: Option<string>, given: Option<string>): (r: Option<string>)
    ensures given.None? ==> r == current
    ensures given.Some? ==> (r.None? <==> IsBlank(given.value))
    ensures given.Some? && r.Some? ==> r.value == Trim(given.value) && !IsSpace(r.value[0])
  {
    if given.Some? then
      var trimmed := Trim(given.value);
      if trimmed != "" then Some(trimmed) else None
    else current
  }

  /** Whether `updateUser` replaces the credentials: a password that is not blank. */
  predicate Rehashes(updates: UserUpdate) {
    updates.password.Some? && !IsBlank(updates.password.value)
  }

  /**
   * The user `updateUser` writes back: the id and push token never change,
   * the name is trimmed when given, and a non-blank password is kept only as
   * the hash of its trimmed form, removing any plaintext.
   */
  function UpdatedUser(was: User, updates: UserUpdate, hash: string -> string): (u: User)
    ensures u.id == was.id && u.pushToken == was.pushToken
    ensures u.name == if updates.name.Some? then Trim(updates.name.value) else was.name
    ensures u.email == UpdatedEmail(was.email, updates.email)
    ensures u.mobile == UpdatedMobile(was.mobile, updates.mobile)
    ensures u.avatar == UpdatedAvatar(was.avatar, updates.avatar)
    ensures Rehashes(updates) ==> u.password.None? && u.passwordHash == Some(hash(Trim(updates.password.value)))
    ensures !Rehashes(updates) ==> u.password == was.password && u.passwordHash == was.passwordHash
  {
    var name := if updates.name.Some? then Trim(updates.name.value) else was.name;
    var password := if Rehashes(updates) then None else was.password;
    var passwordHash := if Rehashes(updates) then Some(hash(Trim(updates.password.value))) else was.passwordHash;
    User(was.id, name, UpdatedEmail(was.email, updates.email), password, passwordHash,
         UpdatedMobile(was.mobile, updates.mobile), UpdatedAvatar(was.avatar, updates.avatar), was.pushToken)
  }
}
