/**
 * The user collection and the user service operations on it. Documents
 * live in a sequence whose position is the document's id; nothing is ever
 * removed (deactivation only clears a flag).
 */
module UserService {
  import opened Wrappers
  import opened Text
  import opened Jwt
  import opened UserModel

  const USER_NOT_FOUND := "User not found"
  const EMAIL_EXISTS := "Email already exists"
  /** The message of a schema validation failure on create. */
  const USER_INVALID := "User validation failed"
  /** The message of a validation failure of an update. */
  const UPDATE_INVALID := "Validation failed"
  /** The message of a unique-index violation on update. */
  const DUPLICATE_KEY := "E11000 duplicate key error"
  const WRONG_PASSWORD := "Current password is incorrect"
  const PASSWORD_UPDATED := "Password updated successfully"

  /** Ids are positions, every document meets the schema, and emails are unique. */
  ghost predicate Consistent(users: seq<User>) {
    (forall i :: 0 <= i < |users| ==> users[i].id == i && Valid(users[i]))
    && (forall i, j :: 0 <= i < j < |users| ==> users[i].email != users[j].email)
  }

  /** Every signed token in a refresh-token slot was issued for the slot's owner. */
  ghost predicate SlotsOwned(users: seq<User>) {
    forall i :: 0 <= i < |users| && users[i].refreshToken.Some? && users[i].refreshToken.value.Signed? ==>
      users[i].refreshToken.value.token.claims == RefreshClaims(i)
  }

  lemma ConsistentMember(users: seq<User>, u: User)
    requires Consistent(users) && u in users
    ensures u.id < |users| && users[u.id] == u
  {
    var i :| 0 <= i < |users| && users[i] == u;
  }

  /** The first user whose stored email is exactly `e`. */
  function FindStoredEmail(users: seq<User>, e: string): (r: Option<User>)
    ensures r.None? <==> forall u :: u in users ==> u.email != e
    ensures r.Some? ==> r.value in users && r.value.email == e
  {
    if users == [] then None
    else if users[0].email == e then Some(users[0])
    else
      var r := FindStoredEmail(users[1..], e);
      assert forall u :: u in users ==> u == users[0] || u in users[1..];
      r
  }

  /**
   * `User.findOne({ email })`: the query casts the filter value through the
   * schema's `trim` setter, so it finds a user whose stored email is the
   * trimmed argument; case still matters.
   */
  function FindUserByEmail(users: seq<User>, email: string): (r: Option<User>)
    ensures r.None? <==> forall u :: u in users ==> u.email != Trim(email)
    ensures r.Some? ==> r.value in users && r.value.email == Trim(email)
  {
    FindStoredEmail(users, Trim(email))
  }

  /** `emailExists` */
  function EmailExists(users: seq<User>, email: string): (b: bool)
    ensures b <==> exists u :: u in users && u.email == Trim(email)
  {
    FindUserByEmail(users, email).Some?
  }

  /** A stored (hence trimmed) email is found as it is and with blanks around it alike. */
  lemma PaddedEmailFound(users: seq<User>, email: string, pad: string)
    requires forall i :: 0 <= i < |pad| ==> IsWhite(pad[i])
    ensures FindUserByEmail(users, pad + email + pad) == FindUserByEmail(users, email)
  {
    TrimPadded(email, pad);
  }

  /** Two consistent users with the same email are the same user. */
  lemma EmailIdentifies(users: seq<User>, u: User, v: User)
    requires Consistent(users) && u in users && v in users && u.email == v.email
    ensures u == v
  {
    ConsistentMember(users, u);
    ConsistentMember(users, v);
  }

  /** Appending a valid user under a fresh id and a fresh email keeps the collection consistent. */
  lemma ConsistentAppend(users: seq<User>, u: User)
    requires Consistent(users) && Valid(u) && u.id == |users| && FindStoredEmail(users, u.email).None?
    ensures Consistent(users + [u])
  {
    var s := users + [u];
    forall i, j | 0 <= i < j < |s|
      ensures s[i].email != s[j].email
    {
      if j == |users| {
        assert s[i] in users;
      }
    }
  }

  /** A user appended with an empty slot keeps every slot owned. */
  lemma SlotsAppend(users: seq<User>, u: User)
    requires u.refreshToken.None?
    ensures SlotsOwned(users) ==> SlotsOwned(users + [u])
  {
    var s := users + [u];
    assert forall i :: 0 <= i < |users| ==> s[i] == users[i];
  }

  /** Replacing one user by a valid one with the same id and an email no other user has keeps the collection consistent. */
  lemma ConsistentReplace(users: seq<User>, id: nat, u: User)
    requires Consistent(users) && id < |users| && Valid(u) && u.id == id
    requires forall j :: 0 <= j < |users| && j != id ==> users[j].email != u.email
    ensures Consistent(users[id := u])
  {
  }

  /** The fields of an update; `None` is an absent key and `Some(None)` an explicit `null`. */
  datatype UpdateData = UpdateData(
    email: Option<string>,
    password: Option<string>,
    firstName: Option<string>,
    lastName: Option<string>,
    currency: Option<string>,
    isActive: Option<bool>,
    lastLogin: Option<nat>,
    refreshToken: Option<Option<TokenText>>,
    refreshTokenExpiresAt: Option<Option<nat>>)

  /** The update validators on the present fields, after the `trim` setters. */
  predicate ValidUpdate(d: UpdateData) {
    (d.email.Some? ==> Trim(d.email.value) != "")
    && (d.firstName.Some? ==> ValidName(Trim(d.firstName.value)))
    && (d.lastName.Some? ==> ValidName(Trim(d.lastName.value)))
    && (d.currency.Some? ==> ParseCurrency(d.currency.value).Some?)
  }

  /** The update `updateUser` applies: every present field except `password`. */
  function ApplyUpdate(u: User, d: UpdateData): User
    requires ValidUpdate(d)
  {
    u.(
      email := if d.email.Some? then Trim(d.email.value) else u.email,
      firstName := if d.firstName.Some? then Trim(d.firstName.value) else u.firstName,
      lastName := if d.lastName.Some? then Trim(d.lastName.value) else u.lastName,
      currency := if d.currency.Some? then ParseCurrency(d.currency.value).value else u.currency,
      isActive := d.isActive.GetOr(u.isActive),
      lastLogin := if d.lastLogin.Some? then d.lastLogin else u.lastLogin,
      refreshToken := d.refreshToken.GetOr(u.refreshToken),
      refreshTokenExpiresAt := d.refreshTokenExpiresAt.GetOr(u.refreshTokenExpiresAt))
  }

  /** An update never touches the id or the password and changes exactly the fields present in it. */
  lemma ApplyUpdateMeaning(u: User, d: UpdateData)
    requires ValidUpdate(d)
    ensures ApplyUpdate(u, d).id == u.id && ApplyUpdate(u, d).password == u.password
    ensures d.email.None? ==> ApplyUpdate(u, d).email == u.email
    ensures d.isActive.Some? ==> ApplyUpdate(u, d).isActive == d.isActive.value
    ensures d.isActive.None? ==> ApplyUpdate(u, d).isActive == u.isActive
    ensures d.refreshToken.None? ==> ApplyUpdate(u, d).refreshToken == u.refreshToken
    ensures d.firstName.Some? ==> ApplyUpdate(u, d).firstName == Trim(d.firstName.value)
    ensures d.currency.Some? ==> CurrencyCode(ApplyUpdate(u, d).currency) == d.currency.value
  {
  }

  /** An update that passes the validators keeps a valid user valid. */
  lemma ApplyUpdateValid(u: User, d: UpdateData)
    requires ValidUpdate(d) && Valid(u)
    ensures Valid(ApplyUpdate(u, d))
  {
    if d.email.Some? {
      TrimSpec(d.email.value);
    }
  }

  /** The new email, when present, is already another user's. */
  predicate EmailClash(users: seq<User>, id: nat, d: UpdateData) {
    d.email.Some? && exists j :: 0 <= j < |users| && j != id && users[j].email == Trim(d.email.value)
  }

  /** `getUserProfile`: the whole document, hash included, plus `fullName`. */
  datatype Profile = Profile(user: User, fullName: string)

  function GetUserProfile(users: seq<User>, id: UserId): (r: Result<Profile, string>)
    ensures r.Ok? <==> id < |users|
    ensures r.Err? ==> r.error == USER_NOT_FOUND
    ensures r.Ok? ==> r.value.user == users[id] && r.value.fullName == users[id].firstName + " " + users[id].lastName
  {
    if id < |users| then Ok(Profile(users[id], users[id].firstName + " " + users[id].lastName))
    else Err(USER_NOT_FOUND)
  }

  /** The first name and the last name can be read back from the full name. */
  lemma FullNameSplits(users: seq<User>, id: UserId)
    requires Consistent(users) && id < |users|
    ensures var n := GetUserProfile(users, id).value.fullName;
      n[..|users[id].firstName|] == users[id].firstName
      && n[|users[id].firstName| + 1..] == users[id].lastName
      && n[|users[id].firstName|] == ' '
  {
  }

  /** `refreshToken: t` together with `refreshTokenExpiresAt: { $gt: now }`. */
  predicate HoldsUnexpired(u: User, t: TokenText, now: nat) {
    u.refreshToken == Some(t) && u.refreshTokenExpiresAt.Some? && u.refreshTokenExpiresAt.value > now
  }

  /** `User.findOne({ refreshToken: t, refreshTokenExpiresAt: { $gt: now } })`, in collection order. */
  function UnexpiredHolder(users: seq<User>, t: TokenText, now: nat): (r: Option<nat>)
    ensures r.None? <==> forall j :: 0 <= j < |users| ==> !HoldsUnexpired(users[j], t, now)
    ensures r.Some? ==>
      r.value < |users| && HoldsUnexpired(users[r.value], t, now)
      && forall j :: 0 <= j < r.value ==> !HoldsUnexpired(users[j], t, now)
  {
    if users == [] then None
    else if HoldsUnexpired(users[0], t, now) then Some(0)
    else
      var r := UnexpiredHolder(users[1..], t, now);
      if r.Some? then Some(r.value + 1) else None
  }

  /** `User.updateOne({ refreshToken: t }, …)` picks the first holder, expired or not. */
  function Holder(users: seq<User>, t: TokenText): (r: Option<nat>)
    ensures r.None? <==> forall j :: 0 <= j < |users| ==> users[j].refreshToken != Some(t)
    ensures r.Some? ==>
      r.value < |users| && users[r.value].refreshToken == Some(t)
      && forall j :: 0 <= j < r.value ==> users[j].refreshToken != Some(t)
  {
    if users == [] then None
    else if users[0].refreshToken == Some(t) then Some(0)
    else
      var r := Holder(users[1..], t);
      if r.Some? then Some(r.value + 1) else None
  }

  /** A signed token sits in at most one slot, its owner's. */
  lemma SignedHolder(users: seq<User>, t: TokenText, j: nat)
    requires SlotsOwned(users) && t.Signed? && j < |users| && users[j].refreshToken == Some(t)
    ensures t.token.claims == RefreshClaims(j)
    ensures Holder(users, t) == Some(j)
  {
  }

  /** Replacing the slot of one user keeps every other slot. */
  function WithSlot(u: User, t: Option<TokenText>, expiresAt: Option<nat>): User {
    u.(refreshToken := t, refreshTokenExpiresAt := expiresAt)
  }

  class UserStore {
    var users: seq<User>

    ghost predicate Valid()
      reads this
    {
      Consistent(users)
    }

    constructor ()
      ensures users == [] && Valid() && SlotsOwned(users)
    {
      users := [];
    }

    /**
     * `createUser`: hash the password, build the document, reject a schema
     * failure, then a stored email equal to the new one (the unique index);
     * store it and return it without its password.
     */
    method CreateUser(d: NewUser, salt: nat) returns (r: Result<PublicUser, string>)
      requires Valid()
      modifies this
      ensures Valid()
      ensures old(SlotsOwned(users)) ==> SlotsOwned(users)
      ensures var built := BuildUser(d, |old(users)|, salt);
        (built.Err? ==> r == Err(USER_INVALID) && users == old(users))
        && (built.Ok? && FindStoredEmail(old(users), built.value.email).Some? ==> r == Err(EMAIL_EXISTS) && users == old(users))
        && (built.Ok? && FindStoredEmail(old(users), built.value.email).None? ==>
              r == Ok(Public(built.value)) && users == old(users) + [built.value])
    {
      var built := BuildUser(d, |users|, salt);
      if built.Err? {
        return Err(USER_INVALID);
      }
      var u := built.value;
      if FindStoredEmail(users, u.email).Some? {
        return Err(EMAIL_EXISTS);
      }
      ConsistentAppend(users, u);
      SlotsAppend(users, u);
      users := users + [u];
      r := Ok(Public(u));
    }

    /**
     * `updateUser`: drop `password`, run the update validators, find the
     * document, then reject an email another user holds.
     */
    method UpdateUser(id: UserId, d: UpdateData) returns (r: Result<User, string>)
      requires Valid()
      modifies this
      ensures Valid()
      ensures d.refreshToken.None? && old(SlotsOwned(users)) ==> SlotsOwned(users)
      ensures !ValidUpdate(d) ==> r == Err(UPDATE_INVALID) && users == old(users)
      ensures ValidUpdate(d) && id >= |old(users)| ==> r == Err(USER_NOT_FOUND) && users == old(users)
      ensures ValidUpdate(d) && id < |old(users)| && EmailClash(old(users), id, d) ==>
        r == Err(DUPLICATE_KEY) && users == old(users)
      ensures ValidUpdate(d) && id < |old(users)| && !EmailClash(old(users), id, d) ==>
        r == Ok(ApplyUpdate(old(users)[id], d)) && users == old(users)[id := r.value]
      ensures r.Ok? ==> id < |old(users)| && r.value.password == old(users)[id].password
    {
      var safe := d.(password := None);
      if !ValidUpdate(safe) {
        return Err(UPDATE_INVALID);
      }
      if id >= |users| {
        return Err(USER_NOT_FOUND);
      }
      if EmailClash(users, id, safe) {
        return Err(DUPLICATE_KEY);
      }
      var u := ApplyUpdate(users[id], safe);
      ApplyUpdateValid(users[id], safe);
      assert ApplyUpdate(users[id], safe) == ApplyUpdate(users[id], d);
      ConsistentReplace(users, id, u);
      users := users[id := u];
      r := Ok(u);
    }

    /** `updateUserPassword`: the current password must match; then only the hash changes. */
    method UpdateUserPassword(id: UserId, currentPassword: string, newPassword: string, salt: nat)
      returns (r: Result<string, string>)
      requires Valid()
      modifies this
      ensures Valid()
      ensures old(SlotsOwned(users)) ==> SlotsOwned(users)
      ensures id >= |old(users)| ==> r == Err(USER_NOT_FOUND) && users == old(users)
      ensures id < |old(users)| && !Compare(currentPassword, old(users)[id].password) ==>
        r == Err(WRONG_PASSWORD) && users == old(users)
      ensures id < |old(users)| && Compare(currentPassword, old(users)[id].password) ==>
        r == Ok(PASSWORD_UPDATED) && users == old(users)[id := old(users)[id].(password := Hash(newPassword, salt))]
    {
      if id >= |users| {
        return Err(USER_NOT_FOUND);
      }
      if !Compare(currentPassword, users[id].password) {
        return Err(WRONG_PASSWORD);
      }
      users := users[id := users[id].(password := Hash(newPassword, salt))];
      r := Ok(PASSWORD_UPDATED);
    }

    /** `updateLastLogin`: set `lastLogin`; an unknown id changes nothing and is not an error. */
    method UpdateLastLogin(id: UserId, now: nat)
      requires Valid()
      modifies this
      ensures Valid()
      ensures old(SlotsOwned(users)) ==> SlotsOwned(users)
      ensures id < |old(users)| ==> users == old(users)[id := old(users)[id].(lastLogin := Some(now))]
      ensures id >= |old(users)| ==> users == old(users)
    {
      if id < |users| {
        users := users[id := users[id].(lastLogin := Some(now))];
      }
    }

    /** `deactivateUser`: only `isActive` changes, to false. */
    method DeactivateUser(id: UserId) returns (r: Result<User, string>)
      requires Valid()
      modifies this
      ensures Valid()
      ensures old(SlotsOwned(users)) ==> SlotsOwned(users)
      ensures id >= |old(users)| ==> r == Err(USER_NOT_FOUND) && users == old(users)
      ensures id < |old(users)| ==>
        r == Ok(old(users)[id].(isActive := false)) && users == old(users)[id := r.value]
    {
      if id >= |users| {
        return Err(USER_NOT_FOUND);
      }
      var u := users[id].(isActive := false);
      users := users[id := u];
      r := Ok(u);
    }

    /** Assigning `refreshToken` and `refreshTokenExpiresAt` of a fetched user and saving it. */
    method SetSlot(id: UserId, t: Option<TokenText>, expiresAt: Option<nat>)
      requires Valid() && id < |users|
      modifies this
      ensures Valid()
      ensures users == old(users)[id := WithSlot(old(users)[id], t, expiresAt)]
      ensures old(SlotsOwned(users)) && (t.Some? && t.value.Signed? ==> t.value.token.claims == RefreshClaims(id)) ==>
        SlotsOwned(users)
    {
      users := users[id := WithSlot(users[id], t, expiresAt)];
    }
  }
}
