/**
 * The user endpoints: registration, login, profile, password, deactivation,
 * refresh-token rotation and logout, as transitions of the user store.
 * Database failures other than those named are not modelled, so the
 * generic 500 replies appear only where a modelled failure leads to them.
 */
module UserController {
  import opened Wrappers
  import opened Text
  import opened Http
  import opened Jwt
  import opened UserModel
  import opened UserService

  /** `24 * 60 * 60 * 1000`: the stored expiry of a refresh token. */
  const DAY_MS: nat := 86400000

  const REGISTER_MISSING := "Email, password, first name, last name, and preferred currency are required"
  const EMAIL_REGISTERED := "Email already registered"
  const REGISTERED := "User registered successfully"
  const REGISTER_FAILED := "Registration failed"
  const LOGIN_MISSING := "Email and password are required"
  const INVALID_CREDENTIALS := "Invalid email or password"
  const DEACTIVATED := "Account is deactivated"
  const LOGGED_IN := "Login successful"
  const PROFILE_UPDATED := "Profile updated successfully"
  const PROFILE_UPDATE_FAILED := "Failed to update profile"
  const PASSWORDS_MISSING := "Current password and new password are required"
  const PASSWORD_TOO_SHORT := "New password must be at least 6 characters long"
  const PASSWORD_UPDATE_FAILED := "Failed to update password"
  const ACCOUNT_DEACTIVATED := "Account deactivated successfully"
  const REFRESH_REQUIRED := "Refresh token is required"
  const REFRESH_UNKNOWN := "Invalid or expired refresh token"
  const REFRESH_INVALID := "Invalid refresh token"
  const REFRESHED := "Token refreshed successfully"
  const LOGGED_OUT := "Logged out successfully"

  /** The `data` of a register or login reply. */
  datatype AuthData = AuthData(user: PublicUser, accessToken: TokenText, refreshToken: TokenText)

  /** The `data` of a refresh reply. */
  datatype TokenPair = TokenPair(accessToken: TokenText, refreshToken: TokenText)

  /** A token field of a request body counts when present and not the empty string. */
  predicate Truthy(t: Option<TokenText>) {
    t.Some? && t.value != Other("")
  }

  // ---------------------------------------------------------------- register

  /** The register body; an absent string field is the empty string. */
  datatype RegisterBody = RegisterBody(email: string, password: string, firstName: string, lastName: string, currency: string)

  predicate RegisterFieldMissing(b: RegisterBody) {
    b.email == "" || b.password == "" || b.firstName == "" || b.lastName == "" || b.currency == ""
  }

  function NewUserOf(b: RegisterBody): NewUser {
    NewUser(b.email, b.password, b.firstName, b.lastName, Some(b.currency))
  }

  /**
   * Registration goes through when every field is given, no user holds the
   * trimmed email, and the document passes the schema.
   */
  predicate RegisterAccepted(users: seq<User>, b: RegisterBody, salt: nat) {
    !RegisterFieldMissing(b) && !EmailExists(users, b.email)
    && BuildUser(NewUserOf(b), |users|, salt).Ok?
  }

  /**
   * `register`: 400 for a missing field, 409 for an email already stored,
   * 500 when creation fails; otherwise the user is stored with the new
   * refresh token and a one-day expiry, and the reply carries the user as
   * created (with an empty slot) and both tokens.
   */
  method Register(store: UserStore, tokens: TokenService, b: RegisterBody, salt: nat, now: nat)
    returns (resp: Response, data: Option<AuthData>)
    requires store.Valid() && tokens.WarnedOnce()
    modifies store, tokens
    ensures store.Valid() && tokens.WarnedOnce()
    ensures old(SlotsOwned(store.users)) ==> SlotsOwned(store.users)
    ensures RegisterFieldMissing(b) ==> resp == Response(400, REGISTER_MISSING)
    ensures !RegisterFieldMissing(b) && EmailExists(old(store.users), b.email) ==> resp == Response(409, EMAIL_REGISTERED)
    ensures resp.status == 201 <==> RegisterAccepted(old(store.users), b, salt)
    ensures resp.status != 201 ==>
      resp.status in {400, 409, 500} && (resp.status == 500 ==> resp.message == REGISTER_FAILED)
      && store.users == old(store.users) && data.None?
    ensures resp.status == 201 ==>
      var u := BuildUser(NewUserOf(b), |old(store.users)|, salt).value;
      var refresh := Sign(RefreshPayload(SubjectOf(u)), tokens.Secret(), now, tokens.refreshLifetime);
      resp == Response(201, REGISTERED)
      && store.users == old(store.users) + [WithSlot(u, Some(refresh), Some(now + DAY_MS))]
      && data == Some(AuthData(Public(u), Sign(AccessPayload(SubjectOf(u)), tokens.Secret(), now, tokens.accessLifetime), refresh))
  {
    if RegisterFieldMissing(b) {
      return Response(400, REGISTER_MISSING), None;
    }
    if EmailExists(store.users, b.email) {
      return Response(409, EMAIL_REGISTERED), None;
    }
    ghost var before := store.users;
    ghost var built := BuildUser(NewUserOf(b), |before|, salt);
    var created := store.CreateUser(NewUserOf(b), salt);
    if created.Err? {
      assert !RegisterAccepted(before, b, salt);
      return Response(500, REGISTER_FAILED), None;
    }
    assert built.Ok? && store.users == before + [built.value];
    var u := created.value;
    assert u == Public(built.value) && u.id == |before|;
    var access, refresh := tokens.GenerateAuthTokens(Subject(u.id, u.email, u.firstName, u.lastName), now);
    assert Subject(u.id, u.email, u.firstName, u.lastName) == SubjectOf(built.value);
    store.SetSlot(u.id, Some(refresh), Some(now + DAY_MS));
    ReplaceLast(before, built.value, WithSlot(built.value, Some(refresh), Some(now + DAY_MS)));
    resp := Response(201, REGISTERED);
    data := Some(AuthData(u, access, refresh));
  }

  lemma ReplaceLast(s: seq<User>, x: User, y: User)
    ensures (s + [x])[|s| := y] == s + [y]
  {
  }

  // ---------------------------------------------------------------- login

  /** The checks of `login`, in order: both fields, a user with this exact email, an active account, the password. */
  function LoginCheck(users: seq<User>, email: string, password: string): (r: Result<User, Response>)
    ensures r.Ok? ==> r.value in users && r.value.email == Trim(email)
    ensures r.Err? ==> r.error.status in {400, 401}
  {
    if email == "" || password == "" then Err(Response(400, LOGIN_MISSING))
    else
      var found := FindUserByEmail(users, email);
      if found.None? then Err(Response(401, INVALID_CREDENTIALS))
      else if !found.value.isActive then Err(Response(401, DEACTIVATED))
      else if !Compare(password, found.value.password) then Err(Response(401, INVALID_CREDENTIALS))
      else Ok(found.value)
  }

  /**
   * Login succeeds exactly for an active user with this email and password.
   * An unknown email and a wrong password get the same reply, and a
   * deactivated account is reported whatever password is sent.
   */
  lemma LoginOutcomes(users: seq<User>, email: string, password: string)
    requires Consistent(users) && email != "" && password != ""
    ensures LoginCheck(users, email, password).Ok? <==>
      exists u :: u in users && u.email == Trim(email) && u.isActive && Compare(password, u.password)
    ensures LoginCheck(users, email, password).Err? ==>
      LoginCheck(users, email, password).error
      in {Response(401, INVALID_CREDENTIALS), Response(401, DEACTIVATED)}
    ensures LoginCheck(users, email, password) == Err(Response(401, DEACTIVATED)) <==>
      exists u :: u in users && u.email == Trim(email) && !u.isActive
    ensures LoginCheck(users, email, password) == Err(Response(401, DEACTIVATED)) ==>
      forall other :: other != "" ==> LoginCheck(users, email, other) == Err(Response(401, DEACTIVATED))
  {
    var found := FindUserByEmail(users, email);
    if found.Some? {
      forall u | u in users && u.email == Trim(email)
        ensures u == found.value
      {
        EmailIdentifies(users, u, found.value);
      }
    }
  }

  /**
   * `login`: on success, `lastLogin` becomes now and the slot holds the new
   * refresh token with a one-day expiry; the reply's user is the document as
   * read before either write.
   */
  method Login(store: UserStore, tokens: TokenService, email: string, password: string, now: nat)
    returns (resp: Response, data: Option<AuthData>)
    requires store.Valid() && tokens.WarnedOnce()
    modifies store, tokens
    ensures store.Valid() && tokens.WarnedOnce()
    ensures old(SlotsOwned(store.users)) ==> SlotsOwned(store.users)
    ensures LoginCheck(old(store.users), email, password).Ok? ==>
      LoginCheck(old(store.users), email, password).value.id < |old(store.users)|
    ensures var c := LoginCheck(old(store.users), email, password);
      (c.Err? ==> resp == c.error && store.users == old(store.users) && data.None?)
      && (c.Ok? ==>
            var u := c.value;
            var refresh := Sign(RefreshPayload(SubjectOf(u)), tokens.Secret(), now, tokens.refreshLifetime);
            resp == Response(200, LOGGED_IN)
            && store.users == old(store.users)[u.id := WithSlot(u.(lastLogin := Some(now)), Some(refresh), Some(now + DAY_MS))]
            && data == Some(AuthData(Public(u), Sign(AccessPayload(SubjectOf(u)), tokens.Secret(), now, tokens.accessLifetime), refresh)))
  {
    var c := LoginCheck(store.users, email, password);
    if c.Err? {
      return c.error, None;
    }
    var u := c.value;
    ConsistentMember(store.users, u);
    store.UpdateLastLogin(u.id, now);
    var snapshot := Public(u);
    var access, refresh := tokens.GenerateAuthTokens(SubjectOf(u), now);
    store.SetSlot(u.id, Some(refresh), Some(now + DAY_MS));
    resp := Response(200, LOGGED_IN);
    data := Some(AuthData(snapshot, access, refresh));
  }

  // ---------------------------------------------------------------- profile

  /** `getProfile`: the profile of an existing user, or 404. */
  function GetProfile(users: seq<User>, id: UserId): (r: (Response, Option<Profile>))
    ensures r.0.status == 200 <==> id < |users|
    ensures r.0.status != 200 ==> r.0 == Response(404, USER_NOT_FOUND) && r.1.None?
    ensures r.0.status == 200 ==> r.1.Some? && r.1.value.user == users[id]
  {
    var p := GetUserProfile(users, id);
    if p.Ok? then (Response(200, ""), Some(p.value)) else (Response(404, USER_NOT_FOUND), None)
  }

  /** The update `updateProfile` passes on: the body without `password` and `email`. */
  function SafeProfileUpdate(body: UpdateData): (d: UpdateData)
    ensures d.password.None? && d.email.None?
    ensures d.firstName == body.firstName && d.lastName == body.lastName && d.currency == body.currency
    ensures d.isActive == body.isActive && d.refreshToken == body.refreshToken
    ensures d.refreshTokenExpiresAt == body.refreshTokenExpiresAt && d.lastLogin == body.lastLogin
  {
    body.(password := None, email := None)
  }

  /**
   * `updateProfile`: the stored email and password never change; a failed
   * validation is a 500, an unknown id a 404.
   */
  method UpdateProfile(store: UserStore, id: UserId, body: UpdateData) returns (resp: Response, data: Option<User>)
    requires store.Valid()
    modifies store
    ensures store.Valid()
    ensures body.refreshToken.None? && old(SlotsOwned(store.users)) ==> SlotsOwned(store.users)
    ensures var d := SafeProfileUpdate(body);
      (!ValidUpdate(d) ==> resp == Response(500, PROFILE_UPDATE_FAILED) && store.users == old(store.users))
      && (ValidUpdate(d) && id >= |old(store.users)| ==> resp == Response(404, USER_NOT_FOUND) && store.users == old(store.users))
      && (ValidUpdate(d) && id < |old(store.users)| ==>
            resp == Response(200, PROFILE_UPDATED)
            && store.users == old(store.users)[id := ApplyUpdate(old(store.users)[id], d)]
            && data == Some(store.users[id]))
    ensures |store.users| == |old(store.users)|
    ensures id < |old(store.users)| ==>
      store.users[id].email == old(store.users)[id].email && store.users[id].password == old(store.users)[id].password
  {
    var updateData := body;
    updateData := updateData.(password := None);
    updateData := updateData.(email := None);
    var r := store.UpdateUser(id, updateData);
    if r.Ok? {
      resp, data := Response(200, PROFILE_UPDATED), Some(r.value);
    } else if r.error == USER_NOT_FOUND {
      resp, data := Response(404, USER_NOT_FOUND), None;
    } else {
      resp, data := Response(500, PROFILE_UPDATE_FAILED), None;
    }
  }

  /**
   * `updatePassword`: both fields, a new password of at least six
   * characters, an existing user and the right current password; only then
   * the hash changes.
   */
  method UpdatePassword(store: UserStore, id: UserId, currentPassword: string, newPassword: string, salt: nat)
    returns (resp: Response)
    requires store.Valid()
    modifies store
    ensures store.Valid()
    ensures old(SlotsOwned(store.users)) ==> SlotsOwned(store.users)
    ensures currentPassword == "" || newPassword == "" ==> resp == Response(400, PASSWORDS_MISSING)
    ensures currentPassword != "" && newPassword != "" && |newPassword| < MIN_PASSWORD_LENGTH ==>
      resp == Response(400, PASSWORD_TOO_SHORT)
    ensures resp.status == 200 <==>
      currentPassword != "" && |newPassword| >= MIN_PASSWORD_LENGTH
      && id < |old(store.users)| && Compare(currentPassword, old(store.users)[id].password)
    ensures resp.status == 200 ==>
      resp == Response(200, PASSWORD_UPDATED)
      && store.users == old(store.users)[id := old(store.users)[id].(password := Hash(newPassword, salt))]
    ensures resp.status != 200 ==> store.users == old(store.users) && resp.status in {400, 404}
  {
    if currentPassword == "" || newPassword == "" {
      return Response(400, PASSWORDS_MISSING);
    }
    if |newPassword| < MIN_PASSWORD_LENGTH {
      return Response(400, PASSWORD_TOO_SHORT);
    }
    var r := store.UpdateUserPassword(id, currentPassword, newPassword, salt);
    if r.Ok? {
      resp := Response(200, r.value);
    } else if r.error == USER_NOT_FOUND {
      resp := Response(404, USER_NOT_FOUND);
    } else if r.error == WRONG_PASSWORD {
      resp := Response(400, WRONG_PASSWORD);
    } else {
      resp := Response(500, PASSWORD_UPDATE_FAILED);
    }
  }

  /** `deactivateAccount`: the account is inactive and its slot empty; nothing else changes. */
  method DeactivateAccount(store: UserStore, id: UserId) returns (resp: Response, data: Option<User>)
    requires store.Valid()
    modifies store
    ensures store.Valid()
    ensures old(SlotsOwned(store.users)) ==> SlotsOwned(store.users)
    ensures id >= |old(store.users)| ==>
      resp == Response(404, USER_NOT_FOUND) && store.users == old(store.users) && data.None?
    ensures id < |old(store.users)| ==>
      resp == Response(200, ACCOUNT_DEACTIVATED)
      && store.users == old(store.users)[id := WithSlot(old(store.users)[id].(isActive := false), None, None)]
      && data == Some(store.users[id])
  {
    var r := store.DeactivateUser(id);
    if r.Err? {
      return Response(404, USER_NOT_FOUND), None;
    }
    store.SetSlot(id, None, None);
    resp := Response(200, ACCOUNT_DEACTIVATED);
    data := Some(store.users[id]);
  }

  // ---------------------------------------------------------------- refresh and logout

  /**
   * `refreshToken`: the first user holding the given token with an expiry
   * still ahead; a token that does not verify empties that slot; otherwise
   * the slot is rotated to a new refresh token for that user.
   */
  method RefreshToken(store: UserStore, tokens: TokenService, t: Option<TokenText>, now: nat)
    returns (resp: Response, data: Option<TokenPair>)
    requires store.Valid() && tokens.WarnedOnce()
    modifies store, tokens
    ensures store.Valid() && tokens.WarnedOnce()
    ensures old(SlotsOwned(store.users)) ==> SlotsOwned(store.users)
    ensures !Truthy(t) ==> resp == Response(401, REFRESH_REQUIRED) && store.users == old(store.users)
    ensures Truthy(t) && UnexpiredHolder(old(store.users), t.value, now).None? ==>
      resp == Response(401, REFRESH_UNKNOWN) && store.users == old(store.users)
    ensures Truthy(t) && UnexpiredHolder(old(store.users), t.value, now).Some? ==>
      var i := UnexpiredHolder(old(store.users), t.value, now).value;
      var u := old(store.users)[i];
      var refresh := Sign(RefreshPayload(SubjectOf(u)), tokens.Secret(), now, tokens.refreshLifetime);
      (Verify(t.value, tokens.Secret(), now).Err? ==>
         resp == Response(401, REFRESH_INVALID) && store.users == old(store.users)[i := WithSlot(u, None, None)])
      && (Verify(t.value, tokens.Secret(), now).Ok? ==>
         resp == Response(200, REFRESHED)
         && store.users == old(store.users)[i := WithSlot(u, Some(refresh), Some(now + DAY_MS))]
         && data == Some(TokenPair(Sign(AccessPayload(SubjectOf(u)), tokens.Secret(), now, tokens.accessLifetime), refresh)))
    ensures resp.status != 200 ==> resp.status == 401 && data.None?
  {
    if !Truthy(t) {
      return Response(401, REFRESH_REQUIRED), None;
    }
    var holder := UnexpiredHolder(store.users, t.value, now);
    if holder.None? {
      return Response(401, REFRESH_UNKNOWN), None;
    }
    var i := holder.value;
    var u := store.users[i];
    var verified := tokens.VerifyToken(t.value, now);
    if verified.Err? {
      store.SetSlot(i, None, None);
      return Response(401, REFRESH_INVALID), None;
    }
    var access, refresh := tokens.GenerateAuthTokens(SubjectOf(u), now);
    store.SetSlot(i, Some(refresh), Some(now + DAY_MS));
    resp := Response(200, REFRESHED);
    data := Some(TokenPair(access, refresh));
  }

  /**
   * Rotation: after a successful refresh no user holds the old token any
   * more, provided the new token differs from it (see `SameSecondRefresh`).
   */
  lemma RefreshRotates(users: seq<User>, t: TokenText, key: string, now: nat, lifetime: nat)
    requires Consistent(users) && SlotsOwned(users)
    requires UnexpiredHolder(users, t, now).Some? && Verify(t, key, now).Ok?
    requires var i := UnexpiredHolder(users, t, now).value;
      Sign(RefreshPayload(SubjectOf(users[i])), key, now, lifetime) != t
    ensures var i := UnexpiredHolder(users, t, now).value;
      var after := users[i := WithSlot(users[i], Some(Sign(RefreshPayload(SubjectOf(users[i])), key, now, lifetime)), Some(now + DAY_MS))];
      forall j :: 0 <= j < |after| ==> after[j].refreshToken != Some(t)
  {
    var i := UnexpiredHolder(users, t, now).value;
    forall j | 0 <= j < |users| && j != i
      ensures users[j].refreshToken != Some(t)
    {
      if users[j].refreshToken == Some(t) {
        SignedHolder(users, t, j);
        SignedHolder(users, t, i);
      }
    }
  }

  /**
   * Tokens carry whole seconds, so a refresh within the second in which the
   * presented token was issued yields that very token again: the slot keeps
   * it and rotation does not happen.
   */
  lemma SameSecondRefresh(i: UserId, key: string, issued: nat, now: nat, lifetime: nat)
    ensures Sign(RefreshClaims(i), key, now, lifetime) == Sign(RefreshClaims(i), key, issued, lifetime)
      <==> Seconds(now) == Seconds(issued)
  {
    SignInjective(RefreshClaims(i), RefreshClaims(i), key, now, issued, lifetime);
  }

  lemma DivBelow(n: nat, k: nat)
    ensures n / 1000 < k <==> n < k * 1000
  {
  }

  /**
   * A refresh token issued at `issued` ms is stored with expiry
   * `issued + DAY_MS`, but it stops verifying `issued % 1000` ms earlier,
   * at the start of the second: in that gap the slot is found and then
   * emptied as invalid.
   */
  lemma RefreshExpiryGap(c: Claims, key: string, issued: nat, now: nat)
    ensures Verify(Sign(c, key, issued, DEFAULT_REFRESH_LIFETIME), key, now).Ok? <==>
      now < issued - issued % 1000 + DAY_MS
    ensures issued - issued % 1000 + DAY_MS <= issued + DAY_MS
  {
    DivBelow(now, issued / 1000 + DEFAULT_REFRESH_LIFETIME);
  }

  /** `logout`: the first holder of a given token has its slot emptied, expired or not; the reply is always 200. */
  method Logout(store: UserStore, t: Option<TokenText>) returns (resp: Response)
    requires store.Valid()
    modifies store
    ensures store.Valid()
    ensures old(SlotsOwned(store.users)) ==> SlotsOwned(store.users)
    ensures resp == Response(200, LOGGED_OUT)
    ensures Truthy(t) && Holder(old(store.users), t.value).Some? ==>
      var i := Holder(old(store.users), t.value).value;
      store.users == old(store.users)[i := WithSlot(old(store.users)[i], None, None)]
    ensures !(Truthy(t) && Holder(old(store.users), t.value).Some?) ==> store.users == old(store.users)
  {
    if Truthy(t) {
      var holder := Holder(store.users, t.value);
      if holder.Some? {
        store.SetSlot(holder.value, None, None);
      }
    }
    resp := Response(200, LOGGED_OUT);
  }

  /** After logout with a signed token, no user holds it; every other slot is as it was. */
  lemma LogoutRevokes(users: seq<User>, t: TokenText)
    requires SlotsOwned(users) && t.Signed? && t != Other("") && Holder(users, t).Some?
    ensures var i := Holder(users, t).value;
      var after := users[i := WithSlot(users[i], None, None)];
      (forall j :: 0 <= j < |after| ==> after[j].refreshToken != Some(t))
      && (forall j :: 0 <= j < |after| && j != i ==> after[j] == users[j])
  {
    var i := Holder(users, t).value;
    forall j | 0 <= j < |users| && j != i
      ensures users[j].refreshToken != Some(t)
    {
      if users[j].refreshToken == Some(t) {
        SignedHolder(users, t, j);
        SignedHolder(users, t, i);
      }
    }
  }
}
