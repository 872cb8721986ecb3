/**
 * The browser's session state and its reducers. The two token entries of
 * the browser's local storage are fields of the same object, since every
 * reducer that changes the tokens also writes or clears them. A user
 * object is a map from field name to value; a missing argument or `null`
 * is `None`.
 */
module AuthSlice {
  import opened Wrappers

  type UserInfo = map<string, string>

  const SESSION_EXPIRED := "Session expired. Please login again."

  /** A JavaScript value that counts as true: present and not the empty string. */
  predicate Truthy(t: Option<string>) {
    t.Some? && t.value != ""
  }

  class AuthState {
    var user: Option<UserInfo>
    var accessToken: Option<string>
    var refreshToken: Option<string>
    var isAuthenticated: bool
    var isLoading: bool
    var error: Option<string>
    var isInitialized: bool
    /** The `accessToken` and `refreshToken` entries of local storage. */
    var storedAccess: Option<string>
    var storedRefresh: Option<string>

    /** Every token the state holds, when truthy, is also in storage, so a reload finds it again. */
    ghost predicate Mirrored()
      reads this
    {
      (Truthy(accessToken) ==> storedAccess == accessToken)
      && (Truthy(refreshToken) ==> storedRefresh == refreshToken)
    }

    /** A user is only ever held by an authenticated session. */
    ghost predicate Valid()
      reads this
    {
      Mirrored() && (user.Some? ==> isAuthenticated)
    }

    /** `initialState`: the tokens read from storage; authenticated exactly when the stored access token is truthy. */
    constructor (access: Option<string>, refresh: Option<string>)
      ensures user.None? && accessToken == access && refreshToken == refresh
      ensures isAuthenticated <==> Truthy(access)
      ensures !isLoading && error.None? && !isInitialized
      ensures storedAccess == access && storedRefresh == refresh
      ensures Valid()
    {
      user, accessToken, refreshToken := None, access, refresh;
      isAuthenticated := access.Some? && access.value != "";
      isLoading, error, isInitialized := false, None, false;
      storedAccess, storedRefresh := access, refresh;
    }

    /** `saveTokensToStorage`: only truthy tokens are written; a falsy one leaves its entry as it was. */
    method SaveTokens(access: Option<string>, refresh: Option<string>)
      modifies this
      ensures storedAccess == (if Truthy(access) then access else old(storedAccess))
      ensures storedRefresh == (if Truthy(refresh) then refresh else old(storedRefresh))
      ensures user == old(user) && accessToken == old(accessToken) && refreshToken == old(refreshToken)
      ensures isAuthenticated == old(isAuthenticated) && isLoading == old(isLoading)
      ensures error == old(error) && isInitialized == old(isInitialized)
    {
      if access.Some? && access.value != "" {
        storedAccess := access;
      }
      if refresh.Some? && refresh.value != "" {
        storedRefresh := refresh;
      }
    }

    /** `clearTokensFromStorage` */
    method ClearTokens()
      modifies this
      ensures storedAccess.None? && storedRefresh.None?
      ensures user == old(user) && accessToken == old(accessToken) && refreshToken == old(refreshToken)
      ensures isAuthenticated == old(isAuthenticated) && isLoading == old(isLoading)
      ensures error == old(error) && isInitialized == old(isInitialized)
    {
      storedAccess, storedRefresh := None, None;
    }

    /** `setLoading` */
    method SetLoading(b: bool)
      requires Valid()
      modifies this
      ensures isLoading == b && Valid()
      ensures user == old(user) && accessToken == old(accessToken) && refreshToken == old(refreshToken)
      ensures isAuthenticated == old(isAuthenticated) && error == old(error) && isInitialized == old(isInitialized)
      ensures storedAccess == old(storedAccess) && storedRefresh == old(storedRefresh)
    {
      isLoading := b;
    }

    /** `setInitialized` */
    method SetInitialized(b: bool)
      requires Valid()
      modifies this
      ensures isInitialized == b && Valid()
      ensures user == old(user) && accessToken == old(accessToken) && refreshToken == old(refreshToken)
      ensures isAuthenticated == old(isAuthenticated) && isLoading == old(isLoading) && error == old(error)
      ensures storedAccess == old(storedAccess) && storedRefresh == old(storedRefresh)
    {
      isInitialized := b;
    }

    /**
     * `loginSuccess`: user and both tokens from the payload, authenticated,
     * no error, not loading, and the truthy tokens saved. A falsy token
     * in the payload leaves the previous stored entry in place.
     */
    method LoginSuccess(u: Option<UserInfo>, access: Option<string>, refresh: Option<string>)
      requires Valid()
      modifies this
      ensures user == u && accessToken == access && refreshToken == refresh
      ensures isAuthenticated && !isLoading && error.None?
      ensures isInitialized == old(isInitialized)
      ensures storedAccess == (if Truthy(access) then access else old(storedAccess))
      ensures storedRefresh == (if Truthy(refresh) then refresh else old(storedRefresh))
      ensures Valid()
    {
      user, accessToken, refreshToken := u, access, refresh;
      isAuthenticated, isLoading, error := true, false, None;
      SaveTokens(access, refresh);
    }

    /** `registerSuccess`, the same transition as `loginSuccess`. */
    method RegisterSuccess(u: Option<UserInfo>, access: Option<string>, refresh: Option<string>)
      requires Valid()
      modifies this
      ensures user == u && accessToken == access && refreshToken == refresh
      ensures isAuthenticated && !isLoading && error.None?
      ensures isInitialized == old(isInitialized)
      ensures storedAccess == (if Truthy(access) then access else old(storedAccess))
      ensures storedRefresh == (if Truthy(refresh) then refresh else old(storedRefresh))
      ensures Valid()
    {
      LoginSuccess(u, access, refresh);
    }

    /** The session teardown shared by the failures and `logout`: no user, no tokens, not loading, storage emptied. */
    method EndSession(err: Option<string>)
      requires Valid()
      modifies this
      ensures user.None? && accessToken.None? && refreshToken.None?
      ensures !isAuthenticated && !isLoading && error == err
      ensures isInitialized == old(isInitialized)
      ensures storedAccess.None? && storedRefresh.None?
      ensures Valid()
    {
      user, accessToken, refreshToken := None, None, None;
      isAuthenticated, isLoading, error := false, false, err;
      ClearTokens();
    }

    /** `loginFailure`: the session ends with the payload as the error. */
    method LoginFailure(err: Option<string>)
      requires Valid()
      modifies this
      ensures user.None? && accessToken.None? && refreshToken.None?
      ensures !isAuthenticated && !isLoading && error == err
      ensures isInitialized == old(isInitialized)
      ensures storedAccess.None? && storedRefresh.None?
      ensures Valid()
    {
      EndSession(err);
    }

    /** `registerFailure`, the same transition as `loginFailure`. */
    method RegisterFailure(err: Option<string>)
      requires Valid()
      modifies this
      ensures user.None? && accessToken.None? && refreshToken.None?
      ensures !isAuthenticated && !isLoading && error == err
      ensures isInitialized == old(isInitialized)
      ensures storedAccess.None? && storedRefresh.None?
      ensures Valid()
    {
      EndSession(err);
    }

    /** `logout`: the session ends with no error. */
    method Logout()
      requires Valid()
      modifies this
      ensures user.None? && accessToken.None? && refreshToken.None?
      ensures !isAuthenticated && !isLoading && error.None?
      ensures isInitialized == old(isInitialized)
      ensures storedAccess.None? && storedRefresh.None?
      ensures Valid()
    {
      EndSession(None);
    }

    /** `clearError`: only the error changes. */
    method ClearError()
      requires Valid()
      modifies this
      ensures error.None? && Valid()
      ensures user == old(user) && accessToken == old(accessToken) && refreshToken == old(refreshToken)
      ensures isAuthenticated == old(isAuthenticated) && isLoading == old(isLoading) && isInitialized == old(isInitialized)
      ensures storedAccess == old(storedAccess) && storedRefresh == old(storedRefresh)
    {
      error := None;
    }

    /** `updateUserProfile`: the payload's fields overlay the user's; with no user nothing happens. */
    method UpdateUserProfile(patch: UserInfo)
      requires Valid()
      modifies this
      ensures old(user).None? ==> user.None?
      ensures old(user).Some? ==> user == Some(old(user).value + patch)
      ensures old(user).Some? ==> forall k :: k in patch ==> user.value[k] == patch[k]
      ensures old(user).Some? ==> forall k :: k in old(user).value && k !in patch ==> user.value[k] == old(user).value[k]
      ensures accessToken == old(accessToken) && refreshToken == old(refreshToken)
      ensures isAuthenticated == old(isAuthenticated) && isLoading == old(isLoading)
      ensures error == old(error) && isInitialized == old(isInitialized)
      ensures storedAccess == old(storedAccess) && storedRefresh == old(storedRefresh)
      ensures Valid()
    {
      if user.Some? {
        user := Some(user.value + patch);
      }
    }

    /**
     * `refreshTokenSuccess`: the access token is replaced (even by a falsy
     * one); the refresh token only when the payload carries a truthy one.
     * Both are then saved. Neither the user nor `isAuthenticated` moves.
     */
    method RefreshTokenSuccess(access: Option<string>, refresh: Option<string>)
      requires Valid()
      modifies this
      ensures accessToken == access
      ensures refreshToken == (if Truthy(refresh) then refresh else old(refreshToken))
      ensures storedAccess == (if Truthy(access) then access else old(storedAccess))
      ensures storedRefresh == (if Truthy(refreshToken) then refreshToken else old(storedRefresh))
      ensures user == old(user) && isAuthenticated == old(isAuthenticated) && isLoading == old(isLoading)
      ensures error == old(error) && isInitialized == old(isInitialized)
      ensures Valid()
    {
      accessToken := access;
      if refresh.Some? && refresh.value != "" {
        refreshToken := refresh;
      }
      SaveTokens(access, if refresh.Some? && refresh.value != "" then refresh else refreshToken);
    }

    /** `refreshTokenFailure`: the session ends with the expiry message; `isLoading` is left as it was. */
    method RefreshTokenFailure()
      requires Valid()
      modifies this
      ensures user.None? && accessToken.None? && refreshToken.None?
      ensures !isAuthenticated && error == Some(SESSION_EXPIRED)
      ensures isLoading == old(isLoading) && isInitialized == old(isInitialized)
      ensures storedAccess.None? && storedRefresh.None?
      ensures Valid()
    {
      user, accessToken, refreshToken := None, None, None;
      isAuthenticated, error := false, Some(SESSION_EXPIRED);
      ClearTokens();
    }
  }
}
