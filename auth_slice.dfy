/**
 * The `auth` slice of frontend/job-portal/src/features/auth/authSlice.js:
 * its state, its two reducers and the reducers of the loginUser,
 * registerUser and refreshToken thunks. The localStorage writes and the
 * thunks' HTTP calls are outside this model; a thunk enters only through
 * the action it dispatches.
 */
module AuthSlice {
  import opened Wrappers

  /** The public user fields the login response carries. */
  datatype User = User(id: nat, email: string, role: string)

  /** The payload of `setUser` and of `loginUser.fulfilled`; a missing field is `undefined`. */
  datatype LoginPayload = LoginPayload(user: Option<User>, accessToken: Option<string>, refreshToken: Option<string>)

  /** The slice's state as a value. */
  datatype AuthState = AuthState(
    user: Option<User>,
    accessToken: Option<string>,
    refreshToken: Option<string>,
    isLoading: bool,
    isRefreshing: bool,
    error: Option<string>,
    registerSuccess: Option<string>)

  const InitialState := AuthState(None, None, None, false, false, None, None)

  /** The actions the slice handles. */
  datatype AuthAction =
    | Logout
    | SetUser(payload: LoginPayload)
    | LoginUserPending
    | LoginUserFulfilled(payload: LoginPayload)
    | LoginUserRejected(message: string)
    | RegisterUserPending
    | RegisterUserFulfilled(responseMessage: Option<string>)   // `action.payload.message`
    | RegisterUserRejected(message: string)
    | RefreshTokenPending
    | RefreshTokenFulfilled(accessToken: Option<string>)
    | RefreshTokenRejected

  const RegistrationSuccessful := "Registration successful"
  const SessionExpired := "Session expired, please login again"

  /** The slice reducer as a function of state and action: the reference for the methods below. */
  function Reduce(s: AuthState, a: AuthAction): AuthState {
    match a
    case Logout => s.(user := None, accessToken := None, refreshToken := None, error := None, registerSuccess := None)
    case SetUser(p) => s.(user := p.user, accessToken := p.accessToken, refreshToken := p.refreshToken, error := None, registerSuccess := None)
    case LoginUserPending => s.(isLoading := true, error := None)
    case LoginUserFulfilled(p) => s.(isLoading := false, user := p.user, accessToken := p.accessToken, refreshToken := p.refreshToken)
    case LoginUserRejected(m) => s.(isLoading := false, error := Some(m))
    case RegisterUserPending => s.(isLoading := true, error := None, registerSuccess := None)
    case RegisterUserFulfilled(m) =>
      s.(isLoading := false, registerSuccess := Some(if Truthy(m) then m.value else RegistrationSuccessful))
    case RegisterUserRejected(m) => s.(isLoading := false, error := Some(m), registerSuccess := None)
    case RefreshTokenPending => s.(isRefreshing := true, error := None)
    case RefreshTokenFulfilled(t) => s.(isRefreshing := false, accessToken := t)
    case RefreshTokenRejected =>
      s.(isRefreshing := false, user := None, accessToken := None, refreshToken := None, error := Some(SessionExpired))
  }

  /** Logging out twice is logging out once. */
  lemma LogoutIdempotent(s: AuthState)
    ensures Reduce(Reduce(s, Logout), Logout) == Reduce(s, Logout)
  {
  }

  /** Only the session actions change who is logged in. */
  lemma UserChangesOnlyOnSessionActions(s: AuthState, a: AuthAction)
    requires Reduce(s, a).user != s.user
    ensures a.Logout? || a.SetUser? || a.LoginUserFulfilled? || a.RefreshTokenRejected?
  {
  }

  /** The stored refresh token changes only when the session is installed or torn down. */
  lemma RefreshTokenChangesOnlyOnSessionActions(s: AuthState, a: AuthAction)
    requires Reduce(s, a).refreshToken != s.refreshToken
    ensures a.Logout? || a.SetUser? || a.LoginUserFulfilled? || a.RefreshTokenRejected?
  {
  }

  /** `isRefreshing` is driven by the refreshToken actions alone, `isLoading` by the login and register ones. */
  lemma FlagsBelongToTheirThunks(s: AuthState, a: AuthAction)
    ensures Reduce(s, a).isRefreshing != s.isRefreshing ==> a.RefreshTokenPending? || a.RefreshTokenFulfilled? || a.RefreshTokenRejected?
    ensures Reduce(s, a).isLoading != s.isLoading ==>
      a.LoginUserPending? || a.LoginUserFulfilled? || a.LoginUserRejected? ||
      a.RegisterUserPending? || a.RegisterUserFulfilled? || a.RegisterUserRejected?
  {
  }

  /** The Immer draft of the slice: reducers assign its fields in place. */
  class AuthSliceState {
    var user: Option<User>
    var accessToken: Option<string>
    var refreshToken: Option<string>
    var isLoading: bool
    var isRefreshing: bool
    var error: Option<string>
    var registerSuccess: Option<string>

    ghost function View(): AuthState
      reads this
    {
      AuthState(user, accessToken, refreshToken, isLoading, isRefreshing, error, registerSuccess)
    }

    constructor ()
      ensures View() == InitialState
    {
      user, accessToken, refreshToken := None, None, None;
      isLoading, isRefreshing := false, false;
      error, registerSuccess := None, None;
    }

    /** `logout`. */
    method Logout()
      modifies this
      ensures user == None && accessToken == None && refreshToken == None
      ensures error == None && registerSuccess == None
      ensures isLoading == old(isLoading) && isRefreshing == old(isRefreshing)
      ensures View() == Reduce(old(View()), AuthAction.Logout)
    {
      user := None;
      accessToken := None;
      refreshToken := None;
      error := None;
      registerSuccess := None;
    }

    /** `setUser`. */
    method SetUser(payload: LoginPayload)
      modifies this
      ensures user == payload.user && accessToken == payload.accessToken && refreshToken == payload.refreshToken
      ensures error == None && registerSuccess == None
      ensures isLoading == old(isLoading) && isRefreshing == old(isRefreshing)
      ensures View() == Reduce(old(View()), AuthAction.SetUser(payload))
    {
      user := payload.user;
      accessToken := payload.accessToken;
      refreshToken := payload.refreshToken;
      error := None;
      registerSuccess := None;
    }

    /** `loginUser.pending`. */
    method LoginUserPending()
      modifies this
      ensures isLoading && error == None
      ensures user == old(user) && accessToken == old(accessToken) && refreshToken == old(refreshToken)
      ensures isRefreshing == old(isRefreshing) && registerSuccess == old(registerSuccess)
      ensures View() == Reduce(old(View()), AuthAction.LoginUserPending)
    {
      isLoading := true;
      error := None;
    }

    /** `loginUser.fulfilled`. */
    method LoginUserFulfilled(payload: LoginPayload)
      modifies this
      ensures !isLoading
      ensures user == payload.user && accessToken == payload.accessToken && refreshToken == payload.refreshToken
      ensures isRefreshing == old(isRefreshing) && error == old(error) && registerSuccess == old(registerSuccess)
      ensures View() == Reduce(old(View()), AuthAction.LoginUserFulfilled(payload))
    {
      isLoading := false;
      user := payload.user;
      accessToken := payload.accessToken;
      refreshToken := payload.refreshToken;
    }

    /** `loginUser.rejected` with the thunk's rejection value. */
    method LoginUserRejected(message: string)
      modifies this
      ensures !isLoading && error == Some(message)
      ensures user == old(user) && accessToken == old(accessToken) && refreshToken == old(refreshToken)
      ensures isRefreshing == old(isRefreshing) && registerSuccess == old(registerSuccess)
      ensures View() == Reduce(old(View()), AuthAction.LoginUserRejected(message))
    {
      isLoading := false;
      error := Some(message);
    }

    /** `registerUser.pending`. */
    method RegisterUserPending()
      modifies this
      ensures isLoading && error == None && registerSuccess == None
      ensures user == old(user) && accessToken == old(accessToken) && refreshToken == old(refreshToken)
      ensures isRefreshing == old(isRefreshing)
      ensures View() == Reduce(old(View()), AuthAction.RegisterUserPending)
    {
      isLoading := true;
      error := None;
      registerSuccess := None;
    }

    /** `registerUser.fulfilled` with the response's `message`; it does not log the user in. */
    method RegisterUserFulfilled(responseMessage: Option<string>)
      modifies this
      ensures !isLoading
      ensures registerSuccess == Some(if Truthy(responseMessage) then responseMessage.value else RegistrationSuccessful)
      ensures user == old(user) && accessToken == old(accessToken) && refreshToken == old(refreshToken)
      ensures isRefreshing == old(isRefreshing) && error == old(error)
      ensures View() == Reduce(old(View()), AuthAction.RegisterUserFulfilled(responseMessage))
    {
      isLoading := false;
      if Truthy(responseMessage) {
        registerSuccess := responseMessage;
      } else {
        registerSuccess := Some(RegistrationSuccessful);
      }
    }

    /** `registerUser.rejected`. */
    method RegisterUserRejected(message: string)
      modifies this
      ensures !isLoading && error == Some(message) && registerSuccess == None
      ensures user == old(user) && accessToken == old(accessToken) && refreshToken == old(refreshToken)
      ensures isRefreshing == old(isRefreshing)
      ensures View() == Reduce(old(View()), AuthAction.RegisterUserRejected(message))
    {
      isLoading := false;
      error := Some(message);
      registerSuccess := None;
    }

    /** `refreshToken.pending`. */
    method RefreshTokenPending()
      modifies this
      ensures isRefreshing && error == None
      ensures user == old(user) && accessToken == old(accessToken) && refreshToken == old(refreshToken)
      ensures isLoading == old(isLoading) && registerSuccess == old(registerSuccess)
      ensures View() == Reduce(old(View()), AuthAction.RefreshTokenPending)
    {
      isRefreshing := true;
      error := None;
    }

    /** `refreshToken.fulfilled` with the new access token. */
    method RefreshTokenFulfilled(newAccessToken: Option<string>)
      modifies this
      ensures !isRefreshing && accessToken == newAccessToken
      ensures user == old(user) && refreshToken == old(refreshToken)
      ensures isLoading == old(isLoading) && error == old(error) && registerSuccess == old(registerSuccess)
      ensures View() == Reduce(old(View()), AuthAction.RefreshTokenFulfilled(newAccessToken))
    {
      isRefreshing := false;
      accessToken := newAccessToken;
    }

    /** `refreshToken.rejected`: the session is dropped. */
    method RefreshTokenRejected()
      modifies this
      ensures !isRefreshing && user == None && accessToken == None && refreshToken == None
      ensures error == Some(SessionExpired)
      ensures isLoading == old(isLoading) && registerSuccess == old(registerSuccess)
      ensures View() == Reduce(old(View()), AuthAction.RefreshTokenRejected)
    {
      isRefreshing := false;
      user := None;
      accessToken := None;
      refreshToken := None;
      error := Some(SessionExpired);
    }
  }
}
