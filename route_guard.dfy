/** The `RequireAuth` route guard of frontend/job-portal/src/app/App.jsx. */
module RouteGuard {
  import opened Wrappers
  import opened AuthSlice

  /** What the guard renders: a `<Navigate replace>` or its children. */
  datatype Outcome = Navigate(to: string) | RenderChildren

  /** The guard over `state.auth.user` and the `role` prop (falsy when absent or ""). */
  function RequireAuth(user: Option<User>, role: Option<string>): (r: Outcome)
    ensures user.None? ==> r == Navigate("/login")
    ensures user.Some? && Truthy(role) && user.value.role != role.value ==> r == Navigate("/jobs")
    ensures user.Some? && (!Truthy(role) || user.value.role == role.value) ==> r == RenderChildren
  {
    if user.None? then Navigate("/login")
    else if Truthy(role) && user.value.role != role.value then Navigate("/jobs")
    else RenderChildren
  }

  /** The `/admin` route renders its dashboard exactly for a logged-in admin. */
  lemma AdminRouteOnlyForAdmins(user: Option<User>)
    ensures RequireAuth(user, Some("admin")) == RenderChildren <==> user.Some? && user.value.role == "admin"
  {
  }

  /** Logging out, or a failed token refresh, sends every guarded route to the login page. */
  lemma SessionEndRedirectsToLogin(s: AuthState, role: Option<string>)
    ensures RequireAuth(Reduce(s, AuthAction.Logout).user, role) == Navigate("/login")
    ensures RequireAuth(Reduce(s, RefreshTokenRejected).user, role) == Navigate("/login")
  {
  }

  /** A successful login opens routes that require the logged-in user's own role. */
  lemma LoginOpensOwnRoleRoutes(s: AuthState, p: LoginPayload)
    requires p.user.Some?
    ensures RequireAuth(Reduce(s, LoginUserFulfilled(p)).user, Some(p.user.value.role)) == RenderChildren
    ensures RequireAuth(Reduce(s, LoginUserFulfilled(p)).user, None) == RenderChildren
  {
  }

  /** Registration actions and token refreshes in flight or succeeded do not change what the guard decides. */
  lemma GuardStableUnderNonSessionActions(s: AuthState, a: AuthAction, role: Option<string>)
    requires a.RegisterUserPending? || a.RegisterUserFulfilled? || a.RegisterUserRejected?
          || a.RefreshTokenPending? || a.RefreshTokenFulfilled?
          || a.LoginUserPending? || a.LoginUserRejected?
    ensures RequireAuth(Reduce(s, a).user, role) == RequireAuth(s.user, role)
  {
  }
}
