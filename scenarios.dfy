/**
 * Sequences of requests against one server, proved from the handlers'
 * contracts alone: what a client observes across several calls.
 */
module SessionScenarios {
  import opened Wrappers
  import opened Tokens
  import opened Passwords
  import opened AuthGate
  import opened Schemas
  import opened PortalServer

  /** Registering and then logging in with the same credentials succeeds, as a plain `user`. */
  method RegisterThenLogin(s: Server, email: string, password: string, salt: nat, now: int)
    returns (registered: Response, loggedIn: Response)
    requires s.Valid()
    requires email != "" && s.isEmail(email) && |password| >= 6
    requires !EmailTaken(s.users, email)
    modifies s
    ensures s.Valid()
    ensures registered == Response(200, Message("User registered successfully"))
    ensures var claim := Claim(old(s.nextUserId), email, "user");
      loggedIn == Response(200, LoginTokens(GenerateAccessToken(claim, now), GenerateRefreshToken(claim, now), claim))
  {
    registered := s.Register(RegisterBody(Str(email), Str(password), false), salt);
    ghost var id := old(s.nextUserId);
    assert id in s.users && s.users[id].email == email && Compare(password, s.users[id].password);
    loggedIn := s.Login(LoginBody(Str(email), Str(password), false), now);
  }

  /** A registration whose password is shorter than six characters is refused and creates no account. */
  method ShortPasswordRejected(s: Server, email: string, password: string, salt: nat)
    returns (registered: Response)
    requires s.Valid()
    requires |password| < 6
    modifies s
    ensures s.Valid()
    ensures registered == BadRequest && registered.status == 400
    ensures s.users == old(s.users) && s.nextUserId == old(s.nextUserId)
  {
    SchemaLimits(RegisterBody(Str(email), Str(password), false), LoginBody(Absent, Absent, false),
                 JobBody(Absent, Absent, Absent, Absent, false), ApplyBody(Absent, false), s.isEmail);
    registered := s.Register(RegisterBody(Str(email), Str(password), false), salt);
  }

  /**
   * A second login of the same user at another time replaces the stored
   * refresh token, so the first session's refresh token is refused.
   * (Two logins within the same second mint the same token.)
   */
  method SecondLoginRevokesFirst(s: Server, body: LoginBody, t1: int, t2: int, t3: int)
    returns (first: Response, second: Response, refresh: Response)
    requires s.Valid() && t1 != t2
    modifies s
    ensures s.Valid()
    ensures first.status == 200 ==> second.status == 200 && refresh == InvalidRefreshToken
  {
    first := s.Login(body, t1);
    if first.status != 200 {
      second, refresh := first, first;
      return;
    }
    ghost var id :| id in old(s.users) && old(s.users)[id].email == body.email.s && Compare(body.password.s, old(s.users)[id].password);
    ghost var claim := ClaimOf(id, old(s.users)[id]);
    assert s.users[id].email == body.email.s && s.users[id].password == old(s.users)[id].password;
    assert ClaimOf(id, s.users[id]) == claim;
    second := s.Login(body, t2);
    assert s.users[id].refreshToken == Some(GenerateRefreshToken(claim, t2));
    RefreshTokensOfDifferentTimesDiffer(claim, t1, t2);
    refresh := s.Refresh(Some(Signed(first.body.refreshToken)), t3);
  }

  /** After logout with the session's access token, that session's refresh token is refused. */
  method LogoutRevokesRefresh(s: Server, body: LoginBody, t1: int, t2: int, t3: int)
    returns (login: Response, logout: Response, refresh: Response)
    requires s.Valid() && t1 <= t2 < t1 + AccessLifetime
    modifies s
    ensures s.Valid()
    ensures login.status == 200 ==> logout == Response(200, Message("Logged out successfully")) && refresh == InvalidRefreshToken
  {
    login := s.Login(body, t1);
    if login.status != 200 {
      logout, refresh := login, login;
      return;
    }
    ghost var id :| id in old(s.users) && old(s.users)[id].email == body.email.s && Compare(body.password.s, old(s.users)[id].password);
    AccessTokenLifetime(ClaimOf(id, old(s.users)[id]), t1, t2);
    logout := s.Logout(BearerHeader(login.body.accessToken), t2);
    ClearedSessionRefusesRefresh(s.users, id, login.body.refreshToken, t3);
    refresh := s.Refresh(Some(Signed(login.body.refreshToken)), t3);
  }

  /** Logging out a second time is not an error and changes nothing more. */
  method LogoutTwice(s: Server, header: Header, t1: int, t2: int)
    returns (first: Response, second: Response)
    requires s.Valid()
    requires AuthenticateJWT(header, t1).Proceed? && AuthenticateJWT(header, t2).Proceed?
    modifies s
    ensures s.Valid()
    ensures first == second == Response(200, Message("Logged out successfully"))
    ensures s.users == ClearRefreshToken(old(s.users), AuthenticateJWT(header, t1).user.id)
  {
    first := s.Logout(header, t1);
    second := s.Logout(header, t2);
    ClearRefreshTokenIdempotent(old(s.users), AuthenticateJWT(header, t1).user.id);
  }

  /**
   * Log in, use the access token past its 15 minutes (refused with 403),
   * renew it with the refresh token, and use the new one (admitted).
   */
  method ExpiredAccessRenewedByRefresh(s: Server, body: LoginBody, t0: int)
    returns (login: Response, expired: Gate, renewed: Response, retried: Gate)
    requires s.Valid()
    modifies s
    ensures s.Valid()
    ensures login.status == 200 ==>
      && login.body.LoginTokens?
      && expired == Halt(403)
      && renewed.status == 200
      && retried == Proceed(login.body.user)
  {
    login := s.Login(body, t0);
    var later := t0 + AccessLifetime;
    if login.status != 200 {
      expired, renewed, retried := Halt(login.status), login, Halt(login.status);
      return;
    }
    ghost var id :| id in old(s.users) && old(s.users)[id].email == body.email.s && Compare(body.password.s, old(s.users)[id].password);
    ghost var claim := ClaimOf(id, old(s.users)[id]);
    expired := AuthenticateJWT(BearerHeader(login.body.accessToken), later);
    AccessTokenLifetime(claim, t0, later);
    renewed := s.Refresh(Some(Signed(login.body.refreshToken)), later);
    AccessTokenLifetime(claim, later, later);
    retried := AuthenticateJWT(BearerHeader(renewed.body.accessToken), later);
  }

  /** An account registered through the API can never pass the admin check. */
  method RegisteredUserIsNoAdmin(s: Server, email: string, password: string, salt: nat, now: int, later: int)
    returns (loggedIn: Response, gate: Gate)
    requires s.Valid()
    requires email != "" && s.isEmail(email) && |password| >= 6
    requires !EmailTaken(s.users, email)
    requires now <= later < now + AccessLifetime
    modifies s
    ensures s.Valid()
    ensures gate == Halt(403)
  {
    var registered;
    registered, loggedIn := RegisterThenLogin(s, email, password, salt, now);
    AccessTokenLifetime(loggedIn.body.user, now, later);
    gate := AdminGate(BearerHeader(loggedIn.body.accessToken), later);
  }
}
