/**
 * The two middlewares of backend/server.js: `authenticateJWT`, which checks
 * the `Authorization` header before a protected handler runs, and
 * `authorizeAdmin`, which checks the authenticated role.
 */
module AuthGate {
  import opened Wrappers
  import opened Tokens

  /**
   * The `Authorization` header: absent, or the list of its fields as
   * `authHeader.split(' ')` produces them. The empty header "" splits to
   * the single empty field.
   */
  type Header = Option<seq<TokenText>>

  /** What a middleware does: call `next()` with the authenticated user, or end with a bare status. */
  datatype Gate = Proceed(user: Claim) | Halt(status: int)

  /** `!authHeader`: the header is absent or the empty string. */
  predicate HeaderMissing(header: Header) {
    header.None? || header.value == [Junk("")]
  }

  /** The second field of the header (`split(' ')[1]`) is an unexpired token signed with the access secret. */
  predicate BearerVerifies(header: Header, now: int) {
    && header.Some?
    && |header.value| > 1
    && header.value[1].Signed?
    && header.value[1].token.signedWith == AccessSecret
    && now < header.value[1].token.exp
  }

  /** `authenticateJWT` at clock time `now`. */
  function AuthenticateJWT(header: Header, now: int): (g: Gate)
    ensures g.Halt? ==> g.status == 401 || g.status == 403
    ensures g == Halt(401) <==> HeaderMissing(header)
    ensures g.Proceed? <==> !HeaderMissing(header) && BearerVerifies(header, now)
    ensures g.Proceed? ==> g.user == header.value[1].token.claim
  {
    if HeaderMissing(header) then Halt(401)
    else if |header.value| < 2 then Halt(403)
    else match Verify(header.value[1], AccessSecret, now)
      case None => Halt(403)
      case Some(claim) => Proceed(claim)
  }

  /** `authorizeAdmin`: plain equality of the role with "admin", no hierarchy. */
  function AuthorizeAdmin(user: Claim): (g: Gate)
    ensures g.Proceed? <==> user.role == "admin"
    ensures g.Proceed? ==> g.user == user
    ensures g.Halt? ==> g.status == 403
  {
    if user.role != "admin" then Halt(403) else Proceed(user)
  }

  /** `authenticateJWT` followed by `authorizeAdmin`, as the admin routes chain them. */
  function AdminGate(header: Header, now: int): (g: Gate)
    ensures g == Halt(401) <==> HeaderMissing(header)
    ensures g.Proceed? <==> BearerVerifies(header, now) && !HeaderMissing(header) && header.value[1].token.claim.role == "admin"
    ensures g.Proceed? ==> g == AuthenticateJWT(header, now)
    ensures g.Halt? ==> g.status == 401 || g.status == 403
  {
    match AuthenticateJWT(header, now)
    case Halt(status) => Halt(status)
    case Proceed(user) => AuthorizeAdmin(user)
  }

  /** The header a client sends with a token: `'Bearer ' + token`. */
  function BearerHeader(t: Token): Header {
    Some([Junk("Bearer"), Signed(t)])
  }

  /** A fresh access token opens the gate with its claim; once expired it is refused with 403, never 401. */
  lemma AccessTokenLifetime(claim: Claim, issuedAt: int, now: int)
    ensures AuthenticateJWT(BearerHeader(GenerateAccessToken(claim, issuedAt)), now)
            == if now < issuedAt + AccessLifetime then Proceed(claim) else Halt(403)
  {
  }

  /** A refresh token never passes the access check, whatever the time. */
  lemma RefreshTokenNeverAuthenticates(claim: Claim, issuedAt: int, now: int)
    ensures AuthenticateJWT(BearerHeader(GenerateRefreshToken(claim, issuedAt)), now) == Halt(403)
  {
  }
}
