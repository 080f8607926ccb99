/**
 * Access and refresh tokens of the backend (backend/server.js, the two
 * token builders and the jsonwebtoken checks). Signing is modelled by
 * content: a token this server signed is the secret it was signed with,
 * its payload and its `exp` time in seconds. Anything else a client can
 * present (an altered token, one signed with a foreign key, free text)
 * is `Junk`.
 */
module Tokens {
  import opened Wrappers

  /** The server's two signing secrets, ACCESS_TOKEN_SECRET and REFRESH_TOKEN_SECRET. */
  datatype Secret = AccessSecret | RefreshSecret

  /** The identity payload `{ id, email, role }` embedded in both kinds of token. */
  datatype Claim = Claim(id: nat, email: string, role: string)

  /** A JWT signed by this server. */
  datatype Token = Token(signedWith: Secret, claim: Claim, exp: int)

  /** What a client presents where a token is expected. */
  datatype TokenText = Signed(token: Token) | Junk(text: string)

  /** `expiresIn: '15m'`, in seconds. */
  const AccessLifetime: int := 15 * 60

  /** `expiresIn: '7d'`, in seconds. */
  const RefreshLifetime: int := 7 * 24 * 60 * 60

  /**
   * `jwt.verify(text, secret)` at clock time `now`: the payload when the
   * signature checks under `secret` and the token has not expired
   * (jsonwebtoken refuses a token once `now >= exp`), nothing otherwise.
   */
  function Verify(text: TokenText, secret: Secret, now: int): Option<Claim> {
    match text
    case Junk(_) => None
    case Signed(t) => if t.signedWith == secret && now < t.exp then Some(t.claim) else None
  }

  /** `generateAccessToken(user)` issued at time `now`. */
  function GenerateAccessToken(claim: Claim, now: int): (t: Token)
    ensures forall at :: Verify(Signed(t), AccessSecret, at) == if at < now + AccessLifetime then Some(claim) else None
    ensures forall at :: Verify(Signed(t), RefreshSecret, at) == None
  {
    Token(AccessSecret, claim, now + AccessLifetime)
  }

  /** `generateRefreshToken(user)` issued at time `now`. */
  function GenerateRefreshToken(claim: Claim, now: int): (t: Token)
    ensures forall at :: Verify(Signed(t), RefreshSecret, at) == if at < now + RefreshLifetime then Some(claim) else None
    ensures forall at :: Verify(Signed(t), AccessSecret, at) == None
  {
    Token(RefreshSecret, claim, now + RefreshLifetime)
  }

  /** Tokens minted at different times differ, even for the same claim. */
  lemma RefreshTokensOfDifferentTimesDiffer(c: Claim, t1: int, t2: int)
    ensures GenerateRefreshToken(c, t1) == GenerateRefreshToken(c, t2) <==> t1 == t2
  {
  }
}
