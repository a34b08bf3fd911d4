/** The token service: JSON Web Tokens (RFC 7519) signed with one of two
    secrets, access tokens with the access secret and a short lifetime,
    refresh tokens with the refresh secret and a long one. A token is kept
    abstract: the claims it carries and the key its signature verifies under.
    Its compact text form is whatever the codec makes of it. */
module Jwt {
  import opened Common

  /** What the core puts into every token: exactly these four fields. */
  datatype Payload = Payload(sub: string, tenantId: string, email: string, role: Role)

  /** What `jwt.verify` hands back: the payload plus the registered claims
      `iat` and `exp` (section 4.1.4 of RFC 7519) that signing added. */
  datatype Claims = Claims(payload: Payload, iat: int, exp: int)

  /** A signed token: its claims and the secret it was signed with. */
  datatype Token = Token(claims: Claims, key: string)

  /** The compact serialisation of jsonwebtoken: `decode` answers `None` for
      text that is not a well-formed token. */
  datatype Codec = Codec(encode: Token -> string, decode: string -> Option<Token>)

  ghost predicate Lossless(codec: Codec)
  {
    forall t: Token :: codec.decode(codec.encode(t)) == Some(t)
  }

  /** The two secrets and two lifetimes (in seconds) of the configuration. */
  datatype Config = Config(secret: string, expiresIn: nat, refreshSecret: string, refreshExpiresIn: nat)

  /** The object handed to `jwt.sign`: a payload, and the `exp` claim when the
      object already carries one (an object that came out of `jwt.verify`). */
  datatype SignInput = SignInput(payload: Payload, exp: Option<int>)

  /** A fresh payload object, as the controllers build one. */
  function Fresh(p: Payload): SignInput
  {
    SignInput(p, None)
  }

  /** The object `jwt.verify` returned, handed back to `jwt.sign` as it is. */
  function Reused(c: Claims): SignInput
  {
    SignInput(c.payload, Some(c.exp))
  }

  const ExpConflict := "Bad \"options.expiresIn\" option the payload already has an \"exp\" property."

  /** `jwt.sign(input, key, { expiresIn: ttl })` at time `now` (seconds).
      jsonwebtoken refuses an object that already has `exp` when `expiresIn`
      is given; otherwise the token carries the payload, `iat = now` and
      `exp = now + ttl`, and is signed with `key`. */
  function Sign(codec: Codec, input: SignInput, key: string, ttl: nat, now: int): (r: Result<string, string>)
    ensures r.Success? <==> input.exp.None?
    ensures r.Failure? ==> r.error == ExpConflict
    ensures r.Success? && Lossless(codec) ==>
      codec.decode(r.value) == Some(Token(Claims(input.payload, now, now + ttl), key))
  {
    if input.exp.Some? then Failure(ExpConflict)
    else Success(codec.encode(Token(Claims(input.payload, now, now + ttl), key)))
  }

  /** `jwt.verify(token, key)` at time `now`: malformed text, a signature made
      with another key and an expired token (`now >= exp`) all fail. */
  function Verify(codec: Codec, token: string, key: string, now: int): (r: Option<Claims>)
    ensures r.Some? ==> codec.decode(token) == Some(Token(r.value, key)) && now < r.value.exp
    ensures (codec.decode(token).Some? && codec.decode(token).value.key == key
             && now < codec.decode(token).value.claims.exp) ==> r.Some?
  {
    match codec.decode(token)
    case None => None
    case Some(t) => if t.key == key && now < t.claims.exp then Some(t.claims) else None
  }

  /** `generateToken`: signed with the access secret, valid for `expiresIn`. */
  function GenerateToken(cfg: Config, codec: Codec, input: SignInput, now: int): (r: Result<string, string>)
    ensures r.Success? <==> input.exp.None?
    ensures r.Success? && Lossless(codec) ==>
      codec.decode(r.value) == Some(Token(Claims(input.payload, now, now + cfg.expiresIn), cfg.secret))
  {
    Sign(codec, input, cfg.secret, cfg.expiresIn, now)
  }

  /** `generateRefreshToken`: signed with the refresh secret, valid for
      `refreshExpiresIn`. */
  function GenerateRefreshToken(cfg: Config, codec: Codec, input: SignInput, now: int): (r: Result<string, string>)
    ensures r.Success? <==> input.exp.None?
    ensures r.Success? && Lossless(codec) ==>
      codec.decode(r.value) == Some(Token(Claims(input.payload, now, now + cfg.refreshExpiresIn), cfg.refreshSecret))
  {
    Sign(codec, input, cfg.refreshSecret, cfg.refreshExpiresIn, now)
  }

  const InvalidToken := "Invalid or expired token"
  const InvalidRefreshToken := "Invalid or expired refresh token"

  /** Verification of an access token; every failure is the same error. */
  function VerifyToken(cfg: Config, codec: Codec, token: string, now: int): (r: Result<Claims, string>)
    ensures r.Failure? ==> r.error == InvalidToken
    ensures r.Success? <==> Verify(codec, token, cfg.secret, now).Some?
    ensures r.Success? ==> codec.decode(token) == Some(Token(r.value, cfg.secret)) && now < r.value.exp
  {
    match Verify(codec, token, cfg.secret, now)
    case Some(c) => Success(c)
    case None => Failure(InvalidToken)
  }

  /** Verification of a refresh token; every failure is the same error. */
  function VerifyRefreshToken(cfg: Config, codec: Codec, token: string, now: int): (r: Result<Claims, string>)
    ensures r.Failure? ==> r.error == InvalidRefreshToken
    ensures r.Success? <==> Verify(codec, token, cfg.refreshSecret, now).Some?
    ensures r.Success? ==> codec.decode(token) == Some(Token(r.value, cfg.refreshSecret)) && now < r.value.exp
  {
    match Verify(codec, token, cfg.refreshSecret, now)
    case Some(c) => Success(c)
    case None => Failure(InvalidRefreshToken)
  }

  /** An access token made from a fresh payload verifies back to that payload
      at every moment before it expires, and fails from then on. */
  lemma AccessRoundTrip(cfg: Config, codec: Codec, p: Payload, issued: int, now: int)
    requires Lossless(codec)
    ensures GenerateToken(cfg, codec, Fresh(p), issued).Success?
    ensures var tok := GenerateToken(cfg, codec, Fresh(p), issued).value;
      VerifyToken(cfg, codec, tok, now) ==
        if now < issued + cfg.expiresIn then Success(Claims(p, issued, issued + cfg.expiresIn))
        else Failure(InvalidToken)
  {
  }

  /** The same for a refresh token and its own verifier. */
  lemma RefreshRoundTrip(cfg: Config, codec: Codec, p: Payload, issued: int, now: int)
    requires Lossless(codec)
    ensures GenerateRefreshToken(cfg, codec, Fresh(p), issued).Success?
    ensures var tok := GenerateRefreshToken(cfg, codec, Fresh(p), issued).value;
      VerifyRefreshToken(cfg, codec, tok, now) ==
        if now < issued + cfg.refreshExpiresIn then Success(Claims(p, issued, issued + cfg.refreshExpiresIn))
        else Failure(InvalidRefreshToken)
  {
  }

  /** With two distinct secrets neither kind of token passes the other kind's
      verification, at any time. */
  lemma KindsDoNotMix(cfg: Config, codec: Codec, p: Payload, issued: int, now: int)
    requires Lossless(codec)
    requires cfg.secret != cfg.refreshSecret
    ensures VerifyRefreshToken(cfg, codec, GenerateToken(cfg, codec, Fresh(p), issued).value, now)
              == Failure(InvalidRefreshToken)
    ensures VerifyToken(cfg, codec, GenerateRefreshToken(cfg, codec, Fresh(p), issued).value, now)
              == Failure(InvalidToken)
  {
  }
}
