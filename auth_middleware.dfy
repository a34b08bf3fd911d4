/** Authentication middleware: the request shape the core extends (an
    optional principal and an optional tenant), bearer-token authentication
    in a mandatory and an optional form, and the role guard. */
module AuthMiddleware {
  import opened Common
  import opened Strings
  import opened Jwt
  import opened Persistence
  import opened Http
  import opened Collaborators

  /** The request headers the core reads. */
  datatype Headers = Headers(authorization: Option<string>, host: Option<string>)

  /** An incoming request: its headers and `tenantId` path parameter are
      fixed, `user` and `tenant` are what the middleware attach to it. */
  class Request {
    const headers: Headers
    const tenantIdParam: Option<string>
    var user: Option<Payload>
    var tenant: Option<TenantSummary>

    constructor(headers: Headers, tenantIdParam: Option<string>)
      ensures this.headers == headers && this.tenantIdParam == tenantIdParam
      ensures user == None && tenant == None
    {
      this.headers := headers;
      this.tenantIdParam := tenantIdParam;
      user, tenant := None, None;
    }
  }

  const BearerPrefix := "Bearer "

  /** The token of an `Authorization: Bearer <token>` header: the header minus
      its first seven characters, present only when it starts with the prefix. */
  function BearerToken(header: Option<string>): (token: Option<string>)
    ensures token.Some? <==> header.Some? && StartsWith(header.value, BearerPrefix)
    ensures token.Some? ==> header.value == BearerPrefix + token.value
  {
    if header.Some? && StartsWith(header.value, BearerPrefix) then
      assert header.value == header.value[..7] + header.value[7..];
      Some(header.value[7..])
    else None
  }

  /** The principal an Authorization header proves at time `now`, if any. */
  function Principal(svc: Services, header: Option<string>, now: int): (p: Option<Payload>)
    ensures p.Some? <==> BearerToken(header).Some?
                         && VerifyToken(svc.jwt, svc.codec, BearerToken(header).value, now).Success?
    ensures p.Some? ==> p.value == VerifyToken(svc.jwt, svc.codec, BearerToken(header).value, now).value.payload
  {
    match BearerToken(header)
    case None => None
    case Some(token) =>
      match VerifyToken(svc.jwt, svc.codec, token, now)
      case Success(claims) => Some(claims.payload)
      case Failure(_) => None
  }

  /** A principal is only ever a payload some access token signed with the
      access secret carries, and that token has not expired. */
  lemma PrincipalIsSigned(svc: Services, header: Option<string>, now: int)
    requires Principal(svc, header, now).Some?
    ensures exists c: Claims :: c.payload == Principal(svc, header, now).value && now < c.exp
              && svc.codec.decode(BearerToken(header).value) == Some(Token(c, svc.jwt.secret))
  {
    var c := VerifyToken(svc.jwt, svc.codec, BearerToken(header).value, now).value;
    assert c.payload == Principal(svc, header, now).value;
  }

  /** `authenticateJWT`: no bearer header is a 401, a token that does not
      verify is a 401, and only a verified token sets `req.user`. */
  method AuthenticateJWT(req: Request, svc: Services, now: int) returns (step: Step)
    modifies req`user
    ensures BearerToken(req.headers.authorization).None? ==>
              step == Reject(401, "No token provided") && req.user == old(req.user)
    ensures BearerToken(req.headers.authorization).Some? && Principal(svc, req.headers.authorization, now).None? ==>
              step == Reject(401, "Invalid or expired token") && req.user == old(req.user)
    ensures Principal(svc, req.headers.authorization, now).Some? ==>
              step == Next && req.user == Principal(svc, req.headers.authorization, now)
  {
    var token := BearerToken(req.headers.authorization);
    if token.None? {
      return Reject(401, "No token provided");
    }
    var verified := VerifyToken(svc.jwt, svc.codec, token.value, now);
    if verified.Failure? {
      return Reject(401, "Invalid or expired token");
    }
    req.user := Some(verified.value.payload);
    step := Next;
  }

  /** `optionalAuth`: always goes on; sets `req.user` exactly when the header
      is a bearer token that verifies, and otherwise leaves it alone. */
  method OptionalAuth(req: Request, svc: Services, now: int) returns (step: Step)
    modifies req`user
    ensures step == Next
    ensures Principal(svc, req.headers.authorization, now).Some? ==>
              req.user == Principal(svc, req.headers.authorization, now)
    ensures Principal(svc, req.headers.authorization, now).None? ==> req.user == old(req.user)
  {
    var token := BearerToken(req.headers.authorization);
    if token.Some? {
      var verified := VerifyToken(svc.jwt, svc.codec, token.value, now);
      if verified.Success? {
        req.user := Some(verified.value.payload);
      }
    }
    step := Next;
  }

  /** `requireRole(...allowed)`: 401 without a principal, 403 when its role is
      not allowed, and otherwise on, with nothing changed. */
  method RequireRole(allowed: seq<Role>, req: Request) returns (step: Step)
    ensures req.user.None? ==> step == Reject(401, "Authentication required")
    ensures req.user.Some? && req.user.value.role !in allowed ==> step == Reject(403, "Insufficient permissions")
    ensures step == Next <==> req.user.Some? && req.user.value.role in allowed
  {
    if req.user.None? {
      return Reject(401, "Authentication required");
    }
    if req.user.value.role !in allowed {
      return Reject(403, "Insufficient permissions");
    }
    step := Next;
  }
}
