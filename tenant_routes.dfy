/** The tenant router: which middleware run, in which order, in front of each
    tenant route, and what reaches the client when a handler throws. Every
    `/:tenantId` route resolves the tenant first; the tenant's own record is
    read only by an authenticated member of that tenant and changed only by
    one of its admins. */
module TenantRoutes {
  import opened Common
  import opened Jwt
  import opened Persistence
  import opened Http
  import opened ErrorHandler
  import opened Collaborators
  import opened AuthMiddleware
  import opened TenantMiddleware
  import opened AuthController
  import opened TenantController

  /** What the client receives from a handler: its response, or the error
      handler's rendering of what it threw. */
  function Outcome(r: Result<Response, Error>): (resp: Response)
    ensures r.Success? ==> resp == r.value
    ensures r.Failure? ==> resp == HandleError(r.error)
  {
    match r
    case Success(resp) => resp
    case Failure(e) => HandleError(e)
  }

  /** The identity a request proves with its Authorization header. */
  function Caller(svc: Services, headers: Headers, now: int): Option<Payload>
  {
    Principal(svc, headers.authorization, now)
  }

  /** `req.params.tenantId` names a tenant that exists and is active. */
  predicate ActiveTarget(store: Store, param: Option<string>)
    reads store
  {
    Given(param) && param.value in store.tenants && store.tenants[param.value].isActive
  }

  /** `POST /`: public; the controller runs with no middleware in front, and
      the store changes exactly when a tenant is provisioned. */
  method CreateTenantRoute(store: Store, svc: Services, body: CreateTenantBody, tenantId: string, userId: string, now: int)
    returns (resp: Response)
    requires store.Valid()
    modifies store`tenants, store`subdomains, store`users
    ensures store.Valid()
    ensures resp.status == 201 <==> tenantId !in old(store.tenants) && tenantId in store.tenants
    ensures resp.status != 201 ==> store.tenants == old(store.tenants) && store.subdomains == old(store.subdomains)
                                   && store.users == old(store.users)
  {
    var r := CreateTenant(store, svc, body, tenantId, userId, now);
    resp := Outcome(r);
  }

  /** `router.use('/:tenantId', extractTenantContext)` followed by
      `authenticateJWT` and `checkTenantAccess`, run on one request: the
      tenant is resolved before the token is looked at, and the request goes
      on only when its principal belongs to the active tenant the path names. */
  method RunScope(req: Request, store: Store, svc: Services, now: int) returns (step: Step)
    requires store.Valid()
    requires req.user.None? && req.tenant.None?
    modifies req`user, req`tenant
    ensures !Given(req.tenantIdParam) ==> step == Reject(400, "Tenant ID required")
    ensures Given(req.tenantIdParam) && req.tenantIdParam.value !in store.tenants ==> step == Reject(404, "Tenant not found")
    ensures Given(req.tenantIdParam) && req.tenantIdParam.value in store.tenants
            && !store.tenants[req.tenantIdParam.value].isActive ==>
              step == Reject(403, "Tenant account is inactive")
    ensures ActiveTarget(store, req.tenantIdParam) && BearerToken(req.headers.authorization).None? ==>
              step == Reject(401, "No token provided")
    ensures ActiveTarget(store, req.tenantIdParam) && BearerToken(req.headers.authorization).Some?
            && Caller(svc, req.headers, now).None? ==>
              step == Reject(401, "Invalid or expired token")
    ensures ActiveTarget(store, req.tenantIdParam) && Caller(svc, req.headers, now).Some?
            && Caller(svc, req.headers, now).value.tenantId != req.tenantIdParam.value ==>
              step == Reject(403, "Access denied to this tenant")
    ensures step.Next? <==> ActiveTarget(store, req.tenantIdParam) && Caller(svc, req.headers, now).Some?
                            && Caller(svc, req.headers, now).value.tenantId == req.tenantIdParam.value
    ensures step.Next? ==> && req.user == Caller(svc, req.headers, now)
                           && req.tenant == Some(Summary(store.tenants[req.tenantIdParam.value]))
  {
    step := ExtractTenantContext(req, store);
    if step.Next? {
      step := AuthenticateJWT(req, svc, now);
      if step.Next? {
        step := CheckTenantAccess(req);
      }
    }
  }

  /** The chain in front of the tenant's own routes and of its catalogue and
      AI routes, on a fresh request: it goes on only for a caller whose tenant
      is the active tenant the path names, and then hands on that caller and
      that tenant. */
  method TenantScope(store: Store, svc: Services, headers: Headers, param: Option<string>, now: int)
    returns (step: Step, user: Option<Payload>, tenant: Option<TenantSummary>)
    requires store.Valid()
    ensures !Given(param) ==> step == Reject(400, "Tenant ID required")
    ensures Given(param) && param.value !in store.tenants ==> step == Reject(404, "Tenant not found")
    ensures Given(param) && param.value in store.tenants && !store.tenants[param.value].isActive ==>
              step == Reject(403, "Tenant account is inactive")
    ensures ActiveTarget(store, param) && BearerToken(headers.authorization).None? ==>
              step == Reject(401, "No token provided")
    ensures ActiveTarget(store, param) && BearerToken(headers.authorization).Some? && Caller(svc, headers, now).None? ==>
              step == Reject(401, "Invalid or expired token")
    ensures ActiveTarget(store, param) && Caller(svc, headers, now).Some?
            && Caller(svc, headers, now).value.tenantId != param.value ==>
              step == Reject(403, "Access denied to this tenant")
    ensures step.Next? <==> ActiveTarget(store, param) && Caller(svc, headers, now).Some?
                            && Caller(svc, headers, now).value.tenantId == param.value
    ensures step.Next? ==> && user == Caller(svc, headers, now)
                           && tenant == Some(Summary(store.tenants[param.value]))
                           && user.value.tenantId == tenant.value.id == param.value && tenant.value.isActive
  {
    var req := new Request(headers, param);
    step := RunScope(req, store, svc, now);
    user, tenant := req.user, req.tenant;
  }

  /** The chain in front of `PATCH /:tenantId`: the tenant chain, then
      `requireRole('admin')`. A member of the tenant who is not an admin gets
      403. */
  method AdminScope(store: Store, svc: Services, headers: Headers, param: Option<string>, now: int) returns (step: Step)
    requires store.Valid()
    ensures ActiveTarget(store, param) && Caller(svc, headers, now).Some?
            && Caller(svc, headers, now).value.tenantId != param.value ==>
              step == Reject(403, "Access denied to this tenant")
    ensures ActiveTarget(store, param) && Caller(svc, headers, now).Some?
            && Caller(svc, headers, now).value.tenantId == param.value
            && Caller(svc, headers, now).value.role != Admin ==>
              step == Reject(403, "Insufficient permissions")
    ensures step.Next? <==> ActiveTarget(store, param) && Caller(svc, headers, now).Some?
                            && Caller(svc, headers, now).value.tenantId == param.value
                            && Caller(svc, headers, now).value.role == Admin
    ensures step.Halt? ==> step.response.status != 200
  {
    var req := new Request(headers, param);
    step := RunScope(req, store, svc, now);
    if step.Next? {
      step := RequireRole([Admin], req);
    }
  }

  /** `GET /:tenantId`: the tenant's record reaches only an authenticated
      caller of that very tenant; everyone else gets the chain's refusal. */
  method GetTenantRoute(store: Store, svc: Services, headers: Headers, param: Option<string>, now: int)
    returns (resp: Response)
    requires store.Valid()
    ensures resp.status == 200 <==> ActiveTarget(store, param) && Caller(svc, headers, now).Some?
                                    && Caller(svc, headers, now).value.tenantId == param.value
    ensures resp.status == 200 ==> resp.body == TenantBody(store.tenants[param.value])
    ensures ActiveTarget(store, param) && Caller(svc, headers, now).Some?
            && Caller(svc, headers, now).value.tenantId != param.value ==>
              resp == Response(403, ErrorBody("Access denied to this tenant"))
    ensures Given(param) && param.value !in store.tenants ==> resp == Response(404, ErrorBody("Tenant not found"))
  {
    var step, user, tenant := TenantScope(store, svc, headers, param, now);
    if step.Halt? {
      return step.response;
    }
    resp := Outcome(GetTenant(store, param.value));
  }

  /** `PATCH /:tenantId`: the update runs only for an authenticated admin of
      the active tenant the path names; a staff member or customer of that
      tenant gets 403, and no refusal changes the store. */
  method PatchTenantRoute(store: Store, svc: Services, headers: Headers, param: Option<string>,
                          body: UpdateTenantBody, now: int)
    returns (resp: Response)
    requires store.Valid()
    modifies store`tenants
    ensures store.Valid()
    ensures old(ActiveTarget(store, param)) && Caller(svc, headers, now).Some?
            && Caller(svc, headers, now).value.tenantId == param.value
            && Caller(svc, headers, now).value.role != Admin ==>
              resp == Response(403, ErrorBody("Insufficient permissions"))
    ensures resp.status == 200 <==> && old(ActiveTarget(store, param)) && Caller(svc, headers, now).Some?
                                    && Caller(svc, headers, now).value.tenantId == param.value
                                    && Caller(svc, headers, now).value.role == Admin
                                    && ParseUpdate(body, svc.formats).Success?
    ensures resp.status == 200 ==>
              store.tenants == old(store.tenants)[param.value :=
                                 ApplyUpdate(old(store.tenants)[param.value], ParseUpdate(body, svc.formats).value)]
    ensures resp.status != 200 ==> store.tenants == old(store.tenants)
  {
    var step := AdminScope(store, svc, headers, param, now);
    if step.Halt? {
      return step.response;
    }
    var r := UpdateTenant(store, svc, param.value, body);
    resp := Outcome(r);
  }

  /** `router.use('/:tenantId/orders', checkTenantAccess, ...)`: no step of
      this chain sets `req.user`, so every request is refused; once the tenant
      resolves, the refusal is the 401 of a missing principal, whatever the
      Authorization header holds. */
  method OrdersChain(store: Store, headers: Headers, param: Option<string>) returns (step: Step)
    requires store.Valid()
    ensures step.Halt?
    ensures ActiveTarget(store, param) ==> step == Reject(401, "Authentication required")
  {
    var req := new Request(headers, param);
    step := ExtractTenantContext(req, store);
    if step.Next? {
      step := CheckTenantAccess(req);
    }
  }

  /** `POST /auth/register` is public and its body chooses the role, so anyone
      who knows an active tenant's id can register as an admin of it and, with
      the access token of that session, rewrite the tenant's branding through
      `PATCH /:tenantId`. */
  method SelfRegisteredAdminRebrands(store: Store, svc: Services, body: RegisterBody, userId: string,
                                     update: UpdateTenantBody, host: Option<string>, now: int)
    returns (resp: Response)
    requires store.Valid() && Lossless(svc.codec) && svc.jwt.expiresIn > 0
    requires ParseRegister(body, svc.formats).Success? && ParseRegister(body, svc.formats).value.role == Admin
    requires ActiveTarget(store, Some(ParseRegister(body, svc.formats).value.tenantId))
    requires UserKey(ParseRegister(body, svc.formats).value.tenantId, ParseRegister(body, svc.formats).value.email) !in store.users
    requires !store.UserIdTaken(userId)
    requires ParseUpdate(update, svc.formats).Success?
    modifies store`users, store`tenants
    ensures resp.status == 200
    ensures var t := ParseRegister(body, svc.formats).value.tenantId;
            store.tenants == old(store.tenants)[t := ApplyUpdate(old(store.tenants)[t], ParseUpdate(update, svc.formats).value)]
  {
    var v := ParseRegister(body, svc.formats).value;
    var r := Register(store, svc, body, userId, now);
    var token := r.value.body.token;
    var headers := Headers(Some(BearerPrefix + token), host);
    assert (BearerPrefix + token)[..|BearerPrefix|] == BearerPrefix;
    assert BearerToken(headers.authorization) == Some(token);
    assert Caller(svc, headers, now) == Some(PayloadOf(Registered(store, svc, v, userId)));
    resp := PatchTenantRoute(store, svc, headers, Some(v.tenantId), update, now);
  }

  /** The access token of a session for `p` authenticates, as a bearer
      header, exactly as `p` until it expires; with the guards above, a member
      of one tenant is therefore refused every route of another. */
  lemma SessionTokenAuthenticates(svc: Services, p: Payload, issued: int, now: int, host: Option<string>)
    requires Lossless(svc.codec)
    ensures var token := GenerateToken(svc.jwt, svc.codec, Fresh(p), issued).value;
      && (now < issued + svc.jwt.expiresIn ==> Caller(svc, Headers(Some(BearerPrefix + token), host), now) == Some(p))
      && (now >= issued + svc.jwt.expiresIn ==> Caller(svc, Headers(Some(BearerPrefix + token), host), now).None?)
  {
    var token := GenerateToken(svc.jwt, svc.codec, Fresh(p), issued).value;
    var header := BearerPrefix + token;
    assert header[..|BearerPrefix|] == BearerPrefix;
    assert BearerToken(Some(header)) == Some(token);
    AccessRoundTrip(svc.jwt, svc.codec, p, issued, now);
  }
}
