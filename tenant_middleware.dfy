/** Tenant middleware: resolving the tenant of a request from its `tenantId`
    path parameter or from the leftmost label of its host, and the
    cross-tenant check every tenant-scoped route runs. */
module TenantMiddleware {
  import opened Common
  import opened Strings
  import opened Persistence
  import opened Http
  import opened AuthMiddleware

  /** A JavaScript-truthy string: present and not empty. */
  predicate Given(v: Option<string>)
  {
    v.Some? && v.value != ""
  }

  /** `extractTenantContext`: a missing id is a 400 decided before any lookup,
      an unknown tenant a 404 and an inactive one a 403; otherwise the
      tenant's summary is attached and the request goes on. */
  method ExtractTenantContext(req: Request, store: Store) returns (step: Step)
    requires store.Valid()
    modifies req`tenant
    ensures !Given(req.tenantIdParam) ==> step == Reject(400, "Tenant ID required")
    ensures Given(req.tenantIdParam) && req.tenantIdParam.value !in store.tenants ==>
              step == Reject(404, "Tenant not found")
    ensures Given(req.tenantIdParam) && req.tenantIdParam.value in store.tenants
            && !store.tenants[req.tenantIdParam.value].isActive ==>
              step == Reject(403, "Tenant account is inactive")
    ensures step.Next? <==> Given(req.tenantIdParam) && req.tenantIdParam.value in store.tenants
                            && store.tenants[req.tenantIdParam.value].isActive
    ensures step.Next? ==> req.tenant == Some(Summary(store.tenants[req.tenantIdParam.value]))
                           && req.tenant.value.id == req.tenantIdParam.value && req.tenant.value.isActive
    ensures step.Halt? ==> req.tenant == old(req.tenant)
  {
    if !Given(req.tenantIdParam) {
      return Reject(400, "Tenant ID required");
    }
    var id := req.tenantIdParam.value;
    var found := store.TenantById(id);
    if found.None? {
      return Reject(404, "Tenant not found");
    }
    if !found.value.isActive {
      return Reject(403, "Tenant account is inactive");
    }
    req.tenant := Some(Summary(found.value));
    step := Next;
  }

  /** `checkTenantAccess`: 401 without a principal, then 400 without a tenant,
      then 403 when the principal belongs to another tenant. It goes on only
      when the principal's tenant is the request's tenant, and changes nothing. */
  method CheckTenantAccess(req: Request) returns (step: Step)
    ensures req.user.None? ==> step == Reject(401, "Authentication required")
    ensures req.user.Some? && req.tenant.None? ==> step == Reject(400, "Tenant context not set")
    ensures req.user.Some? && req.tenant.Some? && req.user.value.tenantId != req.tenant.value.id ==>
              step == Reject(403, "Access denied to this tenant")
    ensures step.Next? <==> req.user.Some? && req.tenant.Some? && req.user.value.tenantId == req.tenant.value.id
  {
    if req.user.None? {
      return Reject(401, "Authentication required");
    }
    if req.tenant.None? {
      return Reject(400, "Tenant context not set");
    }
    if req.user.value.tenantId != req.tenant.value.id {
      return Reject(403, "Access denied to this tenant");
    }
    step := Next;
  }

  /** `host.split('.')[0]`: the text of the host before its first '.'. */
  function SubdomainOf(host: string): (sub: string)
    ensures '.' !in sub && StartsWith(host, sub)
    ensures |sub| == |host| || host[|sub|] == '.'
  {
    SplitHead(host, '.');
    Split(host, '.')[0]
  }

  /** Labels that never trigger a lookup: the empty one, "www" and "api". */
  predicate Reserved(sub: string)
  {
    sub == "" || sub == "www" || sub == "api"
  }

  /** `extractTenantFromSubdomain`: never stops the request. It attaches a
      tenant only when the host is given, its leftmost label is not reserved,
      and that label names an active tenant; otherwise nothing changes. */
  method ExtractTenantFromSubdomain(req: Request, store: Store) returns (step: Step)
    requires store.Valid()
    modifies req`tenant
    ensures step == Next
    ensures !Given(req.headers.host) ==> req.tenant == old(req.tenant)
    ensures Given(req.headers.host) && Reserved(SubdomainOf(req.headers.host.value)) ==> req.tenant == old(req.tenant)
    ensures req.tenant != old(req.tenant) ==>
              && Given(req.headers.host)
              && var found := store.TenantBySubdomain(SubdomainOf(req.headers.host.value));
              && !Reserved(SubdomainOf(req.headers.host.value))
              && found.Some? && found.value.isActive && req.tenant == Some(Summary(found.value))
    ensures Given(req.headers.host) && !Reserved(SubdomainOf(req.headers.host.value)) ==>
              var found := store.TenantBySubdomain(SubdomainOf(req.headers.host.value));
              found.Some? && found.value.isActive ==> req.tenant == Some(Summary(found.value))
  {
    if !Given(req.headers.host) {
      return Next;
    }
    var sub := SubdomainOf(req.headers.host.value);
    if !Reserved(sub) {
      var found := store.TenantBySubdomain(sub);
      if found.Some? && found.value.isActive {
        req.tenant := Some(Summary(found.value));
      }
    }
    step := Next;
  }
}
