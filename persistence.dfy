/** The persistence collaborator: tenants keyed by id with a unique index on
    the subdomain, users keyed by the pair (tenant id, email), and the
    operations the controllers and middleware perform on them. Ids are the
    database's; the caller supplies them, and a clash is a failed insert. */
module Persistence {
  import opened Common

  datatype Tenant = Tenant(
    id: string,
    name: string,
    subdomain: string,
    logoUrl: Option<string>,
    accentColor: string,
    theme: Theme,
    plan: string,
    customDomain: Option<string>,
    isActive: bool)

  /** The four columns the tenant middleware selects and attaches to a request. */
  datatype TenantSummary = TenantSummary(id: string, name: string, subdomain: string, isActive: bool)

  function Summary(t: Tenant): TenantSummary
  {
    TenantSummary(t.id, t.name, t.subdomain, t.isActive)
  }

  datatype User = User(
    id: string,
    tenantId: string,
    email: string,
    name: string,
    hashedPassword: string,
    role: Role,
    isActive: bool,
    lastLogin: Option<int>)

  /** The true uniqueness key of a user: an email is unique only within a tenant. */
  datatype UserKey = UserKey(tenantId: string, email: string)

  function KeyOf(u: User): UserKey
  {
    UserKey(u.tenantId, u.email)
  }

  /** Column defaults the database fills in on insert. */
  datatype ColumnDefaults = ColumnDefaults(theme: Theme, plan: string, tenantActive: bool, userActive: bool)

  /** The optional branding fields of a tenant update; an absent field is not written. */
  datatype TenantUpdate = TenantUpdate(
    name: Option<string>,
    logoUrl: Option<string>,
    accentColor: Option<string>,
    theme: Option<Theme>,
    customDomain: Option<string>)

  function Pick<T>(given: Option<T>, current: T): T
  {
    if given.Some? then given.value else current
  }

  /** The record an update writes: every field the update carries replaces the
      stored one, every other field (id, subdomain, plan, isActive among them)
      is kept. */
  function ApplyUpdate(t: Tenant, u: TenantUpdate): (r: Tenant)
    ensures r.id == t.id && r.subdomain == t.subdomain && r.plan == t.plan && r.isActive == t.isActive
    ensures u.name.Some? ==> r.name == u.name.value
    ensures u.name.None? ==> r.name == t.name
    ensures u.logoUrl.Some? ==> r.logoUrl == u.logoUrl
    ensures u.logoUrl.None? ==> r.logoUrl == t.logoUrl
    ensures u.accentColor.Some? ==> r.accentColor == u.accentColor.value
    ensures u.accentColor.None? ==> r.accentColor == t.accentColor
    ensures u.theme.Some? ==> r.theme == u.theme.value
    ensures u.theme.None? ==> r.theme == t.theme
    ensures u.customDomain.Some? ==> r.customDomain == u.customDomain
    ensures u.customDomain.None? ==> r.customDomain == t.customDomain
  {
    t.(name := Pick(u.name, t.name),
       logoUrl := if u.logoUrl.Some? then u.logoUrl else t.logoUrl,
       accentColor := Pick(u.accentColor, t.accentColor),
       theme := Pick(u.theme, t.theme),
       customDomain := if u.customDomain.Some? then u.customDomain else t.customDomain)
  }

  /** An update that carries no field leaves the record as it was. */
  lemma EmptyUpdateKeeps(t: Tenant)
    ensures ApplyUpdate(t, TenantUpdate(None, None, None, None, None)) == t
  {
  }

  class Store {
    var tenants: map<string, Tenant>
    var subdomains: map<string, string>
    var users: map<UserKey, User>
    const defaults: ColumnDefaults

    /** Records are stored under their own keys, the subdomain index is exact
        (so subdomains are unique), every user belongs to a stored tenant, and
        user ids are unique. */
    ghost predicate Valid()
      reads this
    {
      && (forall id :: id in tenants ==>
            tenants[id].id == id && tenants[id].subdomain in subdomains
            && subdomains[tenants[id].subdomain] == id)
      && (forall s :: s in subdomains ==>
            subdomains[s] in tenants && tenants[subdomains[s]].subdomain == s)
      && (forall k :: k in users ==> KeyOf(users[k]) == k && k.tenantId in tenants)
      && (forall k1, k2 :: k1 in users && k2 in users && users[k1].id == users[k2].id ==> k1 == k2)
    }

    constructor(defaults: ColumnDefaults)
      ensures Valid()
      ensures tenants == map[] && subdomains == map[] && users == map[]
      ensures this.defaults == defaults
    {
      tenants, subdomains, users := map[], map[], map[];
      this.defaults := defaults;
    }

    /** `findUnique({ where: { id } })`: the stored tenant with that id, if any. */
    function TenantById(id: string): (r: Option<Tenant>)
      reads this
      ensures r.Some? <==> id in tenants
      ensures r.Some? ==> r.value == tenants[id]
      ensures r.Some? && Valid() ==> r.value.id == id
    {
      if id in tenants then Some(tenants[id]) else None
    }

    /** `findUnique({ where: { subdomain } })` through the unique index. */
    function TenantBySubdomain(subdomain: string): (r: Option<Tenant>)
      requires Valid()
      reads this
      ensures r.Some? ==> r.value.subdomain == subdomain && r.value.id in tenants && tenants[r.value.id] == r.value
      ensures r.None? ==> forall id :: id in tenants ==> tenants[id].subdomain != subdomain
    {
      if subdomain in subdomains then Some(tenants[subdomains[subdomain]]) else None
    }

    /** `findUnique({ where: { tenantId_email } })`: the stored user with that
        (tenant, email) pair, if any. */
    function UserByKey(k: UserKey): (r: Option<User>)
      reads this
      ensures r.Some? <==> k in users
      ensures r.Some? ==> r.value == users[k]
      ensures r.Some? && Valid() ==> KeyOf(r.value) == k
    {
      if k in users then Some(users[k]) else None
    }

    predicate UserIdTaken(id: string)
      reads this
    {
      exists k | k in users :: users[k].id == id
    }

    /** `user.create`: fails, changing nothing, on a taken (tenant, email) pair,
        a taken id or a tenant that does not exist. */
    method CreateUser(u: User) returns (ok: bool)
      requires Valid()
      modifies this`users
      ensures Valid()
      ensures ok <==> u.tenantId in tenants && KeyOf(u) !in old(users) && !old(UserIdTaken(u.id))
      ensures users == if ok then old(users)[KeyOf(u) := u] else old(users)
    {
      ok := u.tenantId in tenants && KeyOf(u) !in users && !UserIdTaken(u.id);
      if ok {
        users := users[KeyOf(u) := u];
      }
    }

    /** `user.update({ data: { lastLogin } })` on a user that exists. */
    method TouchLastLogin(k: UserKey, at: int)
      requires Valid() && k in users
      modifies this`users
      ensures Valid()
      ensures users == old(users)[k := old(users)[k].(lastLogin := Some(at))]
    {
      users := users[k := users[k].(lastLogin := Some(at))];
    }

    /** `tenant.update({ where: { id }, data })`: fails on an unknown id. */
    method UpdateTenant(id: string, u: TenantUpdate) returns (r: Option<Tenant>)
      requires Valid()
      modifies this`tenants
      ensures Valid()
      ensures r.Some? <==> id in old(tenants)
      ensures r.Some? ==> r.value == ApplyUpdate(old(tenants)[id], u) && tenants == old(tenants)[id := r.value]
      ensures r.None? ==> tenants == old(tenants)
    {
      if id in tenants {
        var t := ApplyUpdate(tenants[id], u);
        tenants := tenants[id := t];
        r := Some(t);
      } else {
        r := None;
      }
    }

    /** The `$transaction` of tenant provisioning: the tenant and its first user
        are inserted together, or, when either insert would fail, neither is. */
    method CreateTenantWithAdmin(t: Tenant, admin: User) returns (ok: bool)
      requires Valid()
      modifies this`tenants, this`subdomains, this`users
      ensures Valid()
      ensures ok <==> && t.id !in old(tenants) && t.subdomain !in old(subdomains)
                      && (admin.tenantId == t.id || admin.tenantId in old(tenants))
                      && KeyOf(admin) !in old(users) && !old(UserIdTaken(admin.id))
      ensures ok ==> && tenants == old(tenants)[t.id := t]
                     && subdomains == old(subdomains)[t.subdomain := t.id]
                     && users == old(users)[KeyOf(admin) := admin]
      ensures !ok ==> tenants == old(tenants) && subdomains == old(subdomains) && users == old(users)
    {
      ok := && t.id !in tenants && t.subdomain !in subdomains
            && (admin.tenantId == t.id || admin.tenantId in tenants)
            && KeyOf(admin) !in users && !UserIdTaken(admin.id);
      if ok {
        tenants := tenants[t.id := t];
        subdomains := subdomains[t.subdomain := t.id];
        users := users[KeyOf(admin) := admin];
      }
    }
  }
}
