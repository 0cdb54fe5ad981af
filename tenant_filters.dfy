/** The two servlet filters that put the request's tenant into the per-thread tenant context:
    `JwtTenantResolver` (token claim, then header, then query parameters) and `TenantFilter`
    (header only). Both leave administrative paths on the master database. The downstream
    filter chain is represented by the context value it observes while it runs. */
module TenantFilters {
  import opened Common

  /** Path prefixes served from the master database only; both filters use the same list. */
  const MasterDbOnlyPatterns: seq<string> :=
    ["/api/tenants", "/api/tenant-users", "/api/subscriptions", "/api/audit-logs", "/api/auth",
     "/api/me", "/api/tenant/current", "/api/tenant/info", "/actuator"]

  /** Whether some pattern of `patterns` is a prefix of `path`, tried in order. */
  predicate StartsWithAny(path: string, patterns: seq<string>) {
    |patterns| > 0 && (patterns[0] <= path || StartsWithAny(path, patterns[1..]))
  }

  /** `isMasterDbOnlyEndpoint`: a raw prefix test; a missing or empty path is never master-only. */
  function IsMasterDbOnlyEndpoint(path: Option<string>): (r: bool)
    ensures r <==> path.Some? && path.value != "" && exists i :: 0 <= i < |MasterDbOnlyPatterns| && MasterDbOnlyPatterns[i] <= path.value
  {
    if path.None? || path.value == "" then false
    else
      StartsWithAnyIff(path.value, MasterDbOnlyPatterns);
      StartsWithAny(path.value, MasterDbOnlyPatterns)
  }

  /** A value that is present and not empty (Java `s != null && !s.isEmpty()`). */
  predicate NonEmpty(s: Option<string>) {
    s.Some? && s.value != ""
  }

  /** The tenant `JwtTenantResolver` picks: the token's `tenant_id` claim, else the `X-Tenant-ID`
      header, else the `tenant` parameter, else the `tenantId` parameter; empty counts as absent. */
  function JwtRequestTenant(claim: Option<string>, header: Option<string>, tenantParam: Option<string>,
                            tenantIdParam: Option<string>): (r: Option<string>)
    ensures r.Some? ==> r.value != ""
    ensures r.None? <==> !NonEmpty(claim) && !NonEmpty(header) && !NonEmpty(tenantParam) && !NonEmpty(tenantIdParam)
    ensures NonEmpty(claim) ==> r == claim
    ensures !NonEmpty(claim) && NonEmpty(header) ==> r == header
    ensures !NonEmpty(claim) && !NonEmpty(header) && NonEmpty(tenantParam) ==> r == tenantParam
    ensures !NonEmpty(claim) && !NonEmpty(header) && !NonEmpty(tenantParam) ==> r == (if NonEmpty(tenantIdParam) then tenantIdParam else None)
  {
    if NonEmpty(claim) then claim
    else if NonEmpty(header) then header
    else
      var param := if NonEmpty(tenantParam) then tenantParam else tenantIdParam;
      if NonEmpty(param) then param else None
  }

  /** The per-thread `TenantContext`. */
  class TenantContext {
    var tenantId: Option<string>

    constructor()
      ensures tenantId.None?
    {
      tenantId := None;
    }

    method Clear()
      modifies this
      ensures tenantId.None?
    {
      tenantId := None;
    }

    method SetTenantId(id: string)
      modifies this
      ensures tenantId == Some(id)
    {
      tenantId := Some(id);
    }
  }

  /** `JwtTenantResolver.doFilterInternal`. `seen` is the tenant the rest of the chain finds in
      the context. On a master-only path the context is cleared first; otherwise a chosen tenant
      is set, and with none chosen whatever an earlier filter left there stays. */
  method JwtTenantFilter(context: TenantContext, path: Option<string>, claim: Option<string>,
                         header: Option<string>, tenantParam: Option<string>, tenantIdParam: Option<string>)
    returns (seen: Option<string>)
    modifies context
    ensures IsMasterDbOnlyEndpoint(path) ==> seen.None?
    ensures !IsMasterDbOnlyEndpoint(path) ==>
              seen == (var t := JwtRequestTenant(claim, header, tenantParam, tenantIdParam);
                       if t.Some? then t else old(context.tenantId))
    ensures context.tenantId.None?
  {
    if IsMasterDbOnlyEndpoint(path) {
      context.Clear();
      seen := context.tenantId;
    } else {
      var tenantId := JwtRequestTenant(claim, header, tenantParam, tenantIdParam);
      if tenantId.Some? {
        context.SetTenantId(tenantId.value);
      }
      seen := context.tenantId;
    }
    context.Clear();
  }

  /** `TenantFilter.doFilterInternal`, with the header resolver of the tenant service: the
      `X-Tenant-ID` header, when not empty, becomes the context tenant for the chain. */
  method HeaderTenantFilter(context: TenantContext, path: Option<string>, header: Option<string>)
    returns (seen: Option<string>)
    modifies context
    ensures IsMasterDbOnlyEndpoint(path) ==> seen.None?
    ensures !IsMasterDbOnlyEndpoint(path) ==> seen == (if NonEmpty(header) then header else old(context.tenantId))
    ensures context.tenantId.None?
  {
    if IsMasterDbOnlyEndpoint(path) {
      context.Clear();
      seen := context.tenantId;
    } else {
      if NonEmpty(header) {
        context.SetTenantId(header.value);
      }
      seen := context.tenantId;
    }
    context.Clear();
  }

  // ----------------------------------------------------------------- lemmas

  lemma {:induction false} StartsWithAnyIff(path: string, patterns: seq<string>)
    ensures StartsWithAny(path, patterns) <==> exists i :: 0 <= i < |patterns| && patterns[i] <= path
  {
    if |patterns| > 0 {
      StartsWithAnyIff(path, patterns[1..]);
      if StartsWithAny(path, patterns[1..]) {
        var i :| 0 <= i < |patterns[1..]| && patterns[1..][i] <= path;
        assert patterns[i + 1] <= path;
      }
      if exists i :: 0 <= i < |patterns| && patterns[i] <= path {
        var i :| 0 <= i < |patterns| && patterns[i] <= path;
        if i > 0 {
          assert patterns[1..][i - 1] <= path;
        }
      }
    }
  }

  /** The match is on raw prefixes, so member paths that merely begin with `/api/me` are also
      routed to the master database, as are sub-paths of every listed prefix. */
  lemma PrefixMatchIsRaw()
    ensures IsMasterDbOnlyEndpoint(Some("/api/members"))
    ensures IsMasterDbOnlyEndpoint(Some("/api/tenants/123/users"))
    ensures IsMasterDbOnlyEndpoint(Some("/actuatorx"))
    ensures !IsMasterDbOnlyEndpoint(Some("/api/tasks"))
    ensures !IsMasterDbOnlyEndpoint(Some(""))
    ensures !IsMasterDbOnlyEndpoint(None)
  {
    assert MasterDbOnlyPatterns[5] == "/api/me";
    assert "/api/me" <= "/api/members";
    assert MasterDbOnlyPatterns[0] <= "/api/tenants/123/users";
    assert MasterDbOnlyPatterns[8] <= "/actuatorx";
    TasksAreTenantScoped();
  }

  /** `/api/tasks` starts with none of the master-only prefixes. */
  lemma TasksAreTenantScoped()
    ensures !IsMasterDbOnlyEndpoint(Some("/api/tasks"))
  {
    assert "/api/tasks"[5] == 't' && "/api/tasks"[6] == 'a' && "/api/tasks"[7] == 's';
  }

  /** Every path extending a master-only path is master-only too. */
  lemma MasterOnlyIsPrefixClosed(path: string, suffix: string)
    requires IsMasterDbOnlyEndpoint(Some(path))
    ensures IsMasterDbOnlyEndpoint(Some(path + suffix))
  {
    var i :| 0 <= i < |MasterDbOnlyPatterns| && MasterDbOnlyPatterns[i] <= path;
    assert MasterDbOnlyPatterns[i] <= path + suffix;
  }

  /** When both filters see the same request with no token claim or parameters, they hand the
      chain the same tenant. */
  lemma FiltersAgreeOnHeaderOnly(header: Option<string>)
    ensures JwtRequestTenant(None, header, None, None) == (if NonEmpty(header) then header else None)
  {
  }
}
