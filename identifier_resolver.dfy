/** `TenantIdentifierResolver`: turns an identifier from the front end, a tenant UUID or a slug,
    into the tenant's master record, remembering every successful lookup. */
module IdentifierResolver {
  import opened Common
  import opened Exceptions
  import opened MasterData

  const IdentifierRequiredMessage := "Tenant identifier is required"

  const NotFoundPrefix := "Tenant not found: "

  function NotFoundMessage(identifier: string): string { NotFoundPrefix + identifier }

  /** `findBySlug` on the master tenant table, whose slug column is unique. */
  function FindBySlug(tenants: map<string, Tenant>, slug: string): (r: Option<Tenant>)
    requires UniqueSlugs(tenants)
    ensures r.Some? <==> SlugTaken(tenants, slug)
    ensures r.Some? ==> r.value.slug == slug && r.value.tenantId in tenants && tenants[r.value.tenantId] == r.value
  {
    if SlugTaken(tenants, slug) then
      var id :| id in tenants && tenants[id].slug == slug;
      Some(tenants[id])
    else None
  }

  /** `queryTenantEntity`. `parseUuid` is `UUID.fromString`, giving the canonical id or failing.
      An id that parses but is unknown falls through to the slug lookup, since the not-found
      exception is caught together with the parse failure. */
  function QueryTenant(tenants: map<string, Tenant>, identifier: string, parseUuid: string -> Option<string>)
    : (r: Result<Tenant, ServiceException>)
    requires UniqueSlugs(tenants)
    ensures r.Ok? <==> !IsBlank(identifier)
                       && ((parseUuid(identifier).Some? && parseUuid(identifier).value in tenants) || SlugTaken(tenants, identifier))
    ensures r.Ok? ==> r.value.tenantId in tenants && tenants[r.value.tenantId] == r.value
                      && (r.value.slug == identifier || Some(r.value.tenantId) == parseUuid(identifier))
    ensures r.Err? ==> r.error == IllegalArgument(Some(if IsBlank(identifier) then IdentifierRequiredMessage else NotFoundMessage(identifier)))
  {
    if IsBlank(identifier) then Err(IllegalArgument(Some(IdentifierRequiredMessage)))
    else
      var id := parseUuid(identifier);
      if id.Some? && id.value in tenants then Ok(tenants[id.value])
      else
        var bySlug := FindBySlug(tenants, identifier);
        if bySlug.Some? then Ok(bySlug.value) else Err(IllegalArgument(Some(NotFoundMessage(identifier))))
  }

  /** Every cached entry is what a fresh lookup of its key would give. */
  ghost predicate CacheAgrees(cache: map<string, Tenant>, tenants: map<string, Tenant>, parseUuid: string -> Option<string>)
    requires UniqueSlugs(tenants)
  {
    forall key :: key in cache ==> QueryTenant(tenants, key, parseUuid) == Ok(cache[key])
  }

  class TenantIdentifierResolver {
    var cache: map<string, Tenant>

    constructor()
      ensures cache == map[]
    {
      cache := map[];
    }

    /** `resolveTenantEntity`: a cached entry is returned without a query; otherwise the lookup
        runs and only a success is cached, under the identifier as given. A null identifier
        fails in the cache lookup itself, before the null check of the query is reached. */
    method ResolveTenantEntity(tenants: map<string, Tenant>, identifier: Option<string>,
                               parseUuid: string -> Option<string>)
      returns (r: Result<Tenant, ServiceException>)
      requires UniqueSlugs(tenants)
      modifies this
      ensures identifier.None? ==> r == Err(Unexpected(None)) && cache == old(cache)
      ensures identifier.Some? && identifier.value in old(cache) ==> r == Ok(old(cache)[identifier.value]) && cache == old(cache)
      ensures identifier.Some? && identifier.value !in old(cache) ==>
                r == QueryTenant(tenants, identifier.value, parseUuid)
                && cache == (if r.Ok? then old(cache)[identifier.value := r.value] else old(cache))
      ensures CacheAgrees(old(cache), tenants, parseUuid) ==> CacheAgrees(cache, tenants, parseUuid)
    {
      if identifier.None? {
        return Err(Unexpected(None));
      }
      var key := identifier.value;
      if key in cache {
        return Ok(cache[key]);
      }
      r := QueryTenant(tenants, key, parseUuid);
      if r.Ok? {
        cache := cache[key := r.value];
      }
    }

    /** `resolveTenantIdentifier`: the resolved tenant's id. */
    method ResolveTenantIdentifier(tenants: map<string, Tenant>, identifier: Option<string>,
                                   parseUuid: string -> Option<string>)
      returns (r: Result<string, ServiceException>)
      requires UniqueSlugs(tenants)
      modifies this
      ensures identifier.None? ==> r == Err(Unexpected(None)) && cache == old(cache)
      ensures identifier.Some? && identifier.value in old(cache) ==>
                r == Ok(old(cache)[identifier.value].tenantId) && cache == old(cache)
      ensures identifier.Some? && identifier.value !in old(cache) ==>
                var q := QueryTenant(tenants, identifier.value, parseUuid);
                r == (if q.Ok? then Ok(q.value.tenantId) else Err(q.error))
                && cache == (if q.Ok? then old(cache)[identifier.value := q.value] else old(cache))
      ensures CacheAgrees(old(cache), tenants, parseUuid) && identifier.Some? ==>
                r == (var q := QueryTenant(tenants, identifier.value, parseUuid);
                      if q.Ok? then Ok(q.value.tenantId) else Err(q.error))
      ensures CacheAgrees(old(cache), tenants, parseUuid) ==> CacheAgrees(cache, tenants, parseUuid)
    {
      var entity := ResolveTenantEntity(tenants, identifier, parseUuid);
      if entity.Err? {
        return Err(entity.error);
      }
      return Ok(entity.value.tenantId);
    }
  }

  // ----------------------------------------------------------------- lemmas

  /** While the tenant table does not change, the cache is invisible: a resolution gives what a
      fresh query gives, whether or not the identifier was cached. */
  lemma CachedResolutionIsFresh(cache: map<string, Tenant>, tenants: map<string, Tenant>, identifier: string,
                                parseUuid: string -> Option<string>)
    requires UniqueSlugs(tenants) && CacheAgrees(cache, tenants, parseUuid)
    requires identifier in cache
    ensures QueryTenant(tenants, identifier, parseUuid) == Ok(cache[identifier])
  {
  }

  /** A slug and the tenant's own id resolve to the same tenant. */
  lemma SlugAndIdAgree(tenants: map<string, Tenant>, id: string, parseUuid: string -> Option<string>)
    requires UniqueSlugs(tenants) && id in tenants && !IsBlank(tenants[id].slug) && !IsBlank(id)
    requires parseUuid(id) == Some(id)
    requires parseUuid(tenants[id].slug).None?
    ensures QueryTenant(tenants, id, parseUuid) == Ok(tenants[id])
    ensures QueryTenant(tenants, tenants[id].slug, parseUuid) == Ok(tenants[id])
  {
    assert tenants[id].tenantId == id;
  }

  /** An identifier that parses as an id but names no tenant is still found by slug. */
  lemma UnknownIdFallsBackToSlug(tenants: map<string, Tenant>, identifier: string, parseUuid: string -> Option<string>)
    requires UniqueSlugs(tenants) && !IsBlank(identifier)
    requires parseUuid(identifier).Some? && parseUuid(identifier).value !in tenants
    requires SlugTaken(tenants, identifier)
    ensures QueryTenant(tenants, identifier, parseUuid).Ok?
    ensures QueryTenant(tenants, identifier, parseUuid).value.slug == identifier
  {
  }
}
