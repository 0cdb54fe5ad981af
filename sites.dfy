/** `SiteService`: creating, listing and looking up the sites of the context tenant. */
module Sites {
  import opened Common
  import opened Exceptions
  import opened RbacTables

  datatype CreateSiteRequest = CreateSiteRequest(siteName: string, siteCode: string, address: Option<string>,
                                                 city: Option<string>, state: Option<string>, country: Option<string>,
                                                 postalCode: Option<string>, phone: Option<string>, email: Option<string>,
                                                 headquarters: Option<bool>)

  const SiteCodeExistsPrefix := "Site code already exists: "

  function SiteCodeExistsMessage(code: string): string { SiteCodeExistsPrefix + code }

  const SiteNotFoundPrefix := "Site not found: "

  function SiteNotFoundMessage(siteId: string): string { SiteNotFoundPrefix + siteId }

  predicate SiteCodeTaken(sites: map<string, Site>, tenantId: string, code: string) {
    exists id :: id in sites && sites[id].tenantId == tenantId && sites[id].siteCode == code
  }

  /** The new site row: headquarters only when asked for explicitly, always active. */
  function NewSite(siteId: string, tenantId: string, request: CreateSiteRequest): Site {
    Site(siteId, tenantId, request.siteName, request.siteCode, request.address, request.city, request.state,
         request.country, request.postalCode, request.phone, request.email, request.headquarters == Some(true),
         Some(true), false)
  }

  /** `getTenantSiteOrThrow`: the site with that id, if it belongs to the tenant. */
  function TenantSite(sites: map<string, Site>, tenantId: string, siteId: string): (r: Result<Site, ServiceException>)
    requires SiteCodesUnique(sites)
    ensures r.Ok? <==> siteId in sites && sites[siteId].tenantId == tenantId
    ensures r.Ok? ==> r.value.siteId == siteId && r.value.tenantId == tenantId
    ensures r.Err? ==> r.error == IllegalArgument(Some(SiteNotFoundMessage(siteId)))
  {
    if siteId in sites && sites[siteId].tenantId == tenantId then Ok(sites[siteId])
    else Err(IllegalArgument(Some(SiteNotFoundMessage(siteId))))
  }

  /** `listSites`: the tenant's sites that are not deleted. */
  function ListSites(sites: map<string, Site>, context: Option<string>): (r: Result<set<Site>, ServiceException>)
    ensures r.Err? <==> RequireTenantId(context).Err?
    ensures r.Ok? ==> forall s :: s in r.value <==> s in sites.Values && s.tenantId == context.value && !s.deleted
  {
    var tenant := RequireTenantId(context);
    if tenant.Err? then Err(tenant.error)
    else Ok(set id | id in sites && sites[id].tenantId == tenant.value && !sites[id].deleted :: sites[id])
  }

  /** `createSite`: rejects a code the tenant already uses, then stores the new site. */
  method CreateSite(db: TenantTables, context: Option<string>, request: CreateSiteRequest, newSiteId: string)
    returns (r: Result<Site, ServiceException>)
    requires db.Valid() && newSiteId !in db.sites
    modifies db
    ensures db.Valid()
    ensures RequireTenantId(context).Err? ==> r == Err(RequireTenantId(context).error) && db.sites == old(db.sites)
    ensures RequireTenantId(context).Ok? && SiteCodeTaken(old(db.sites), context.value, request.siteCode) ==>
              r == Err(IllegalArgument(Some(SiteCodeExistsMessage(request.siteCode)))) && db.sites == old(db.sites)
    ensures r.Ok? <==> RequireTenantId(context).Ok? && !SiteCodeTaken(old(db.sites), context.value, request.siteCode)
    ensures r.Ok? ==> r.value == NewSite(newSiteId, context.value, request) && db.sites == old(db.sites)[newSiteId := r.value]
    ensures db.users == old(db.users) && db.roles == old(db.roles) && db.permissions == old(db.permissions)
    ensures db.rolePermissions == old(db.rolePermissions) && db.userRoles == old(db.userRoles) && db.siteAccess == old(db.siteAccess)
  {
    var tenant := RequireTenantId(context);
    if tenant.Err? {
      return Err(tenant.error);
    }
    if exists id :: id in db.sites && db.sites[id].tenantId == tenant.value && db.sites[id].siteCode == request.siteCode {
      return Err(IllegalArgument(Some(SiteCodeExistsMessage(request.siteCode))));
    }
    var site := NewSite(newSiteId, tenant.value, request);
    db.sites := db.sites[newSiteId := site];
    return Ok(site);
  }

  // ----------------------------------------------------------------- lemmas

  /** A created site is listed for its tenant and found by id, and it is active. */
  lemma CreatedSiteIsListed(sites: map<string, Site>, tenantId: string, request: CreateSiteRequest, newSiteId: string)
    requires SiteCodesUnique(sites) && newSiteId !in sites && !SiteCodeTaken(sites, tenantId, request.siteCode)
    requires !IsBlank(tenantId)
    ensures var after := sites[newSiteId := NewSite(newSiteId, tenantId, request)];
            && SiteCodesUnique(after)
            && ListSites(after, Some(tenantId)).Ok? && NewSite(newSiteId, tenantId, request) in ListSites(after, Some(tenantId)).value
            && TenantSite(after, tenantId, newSiteId) == Ok(NewSite(newSiteId, tenantId, request))
            && NewSite(newSiteId, tenantId, request).active == Some(true)
  {
    var after := sites[newSiteId := NewSite(newSiteId, tenantId, request)];
    assert after[newSiteId] == NewSite(newSiteId, tenantId, request);
  }

  /** Another tenant's site is never found, whatever its id. */
  lemma OtherTenantsSiteNotFound(sites: map<string, Site>, tenantId: string, siteId: string)
    requires SiteCodesUnique(sites) && siteId in sites && sites[siteId].tenantId != tenantId
    ensures TenantSite(sites, tenantId, siteId).Err?
  {
  }
}
