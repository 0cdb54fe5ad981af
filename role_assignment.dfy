/** `RoleAssignmentService`: assigning roles and granting site access to a user of the context
    tenant, and collecting the permission keys a user holds, globally or at one site. */
module RoleAssignment {
  import opened Common
  import opened Exceptions
  import opened RbacTables
  import opened Roles
  import opened Sites
  import opened StringOrder

  const ForeignUserMessage := "User does not belong to current tenant"
  const InactiveSiteMessage := "Site is not active"

  datatype AssignRoleRequest = AssignRoleRequest(userId: string, roleKey: string, siteId: Option<string>, expiresAt: Option<int>)

  datatype GrantSiteAccessRequest = GrantSiteAccessRequest(userId: string, siteId: string, accessLevel: string, expiresAt: Option<int>)

  datatype UserPermissions = UserPermissions(userId: string, siteId: Option<string>, permissionKeys: seq<string>)

  const UserNotFoundPrefix := "User not found: "

  function UserNotFoundMessage(userId: string): string { UserNotFoundPrefix + userId }

  /** The user lookup every operation starts with: the user must exist and belong to the tenant. */
  function TenantUser(users: map<string, User>, tenantId: string, userId: string): (r: Option<ServiceException>)
    ensures r.None? <==> userId in users && users[userId].tenantId == tenantId
  {
    if userId !in users then Some(IllegalArgument(Some(UserNotFoundMessage(userId))))
    else if users[userId].tenantId != tenantId then Some(IllegalArgument(Some(ForeignUserMessage)))
    else None
  }

  /** `Boolean.FALSE.equals(site.getActive())`: only an explicit false makes a site inactive. */
  predicate Inactive(site: Site) {
    site.active == Some(false)
  }

  /** The checks of `assignRole`, in order, giving the key of the assignment to upsert. */
  function AssignmentFor(db_users: map<string, User>, roles: map<string, Role>, sites: map<string, Site>,
                         context: Option<string>, request: AssignRoleRequest): (r: Result<AssignmentKey, ServiceException>)
    requires RoleKeysUnique(roles) && SiteCodesUnique(sites)
    ensures r.Ok? <==> RequireTenantId(context).Ok? && TenantUser(db_users, context.value, request.userId).None?
                       && RoleByKey(roles, context.value, request.roleKey).Ok?
                       && (request.siteId.Some? ==>
                             TenantSite(sites, context.value, request.siteId.value).Ok? && !Inactive(sites[request.siteId.value]))
    ensures r.Ok? ==> r.value == AssignmentKey(context.value, request.userId,
                                                RoleByKey(roles, context.value, request.roleKey).value.roleId, request.siteId)
  {
    var tenant := RequireTenantId(context);
    if tenant.Err? then Err(tenant.error)
    else
      var userFailure := TenantUser(db_users, tenant.value, request.userId);
      if userFailure.Some? then Err(userFailure.value)
      else
        var role := RoleByKey(roles, tenant.value, request.roleKey);
        if role.Err? then Err(role.error)
        else if request.siteId.None? then Ok(AssignmentKey(tenant.value, request.userId, role.value.roleId, None))
        else
          var site := TenantSite(sites, tenant.value, request.siteId.value);
          if site.Err? then Err(site.error)
          else if Inactive(site.value) then Err(IllegalArgument(Some(InactiveSiteMessage)))
          else Ok(AssignmentKey(tenant.value, request.userId, role.value.roleId, request.siteId))
  }

  /** `assignRole`: after the checks, the assignment for (tenant, user, role, site) is created
      or overwritten, active and with the requested expiry. */
  method AssignRole(db: TenantTables, context: Option<string>, request: AssignRoleRequest)
    returns (failure: Option<ServiceException>)
    requires db.Valid()
    modifies db
    ensures db.Valid()
    ensures var key := AssignmentFor(old(db.users), old(db.roles), old(db.sites), context, request);
            && (key.Err? ==> failure == Some(key.error) && db.userRoles == old(db.userRoles))
            && (key.Ok? ==> failure.None? && db.userRoles == old(db.userRoles)[key.value := UserRole(key.value, request.expiresAt, true)])
    ensures db.users == old(db.users) && db.roles == old(db.roles) && db.permissions == old(db.permissions)
    ensures db.rolePermissions == old(db.rolePermissions) && db.sites == old(db.sites) && db.siteAccess == old(db.siteAccess)
  {
    var key := AssignmentFor(db.users, db.roles, db.sites, context, request);
    if key.Err? {
      return Some(key.error);
    }
    db.userRoles := db.userRoles[key.value := UserRole(key.value, request.expiresAt, true)];
    return None;
  }

  /** The checks of `grantSiteAccess`, in order, giving the key of the grant to upsert. */
  function GrantFor(db_users: map<string, User>, sites: map<string, Site>, context: Option<string>,
                    request: GrantSiteAccessRequest): (r: Result<GrantKey, ServiceException>)
    requires SiteCodesUnique(sites)
    ensures r.Ok? <==> RequireTenantId(context).Ok? && TenantUser(db_users, context.value, request.userId).None?
                       && TenantSite(sites, context.value, request.siteId).Ok? && !Inactive(sites[request.siteId])
    ensures r.Ok? ==> r.value == GrantKey(context.value, request.userId, request.siteId)
  {
    var tenant := RequireTenantId(context);
    if tenant.Err? then Err(tenant.error)
    else
      var userFailure := TenantUser(db_users, tenant.value, request.userId);
      if userFailure.Some? then Err(userFailure.value)
      else
        var site := TenantSite(sites, tenant.value, request.siteId);
        if site.Err? then Err(site.error)
        else if Inactive(site.value) then Err(IllegalArgument(Some(InactiveSiteMessage)))
        else Ok(GrantKey(tenant.value, request.userId, request.siteId))
  }

  /** `grantSiteAccess`: after the checks, the grant for (tenant, user, site) is created or
      overwritten, active, with the requested level and expiry. */
  method GrantSiteAccess(db: TenantTables, context: Option<string>, request: GrantSiteAccessRequest)
    returns (failure: Option<ServiceException>)
    requires db.Valid()
    modifies db
    ensures db.Valid()
    ensures var key := GrantFor(old(db.users), old(db.sites), context, request);
            && (key.Err? ==> failure == Some(key.error) && db.siteAccess == old(db.siteAccess))
            && (key.Ok? ==>
                  (failure.None?
                   && db.siteAccess == old(db.siteAccess)[key.value := SiteAccess(key.value, request.accessLevel, request.expiresAt, true)]))
    ensures db.users == old(db.users) && db.roles == old(db.roles) && db.permissions == old(db.permissions)
    ensures db.rolePermissions == old(db.rolePermissions) && db.sites == old(db.sites) && db.userRoles == old(db.userRoles)
  {
    var key := GrantFor(db.users, db.sites, context, request);
    if key.Err? {
      return Some(key.error);
    }
    db.siteAccess := db.siteAccess[key.value := SiteAccess(key.value, request.accessLevel, request.expiresAt, true)];
    return None;
  }

  /** Whether an active assignment applies at the requested site: a global one always does, a
      site one only when that very site is requested. */
  predicate Applies(key: AssignmentKey, siteId: Option<string>) {
    key.siteId.None? || (siteId.Some? && key.siteId == siteId)
  }

  /** The roles of the user's active assignments in the tenant that apply at `siteId`. */
  function ApplicableRoles(userRoles: map<AssignmentKey, UserRole>, tenantId: string, userId: string,
                           siteId: Option<string>): set<string> {
    set k | k in userRoles && k.tenantId == tenantId && k.userId == userId && userRoles[k].active && Applies(k, siteId)
          :: k.roleId
  }

  /** The keys of the tenant's permissions mapped to any of `roleIds`. */
  function KeysVia(permissions: map<string, Permission>, rolePermissions: seq<RolePermission>, tenantId: string,
                   roleIds: set<string>): set<string> {
    set i | 0 <= i < |rolePermissions| && rolePermissions[i].roleId in roleIds
            && rolePermissions[i].permissionId in permissions
            && permissions[rolePermissions[i].permissionId].tenantId == tenantId
          :: permissions[rolePermissions[i].permissionId].permissionKey
  }

  /** The permission keys `getUserPermissions` reports, before sorting. */
  function HeldKeys(db_permissions: map<string, Permission>, rolePermissions: seq<RolePermission>,
                    userRoles: map<AssignmentKey, UserRole>, tenantId: string, userId: string, siteId: Option<string>)
    : set<string> {
    KeysVia(db_permissions, rolePermissions, tenantId, ApplicableRoles(userRoles, tenantId, userId, siteId))
  }

  /** `getUserPermissions`: for every applicable role, every mapping of that role whose
      permission exists in the tenant contributes its key; the keys are returned sorted,
      without duplicates. */
  method GetUserPermissions(db: TenantTables, context: Option<string>, userId: string, siteId: Option<string>)
    returns (r: Result<UserPermissions, ServiceException>)
    ensures var tenant := RequireTenantId(context);
            && (tenant.Err? ==> r == Err(tenant.error))
            && (tenant.Ok? && TenantUser(db.users, tenant.value, userId).Some? ==> r == Err(TenantUser(db.users, tenant.value, userId).value))
    ensures r.Ok? <==> RequireTenantId(context).Ok? && TenantUser(db.users, context.value, userId).None?
    ensures r.Ok? ==> r.value.userId == userId && r.value.siteId == siteId
                      && StrictlySorted(r.value.permissionKeys)
                      && forall k :: k in r.value.permissionKeys <==>
                                     k in HeldKeys(db.permissions, db.rolePermissions, db.userRoles, context.value, userId, siteId)
  {
    var tenant := RequireTenantId(context);
    if tenant.Err? {
      return Err(tenant.error);
    }
    var tenantId := tenant.value;
    var userFailure := TenantUser(db.users, tenantId, userId);
    if userFailure.Some? {
      return Err(userFailure.value);
    }
    var applicable := ApplicableRoles(db.userRoles, tenantId, userId, siteId);
    var keys := CollectKeys(db.permissions, db.rolePermissions, tenantId, applicable);
    var sorted := SortedList(keys);
    return Ok(UserPermissions(userId, siteId, sorted));
  }

  /** The nested loops of `getUserPermissions`: for each role, each of the role's mappings
      whose permission belongs to the tenant adds that permission's key. */
  method CollectKeys(permissions: map<string, Permission>, mappings: seq<RolePermission>, tenantId: string,
                     roleIds: set<string>) returns (keys: set<string>)
    ensures keys == KeysVia(permissions, mappings, tenantId, roleIds)
  {
    keys := {};
    var pending := roleIds;
    while pending != {}
      invariant pending <= roleIds
      invariant keys == KeysVia(permissions, mappings, tenantId, roleIds - pending)
      decreases |pending|
    {
      var roleId :| roleId in pending;
      var done := roleIds - pending;
      var roleKeys := RoleKeys(permissions, mappings, tenantId, roleId);
      keys := keys + roleKeys;
      KeysViaUnion(permissions, mappings, tenantId, done, {roleId});
      assert roleIds - (pending - {roleId}) == done + {roleId};
      pending := pending - {roleId};
    }
    assert roleIds - pending == roleIds;
  }

  /** The inner loop: the keys of one role's mappings to the tenant's permissions. */
  method RoleKeys(permissions: map<string, Permission>, mappings: seq<RolePermission>, tenantId: string, roleId: string)
    returns (keys: set<string>)
    ensures keys == KeysVia(permissions, mappings, tenantId, {roleId})
  {
    keys := {};
    var j := 0;
    while j < |mappings|
      invariant 0 <= j <= |mappings|
      invariant keys == KeysVia(permissions, mappings[..j], tenantId, {roleId})
    {
      KeysViaSnoc(permissions, mappings, tenantId, {roleId}, j);
      var mapping := mappings[j];
      if mapping.roleId == roleId && mapping.permissionId in permissions && permissions[mapping.permissionId].tenantId == tenantId {
        keys := keys + {permissions[mapping.permissionId].permissionKey};
      }
      j := j + 1;
    }
    assert mappings[..|mappings|] == mappings;
  }

  // ----------------------------------------------------------------- lemmas

  lemma KeysViaSnoc(permissions: map<string, Permission>, mappings: seq<RolePermission>, tenantId: string,
                    roleIds: set<string>, j: nat)
    requires j < |mappings|
    ensures KeysVia(permissions, mappings[..j + 1], tenantId, roleIds)
            == KeysVia(permissions, mappings[..j], tenantId, roleIds)
               + (if mappings[j].roleId in roleIds && mappings[j].permissionId in permissions
                     && permissions[mappings[j].permissionId].tenantId == tenantId
                  then {permissions[mappings[j].permissionId].permissionKey} else {})
  {
    var longer := mappings[..j + 1];
    var shorter := mappings[..j];
    forall k | k in KeysVia(permissions, longer, tenantId, roleIds)
      ensures k in KeysVia(permissions, shorter, tenantId, roleIds) || k == permissions[mappings[j].permissionId].permissionKey
    {
      var i :| 0 <= i < |longer| && longer[i].roleId in roleIds && longer[i].permissionId in permissions
               && permissions[longer[i].permissionId].tenantId == tenantId && permissions[longer[i].permissionId].permissionKey == k;
      if i < j {
        assert shorter[i] == longer[i];
      }
    }
    forall k | k in KeysVia(permissions, shorter, tenantId, roleIds) ensures k in KeysVia(permissions, longer, tenantId, roleIds) {
      var i :| 0 <= i < |shorter| && shorter[i].roleId in roleIds && shorter[i].permissionId in permissions
               && permissions[shorter[i].permissionId].tenantId == tenantId && permissions[shorter[i].permissionId].permissionKey == k;
      assert longer[i] == shorter[i];
    }
    if mappings[j].roleId in roleIds && mappings[j].permissionId in permissions
       && permissions[mappings[j].permissionId].tenantId == tenantId {
      assert longer[j] == mappings[j];
    }
  }

  lemma KeysViaUnion(permissions: map<string, Permission>, mappings: seq<RolePermission>, tenantId: string,
                     a: set<string>, b: set<string>)
    ensures KeysVia(permissions, mappings, tenantId, a + b)
            == KeysVia(permissions, mappings, tenantId, a) + KeysVia(permissions, mappings, tenantId, b)
  {
  }

  /** A role assigned without a site grants its permissions everywhere: once assigned, every
      permission of the tenant mapped to it is among the user's keys, at any site or none. */
  lemma GlobalAssignmentGrantsEverywhere(permissions: map<string, Permission>, mappings: seq<RolePermission>,
                                         userRoles: map<AssignmentKey, UserRole>, key: AssignmentKey, expiresAt: Option<int>,
                                         i: nat, siteId: Option<string>)
    requires key.siteId.None? && i < |mappings| && mappings[i].roleId == key.roleId
    requires mappings[i].permissionId in permissions && permissions[mappings[i].permissionId].tenantId == key.tenantId
    ensures permissions[mappings[i].permissionId].permissionKey
              in HeldKeys(permissions, mappings, userRoles[key := UserRole(key, expiresAt, true)], key.tenantId, key.userId, siteId)
  {
    var after := userRoles[key := UserRole(key, expiresAt, true)];
    assert key.roleId in ApplicableRoles(after, key.tenantId, key.userId, siteId);
  }

  /** A site assignment counts only at its own site: without a requested site, or at another
      site, it contributes nothing. */
  lemma SiteAssignmentOnlyAtItsSite(userRoles: map<AssignmentKey, UserRole>, key: AssignmentKey, siteId: Option<string>)
    requires key in userRoles && key.siteId.Some? && siteId != key.siteId
    ensures forall r :: r in ApplicableRoles(userRoles, key.tenantId, key.userId, siteId) ==>
              exists k :: k in userRoles && k != key && k.roleId == r && userRoles[k].active
  {
  }
}
