/** The tenant database's access-control tables (users, roles, permissions, role-permission
    mappings, sites, role assignments and site grants) and `TenantScopeService`, which demands
    a tenant in the request context before any of them is touched. */
module RbacTables {
  import opened Common
  import opened Exceptions

  const TenantContextMissingMessage := "Tenant context is not available"

  datatype User = User(userId: string, tenantId: string)

  datatype Role = Role(roleId: string, tenantId: string, roleName: string, roleKey: string, description: Option<string>,
                       level: int, systemRole: bool, active: bool, deleted: bool)

  datatype Permission = Permission(permissionId: string, tenantId: string, permissionKey: string)

  datatype RolePermission = RolePermission(roleId: string, permissionId: string)

  /** A site; `active` is a nullable column. */
  datatype Site = Site(siteId: string, tenantId: string, siteName: string, siteCode: string, address: Option<string>,
                       city: Option<string>, state: Option<string>, country: Option<string>, postalCode: Option<string>,
                       phone: Option<string>, email: Option<string>, headquarters: bool, active: Option<bool>, deleted: bool)

  /** A role assignment, identified by tenant, user, role and (optional) site. */
  datatype AssignmentKey = AssignmentKey(tenantId: string, userId: string, roleId: string, siteId: Option<string>)

  datatype UserRole = UserRole(key: AssignmentKey, expiresAt: Option<int>, active: bool)

  /** A site grant, identified by tenant, user and site. */
  datatype GrantKey = GrantKey(tenantId: string, userId: string, siteId: string)

  datatype SiteAccess = SiteAccess(key: GrantKey, accessLevel: string, expiresAt: Option<int>, active: bool)

  /** `requireTenantId`: the context tenant, which must be present and not blank. */
  function RequireTenantId(context: Option<string>): (r: Result<string, ServiceException>)
    ensures r.Ok? <==> context.Some? && !IsBlank(context.value)
    ensures r.Ok? ==> r.value == context.value
    ensures r.Err? ==> r.error == IllegalState(Some(TenantContextMissingMessage))
  {
    if context.None? || IsBlank(context.value) then Err(IllegalState(Some(TenantContextMissingMessage)))
    else Ok(context.value)
  }

  /** A role key names at most one live role per tenant. */
  predicate RoleKeysUnique(roles: map<string, Role>) {
    (forall id :: id in roles ==> roles[id].roleId == id)
    && forall a, b ::
         (a in roles && b in roles && !roles[a].deleted && !roles[b].deleted
          && roles[a].tenantId == roles[b].tenantId && roles[a].roleKey == roles[b].roleKey) ==> a == b
  }

  /** A permission key names at most one permission per tenant. */
  predicate PermissionKeysUnique(permissions: map<string, Permission>) {
    (forall id :: id in permissions ==> permissions[id].permissionId == id)
    && forall a, b ::
         (a in permissions && b in permissions && permissions[a].tenantId == permissions[b].tenantId
          && permissions[a].permissionKey == permissions[b].permissionKey) ==> a == b
  }

  /** A site code names at most one site per tenant, deleted or not. */
  predicate SiteCodesUnique(sites: map<string, Site>) {
    (forall id :: id in sites ==> sites[id].siteId == id)
    && forall a, b ::
         (a in sites && b in sites && sites[a].tenantId == sites[b].tenantId
          && sites[a].siteCode == sites[b].siteCode) ==> a == b
  }

  /** Every assignment and grant is stored under its own key. */
  predicate KeyedByIdentity(userRoles: map<AssignmentKey, UserRole>, siteAccess: map<GrantKey, SiteAccess>) {
    (forall k :: k in userRoles ==> userRoles[k].key == k) && (forall k :: k in siteAccess ==> siteAccess[k].key == k)
  }

  class TenantTables {
    var users: map<string, User>
    var roles: map<string, Role>
    var permissions: map<string, Permission>
    var rolePermissions: seq<RolePermission>
    var sites: map<string, Site>
    var userRoles: map<AssignmentKey, UserRole>
    var siteAccess: map<GrantKey, SiteAccess>

    /** The uniqueness constraints the services keep. */
    predicate Valid()
      reads this
    {
      RoleKeysUnique(roles) && PermissionKeysUnique(permissions) && SiteCodesUnique(sites)
      && KeyedByIdentity(userRoles, siteAccess)
    }

    constructor()
      ensures Valid()
      ensures users == map[] && roles == map[] && permissions == map[] && rolePermissions == []
      ensures sites == map[] && userRoles == map[] && siteAccess == map[]
    {
      users, roles, permissions, rolePermissions := map[], map[], map[], [];
      sites, userRoles, siteAccess := map[], map[], map[];
    }
  }
}
