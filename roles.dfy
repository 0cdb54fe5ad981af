/** `RoleService`: creating a role with its permissions, listing the tenant's roles with the
    permission keys they grant, and looking a role up by key. */
module Roles {
  import opened Common
  import opened Exceptions
  import opened RbacTables

  const DefaultLevel := 10
  const PermissionsNotFoundMessage := "One or more permissions were not found"

  datatype CreateRoleRequest = CreateRoleRequest(roleName: string, roleKey: string, description: Option<string>,
                                                 level: Option<int>, systemRole: Option<bool>, permissionKeys: set<string>)

  /** A role as the service returns it: the row and the keys of its permissions. */
  datatype RoleResponse = RoleResponse(role: Role, permissionKeys: set<string>)

  const RoleKeyExistsPrefix := "Role key already exists: "

  function RoleKeyExistsMessage(key: string): string { RoleKeyExistsPrefix + key }

  const RoleNotFoundPrefix := "Role not found: "

  function RoleNotFoundMessage(key: string): string { RoleNotFoundPrefix + key }

  predicate LiveRoleKeyTaken(roles: map<string, Role>, tenantId: string, key: string) {
    exists id :: id in roles && !roles[id].deleted && roles[id].tenantId == tenantId && roles[id].roleKey == key
  }

  predicate PermissionExists(permissions: map<string, Permission>, tenantId: string, key: string) {
    exists id :: id in permissions && permissions[id].tenantId == tenantId && permissions[id].permissionKey == key
  }

  /** `findPermissionsByKeys`: the ids of the tenant's permissions whose key was asked for. */
  function FoundPermissions(permissions: map<string, Permission>, tenantId: string, keys: set<string>): set<string> {
    set id | id in permissions && permissions[id].tenantId == tenantId && permissions[id].permissionKey in keys
  }

  /** The new role row: level 10 unless given, a system role only when asked for explicitly. */
  function NewRole(roleId: string, tenantId: string, request: CreateRoleRequest): Role {
    Role(roleId, tenantId, request.roleName, request.roleKey, request.description,
         if request.level.Some? then request.level.value else DefaultLevel, request.systemRole == Some(true), true, false)
  }

  /** The keys of the tenant's permissions that `role` is mapped to; unknown ids are dropped. */
  function GrantedKeys(permissions: map<string, Permission>, rolePermissions: seq<RolePermission>, tenantId: string,
                      roleId: string): set<string> {
    set i | 0 <= i < |rolePermissions| && rolePermissions[i].roleId == roleId
            && rolePermissions[i].permissionId in permissions
            && permissions[rolePermissions[i].permissionId].tenantId == tenantId
          :: permissions[rolePermissions[i].permissionId].permissionKey
  }

  /** `getRoleOrThrow`: the tenant's live role with that key. */
  function RoleByKey(roles: map<string, Role>, tenantId: string, roleKey: string): (r: Result<Role, ServiceException>)
    requires RoleKeysUnique(roles)
    ensures r.Ok? <==> LiveRoleKeyTaken(roles, tenantId, roleKey)
    ensures r.Ok? ==> r.value.roleId in roles && roles[r.value.roleId] == r.value && !r.value.deleted
                      && r.value.tenantId == tenantId && r.value.roleKey == roleKey
    ensures r.Err? ==> r.error == IllegalArgument(Some(RoleNotFoundMessage(roleKey)))
  {
    if LiveRoleKeyTaken(roles, tenantId, roleKey) then
      var id :| id in roles && !roles[id].deleted && roles[id].tenantId == tenantId && roles[id].roleKey == roleKey;
      Ok(roles[id])
    else Err(IllegalArgument(Some(RoleNotFoundMessage(roleKey))))
  }

  /** `listRoles`: every live role of the tenant, with the keys it grants. */
  function ListRoles(roles: map<string, Role>, permissions: map<string, Permission>, rolePermissions: seq<RolePermission>,
                     context: Option<string>): (r: Result<map<string, set<string>>, ServiceException>)
    ensures r.Err? <==> RequireTenantId(context).Err?
    ensures r.Ok? ==> forall id :: id in r.value <==> id in roles && roles[id].tenantId == context.value && !roles[id].deleted
    ensures r.Ok? ==> forall id, k :: id in r.value && k in r.value[id] ==> PermissionExists(permissions, context.value, k)
  {
    var tenant := RequireTenantId(context);
    if tenant.Err? then Err(tenant.error)
    else
      Ok(map id | id in roles && roles[id].tenantId == tenant.value && !roles[id].deleted
                :: GrantedKeys(permissions, rolePermissions, tenant.value, id))
  }

  /** `createRole`: the role key must be unused among the tenant's live roles and every
      requested permission must exist, judged by comparing how many were found with how many
      were asked for; then the role is saved and one mapping per found permission. */
  method CreateRole(db: TenantTables, context: Option<string>, request: CreateRoleRequest, newRoleId: string)
    returns (r: Result<RoleResponse, ServiceException>)
    requires db.Valid() && newRoleId !in db.roles
    modifies db
    ensures db.Valid()
    ensures var tenant := RequireTenantId(context);
            && (tenant.Err? ==> r == Err(tenant.error))
            && (tenant.Ok? && LiveRoleKeyTaken(old(db.roles), tenant.value, request.roleKey) ==>
                  r == Err(IllegalArgument(Some(RoleKeyExistsMessage(request.roleKey)))))
            && (tenant.Ok? && !LiveRoleKeyTaken(old(db.roles), tenant.value, request.roleKey)
                && |FoundPermissions(db.permissions, tenant.value, request.permissionKeys)| != |request.permissionKeys| ==>
                  r == Err(IllegalArgument(Some(PermissionsNotFoundMessage))))
    ensures r.Ok? <==> RequireTenantId(context).Ok? && !LiveRoleKeyTaken(old(db.roles), context.value, request.roleKey)
                       && |FoundPermissions(db.permissions, context.value, request.permissionKeys)| == |request.permissionKeys|
    ensures r.Err? ==> db.roles == old(db.roles) && db.rolePermissions == old(db.rolePermissions)
    ensures r.Ok? ==>
              r.value == RoleResponse(NewRole(newRoleId, context.value, request), request.permissionKeys)
              && db.roles == old(db.roles)[newRoleId := r.value.role]
              && old(db.rolePermissions) <= db.rolePermissions
              && var added := db.rolePermissions[|old(db.rolePermissions)|..];
                 && |added| == |FoundPermissions(db.permissions, context.value, request.permissionKeys)|
                 && forall m :: m in added <==> m.roleId == newRoleId
                                                && m.permissionId in FoundPermissions(db.permissions, context.value, request.permissionKeys)
    ensures db.users == old(db.users) && db.permissions == old(db.permissions) && db.sites == old(db.sites)
    ensures db.userRoles == old(db.userRoles) && db.siteAccess == old(db.siteAccess)
  {
    var tenant := RequireTenantId(context);
    if tenant.Err? {
      return Err(tenant.error);
    }
    var tenantId := tenant.value;
    if exists id :: id in db.roles && !db.roles[id].deleted && db.roles[id].tenantId == tenantId && db.roles[id].roleKey == request.roleKey {
      return Err(IllegalArgument(Some(RoleKeyExistsMessage(request.roleKey))));
    }
    var found := FoundPermissions(db.permissions, tenantId, request.permissionKeys);
    if |found| != |request.permissionKeys| {
      return Err(IllegalArgument(Some(PermissionsNotFoundMessage)));
    }
    var role := NewRole(newRoleId, tenantId, request);
    db.roles := db.roles[newRoleId := role];
    SaveMappings(db, newRoleId, found);
    return Ok(RoleResponse(role, request.permissionKeys));
  }

  /** The loop of `createRole` that saves one mapping from the new role to each found permission. */
  method SaveMappings(db: TenantTables, roleId: string, found: set<string>)
    modifies db
    ensures old(db.rolePermissions) <= db.rolePermissions
    ensures var added := db.rolePermissions[|old(db.rolePermissions)|..];
            && |added| == |found|
            && forall m :: m in added <==> m.roleId == roleId && m.permissionId in found
    ensures db.users == old(db.users) && db.roles == old(db.roles) && db.permissions == old(db.permissions)
    ensures db.sites == old(db.sites) && db.userRoles == old(db.userRoles) && db.siteAccess == old(db.siteAccess)
  {
    var pending := found;
    ghost var done: set<string> := {};
    ghost var added: seq<RolePermission> := [];
    while pending != {}
      invariant done + pending == found && done !! pending
      invariant db.rolePermissions == old(db.rolePermissions) + added
      invariant |added| == |done|
      invariant forall m :: m in added <==> m.roleId == roleId && m.permissionId in done
      invariant db.users == old(db.users) && db.roles == old(db.roles) && db.permissions == old(db.permissions)
      invariant db.sites == old(db.sites) && db.userRoles == old(db.userRoles) && db.siteAccess == old(db.siteAccess)
      decreases |pending|
    {
      var permissionId :| permissionId in pending;
      AddMapping(added, roleId, done, permissionId);
      db.rolePermissions := db.rolePermissions + [RolePermission(roleId, permissionId)];
      added := added + [RolePermission(roleId, permissionId)];
      done := done + {permissionId};
      pending := pending - {permissionId};
    }
    assert db.rolePermissions[|old(db.rolePermissions)|..] == added;
  }

  /** Saving the mapping for one more permission extends the saved mappings by exactly it. */
  lemma AddMapping(added: seq<RolePermission>, roleId: string, done: set<string>, permissionId: string)
    requires permissionId !in done && |added| == |done|
    requires forall m :: m in added <==> m.roleId == roleId && m.permissionId in done
    ensures |added + [RolePermission(roleId, permissionId)]| == |done + {permissionId}|
    ensures forall m :: m in added + [RolePermission(roleId, permissionId)] <==>
      m.roleId == roleId && m.permissionId in done + {permissionId}
  {
  }

  // ----------------------------------------------------------------- lemmas

  /** The keys of a set of permissions, which are distinct per tenant. */
  function KeysOf(permissions: map<string, Permission>, ids: set<string>): set<string>
    requires ids <= permissions.Keys
  {
    set id | id in ids :: permissions[id].permissionKey
  }

  lemma {:induction false} DistinctKeysCount(permissions: map<string, Permission>, tenantId: string, ids: set<string>)
    requires PermissionKeysUnique(permissions) && ids <= permissions.Keys
    requires forall id :: id in ids ==> permissions[id].tenantId == tenantId
    ensures |KeysOf(permissions, ids)| == |ids|
    decreases |ids|
  {
    if ids != {} {
      var x :| x in ids;
      DistinctKeysCount(permissions, tenantId, ids - {x});
      assert KeysOf(permissions, ids) == KeysOf(permissions, ids - {x}) + {permissions[x].permissionKey};
      assert permissions[x].permissionKey !in KeysOf(permissions, ids - {x});
    }
  }

  lemma SubsetOfSameSize(a: set<string>, b: set<string>)
    requires a <= b && |a| == |b|
    ensures a == b
  {
    assert b == a + (b - a);
    assert |b| == |a| + |b - a|;
  }

  /** Comparing counts is the same as checking every requested key, because a tenant's
      permission keys are distinct. */
  lemma FoundCountMeansAllExist(permissions: map<string, Permission>, tenantId: string, keys: set<string>)
    requires PermissionKeysUnique(permissions)
    ensures |FoundPermissions(permissions, tenantId, keys)| == |keys| <==>
              forall k :: k in keys ==> PermissionExists(permissions, tenantId, k)
    ensures |FoundPermissions(permissions, tenantId, keys)| == |keys| ==>
              KeysOf(permissions, FoundPermissions(permissions, tenantId, keys)) == keys
  {
    var found := FoundPermissions(permissions, tenantId, keys);
    DistinctKeysCount(permissions, tenantId, found);
    var present := KeysOf(permissions, found);
    assert present == set k | k in keys && PermissionExists(permissions, tenantId, k) by {
      forall k | k in keys && PermissionExists(permissions, tenantId, k) ensures k in present {
        var id :| id in permissions && permissions[id].tenantId == tenantId && permissions[id].permissionKey == k;
        assert id in found;
      }
    }
    assert present <= keys;
    if |found| == |keys| {
      SubsetOfSameSize(present, keys);
    }
    if forall k :: k in keys ==> PermissionExists(permissions, tenantId, k) {
      assert present == keys;
    }
  }

  /** Listing the roles right after a role was created shows it with exactly the requested
      permission keys, provided no mapping pointed at its id before. */
  lemma CreatedRoleIsListed(permissions: map<string, Permission>, before: seq<RolePermission>, added: seq<RolePermission>,
                            roles: map<string, Role>, tenantId: string, request: CreateRoleRequest, newRoleId: string)
    requires PermissionKeysUnique(permissions) && !IsBlank(tenantId)
    requires forall m :: m in before ==> m.roleId != newRoleId
    requires |FoundPermissions(permissions, tenantId, request.permissionKeys)| == |request.permissionKeys|
    requires forall m :: m in added <==> m.roleId == newRoleId && m.permissionId in FoundPermissions(permissions, tenantId, request.permissionKeys)
    ensures var listed := ListRoles(roles[newRoleId := NewRole(newRoleId, tenantId, request)], permissions, before + added, Some(tenantId));
            listed.Ok? && newRoleId in listed.value && listed.value[newRoleId] == request.permissionKeys
  {
    var found := FoundPermissions(permissions, tenantId, request.permissionKeys);
    FoundCountMeansAllExist(permissions, tenantId, request.permissionKeys);
    var all := before + added;
    var granted := GrantedKeys(permissions, all, tenantId, newRoleId);
    forall k | k in granted ensures k in request.permissionKeys {
      var i :| 0 <= i < |all| && all[i].roleId == newRoleId && all[i].permissionId in permissions
               && permissions[all[i].permissionId].tenantId == tenantId && permissions[all[i].permissionId].permissionKey == k;
      if i >= |before| {
        assert all[i] == added[i - |before|];
      }
    }
    forall k | k in request.permissionKeys ensures k in granted {
      assert k in KeysOf(permissions, found);
      var id :| id in found && permissions[id].permissionKey == k;
      var m := RolePermission(newRoleId, id);
      assert m in added;
      var j :| 0 <= j < |added| && added[j] == m;
      assert all[|before| + j] == m;
    }
  }

  /** The role found by key is the one the key names, and no other tenant's role is found. */
  lemma RoleLookupIsTenantScoped(roles: map<string, Role>, tenantId: string, roleKey: string, id: string)
    requires RoleKeysUnique(roles) && id in roles && !roles[id].deleted
    requires roles[id].roleKey == roleKey
    ensures roles[id].tenantId == tenantId ==> RoleByKey(roles, tenantId, roleKey) == Ok(roles[id])
    ensures roles[id].tenantId != tenantId && RoleByKey(roles, tenantId, roleKey).Ok? ==>
              RoleByKey(roles, tenantId, roleKey).value.roleId != id
  {
  }
}
