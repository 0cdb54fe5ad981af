/** The master database's tenant users (`TenantUserService`): creation with a per-tenant unique
    e-mail, partial update, lookup and deletion. */
module TenantUsers {
  import opened Common
  import opened Exceptions

  datatype TenantUser = TenantUser(userId: string, tenantId: string, email: string, passwordHash: string,
                                   role: string, isActive: bool, lastLogin: Option<int>)

  /** `TenantUserRequest`; every field but `isActive` is required when creating. */
  datatype UserRequest = UserRequest(tenantId: string, email: string, password: string, role: string, isActive: Option<bool>)

  /** The fields an update may carry. Absent e-mail, password and role are left alone; an absent
      active flag reads as true, like the request's `isActive()`. */
  datatype UserUpdate = UserUpdate(email: Option<string>, password: Option<string>, role: Option<string>, isActive: Option<bool>)

  /** The message of a duplicate e-mail on creation, "User with email already exists for this
      tenant: <email>", written around the words its callers look for. */
  function DuplicateUserMessage(email: string): string {
    "User with email " + "already exists" + " for this tenant: " + email
  }

  /** `isActive()` of the request defaults to true. */
  function ActiveOrDefault(isActive: Option<bool>): bool {
    if isActive.Some? then isActive.value else true
  }

  predicate EmailTaken(users: map<string, TenantUser>, tenantId: string, email: string) {
    exists id :: id in users && users[id].tenantId == tenantId && users[id].email == email
  }

  /** Each user is stored under its own id (the primary key). */
  predicate KeyedById(users: map<string, TenantUser>) {
    forall id :: id in users ==> users[id].userId == id
  }

  /** No two users of one tenant share an e-mail, and each user is stored under its own id. */
  predicate UniqueEmails(users: map<string, TenantUser>) {
    KeyedById(users)
    && forall a, b :: a in users && b in users && a != b && users[a].tenantId == users[b].tenantId ==> users[a].email != users[b].email
  }

  /** The update applied to a stored user: e-mail only when it differs (the caller has checked it
      is free), password only when non-empty (stored encoded), role when given; the active flag
      is always written, true when the update omits it. */
  function Updated(user: TenantUser, update: UserUpdate, encode: string -> string): TenantUser {
    var email := if update.email.Some? && update.email.value != user.email then update.email.value else user.email;
    var hash := if update.password.Some? && update.password.value != "" then encode(update.password.value) else user.passwordHash;
    var role := if update.role.Some? then update.role.value else user.role;
    var active := ActiveOrDefault(update.isActive);
    TenantUser(user.userId, user.tenantId, email, hash, role, active, user.lastLogin)
  }

  class TenantUserService {
    var users: map<string, TenantUser>

    constructor(users: map<string, TenantUser>)
      ensures this.users == users
    {
      this.users := users;
    }

    /** `createTenantUser`. `resolve` is the tenant identifier resolver, `encode` the password
        encoder, and `newId` the id the repository assigns. */
    method CreateTenantUser(request: UserRequest, newId: string, resolve: string -> Result<string, ServiceException>,
                            encode: string -> string) returns (r: Result<TenantUser, ServiceException>)
      requires newId !in users
      modifies this
      ensures resolve(request.tenantId).Err? ==> r == Err(resolve(request.tenantId).error) && users == old(users)
      ensures resolve(request.tenantId).Ok? && EmailTaken(old(users), resolve(request.tenantId).value, request.email) ==>
                r == Err(IllegalArgument(Some(DuplicateUserMessage(request.email)))) && users == old(users)
      ensures r.Ok? ==> r.value == TenantUser(newId, resolve(request.tenantId).value, request.email, encode(request.password),
                                              request.role, ActiveOrDefault(request.isActive), None)
                        && users == old(users)[newId := r.value]
      ensures resolve(request.tenantId).Ok? && !EmailTaken(old(users), resolve(request.tenantId).value, request.email) ==> r.Ok?
      ensures UniqueEmails(old(users)) ==> UniqueEmails(users)
    {
      var resolved := resolve(request.tenantId);
      if resolved.Err? {
        return Err(resolved.error);
      }
      var tenantId := resolved.value;
      if EmailTaken(users, tenantId, request.email) {
        return Err(IllegalArgument(Some(DuplicateUserMessage(request.email))));
      }
      var user := TenantUser(newId, tenantId, request.email, encode(request.password), request.role, ActiveOrDefault(request.isActive), None);
      users := users[newId := user];
      return Ok(user);
    }

    /** `getTenantUser`. */
    method GetTenantUser(userId: string) returns (r: Result<TenantUser, ServiceException>)
      ensures userId in users ==> r == Ok(users[userId])
      ensures userId !in users ==> r == Err(IllegalArgument(Some("User not found: " + userId)))
    {
      if userId !in users {
        return Err(IllegalArgument(Some("User not found: " + userId)));
      }
      return Ok(users[userId]);
    }

    /** `getTenantUserByEmail`: the identifier is resolved first, a resolver failure propagating. */
    method GetTenantUserByEmail(tenantIdentifier: string, email: string, resolve: string -> Result<string, ServiceException>)
      returns (r: Result<TenantUser, ServiceException>)
      ensures resolve(tenantIdentifier).Err? ==> r == Err(resolve(tenantIdentifier).error)
      ensures resolve(tenantIdentifier).Ok? ==> (r.Ok? <==> EmailTaken(users, resolve(tenantIdentifier).value, email))
      ensures r.Ok? ==> r.value in users.Values && r.value.tenantId == resolve(tenantIdentifier).value && r.value.email == email
      ensures r.Ok? && KeyedById(users) ==> r.value.userId in users && users[r.value.userId] == r.value
      ensures resolve(tenantIdentifier).Ok? && r.Err? ==> r.error == IllegalArgument(Some("User not found: " + email))
    {
      var resolved := resolve(tenantIdentifier);
      if resolved.Err? {
        return Err(resolved.error);
      }
      var tenantId := resolved.value;
      if EmailTaken(users, tenantId, email) {
        var id :| id in users && users[id].tenantId == tenantId && users[id].email == email;
        return Ok(users[id]);
      }
      return Err(IllegalArgument(Some("User not found: " + email)));
    }

    /** `getUsersByTenant`: the users of the resolved tenant. */
    method GetUsersByTenant(tenantIdentifier: string, resolve: string -> Result<string, ServiceException>)
      returns (r: Result<set<TenantUser>, ServiceException>)
      ensures resolve(tenantIdentifier).Err? ==> r == Err(resolve(tenantIdentifier).error)
      ensures resolve(tenantIdentifier).Ok? ==>
                r.Ok? && forall u :: u in r.value <==> u in users.Values && u.tenantId == resolve(tenantIdentifier).value
    {
      var resolved := resolve(tenantIdentifier);
      if resolved.Err? {
        return Err(resolved.error);
      }
      var tenantId := resolved.value;
      return Ok(set u | u in users.Values && u.tenantId == tenantId);
    }

    /** `updateTenantUser`. */
    method UpdateTenantUser(userId: string, update: UserUpdate, encode: string -> string) returns (r: Result<TenantUser, ServiceException>)
      modifies this
      ensures userId !in old(users) ==> r == Err(IllegalArgument(Some("User not found: " + userId))) && users == old(users)
      ensures userId in old(users) && update.email.Some? && update.email.value != old(users)[userId].email
              && EmailTaken(old(users), old(users)[userId].tenantId, update.email.value) ==>
                r == Err(IllegalArgument(Some("User with email already exists: " + update.email.value))) && users == old(users)
      ensures r.Ok? ==> userId in old(users) && r.value == Updated(old(users)[userId], update, encode)
                        && users == old(users)[userId := r.value]
      ensures UniqueEmails(old(users)) ==> UniqueEmails(users)
    {
      if userId !in users {
        return Err(IllegalArgument(Some("User not found: " + userId)));
      }
      var stored := users[userId];
      var user := stored;
      if update.email.Some? && update.email.value != user.email {
        if EmailTaken(users, user.tenantId, update.email.value) {
          return Err(IllegalArgument(Some("User with email already exists: " + update.email.value)));
        }
        user := user.(email := update.email.value);
      }
      if update.password.Some? && update.password.value != "" {
        user := user.(passwordHash := encode(update.password.value));
      }
      if update.role.Some? {
        user := user.(role := update.role.value);
      }
      // `request.isActive()` is never null, so the flag is always set.
      user := user.(isActive := ActiveOrDefault(update.isActive));
      assert user == Updated(stored, update, encode);
      if UniqueEmails(users) {
        ReplaceKeepsUniqueEmails(users, userId, user);
      }
      users := users[userId := user];
      return Ok(user);
    }

    /** `deleteTenantUser`. */
    method DeleteTenantUser(userId: string) returns (r: Result<(), ServiceException>)
      modifies this
      ensures userId in old(users) ==> r.Ok? && users == old(users) - {userId}
      ensures userId !in old(users) ==> r == Err(IllegalArgument(Some("User not found: " + userId))) && users == old(users)
    {
      if userId !in users {
        return Err(IllegalArgument(Some("User not found: " + userId)));
      }
      users := users - {userId};
      return Ok(());
    }
  }

  // ----------------------------------------------------------------- lemmas

  /** Replacing a user by one of the same id and tenant keeps e-mails unique when the e-mail is
      unchanged or free in that tenant. */
  lemma ReplaceKeepsUniqueEmails(users: map<string, TenantUser>, id: string, user: TenantUser)
    requires UniqueEmails(users) && id in users
    requires user.userId == id && user.tenantId == users[id].tenantId
    requires user.email == users[id].email || !EmailTaken(users, user.tenantId, user.email)
    ensures UniqueEmails(users[id := user])
  {
    var after := users[id := user];
    forall a, b | a in after && b in after && a != b && after[a].tenantId == after[b].tenantId
      ensures after[a].email != after[b].email
    {
      if a == id {
        assert after[b] == users[b];
      } else if b == id {
        assert after[a] == users[a];
      }
    }
  }

  /** An update with nothing in it changes nothing but the active flag, which it sets: an
      inactive user is reactivated. */
  lemma EmptyUpdateReactivates(user: TenantUser, encode: string -> string)
    ensures Updated(user, UserUpdate(None, None, None, None), encode) == user.(isActive := true)
    ensures !user.isActive ==> Updated(user, UserUpdate(None, None, None, None), encode) != user
  {
  }

  /** An update never moves a user to another tenant, renames its id, or touches its last login,
      and an empty password keeps the stored hash. */
  lemma UpdateKeepsIdentity(user: TenantUser, update: UserUpdate, encode: string -> string)
    ensures var u := Updated(user, update, encode);
            u.userId == user.userId && u.tenantId == user.tenantId && u.lastLogin == user.lastLogin
            && (update.password.None? || update.password.value == "" ==> u.passwordHash == user.passwordHash)
            && (update.password.Some? && update.password.value != "" ==> u.passwordHash == encode(update.password.value))
  {
  }

  /** Applying the same update twice is the same as applying it once, unless it sets a password
      (which is re-encoded). */
  lemma UpdateIdempotent(user: TenantUser, update: UserUpdate, encode: string -> string)
    requires update.password.None? || update.password.value == ""
    ensures Updated(Updated(user, update, encode), update, encode) == Updated(user, update, encode)
  {
  }
}
