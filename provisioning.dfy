/** Tenant provisioning on the tenant service (`TenantProvisioningService`): slug validation, the
    tenant record, its database and migrations, the default tenant admin, status updates and
    migration runs. The master database's tables are fields of the service; the tenant
    database server, the user service and the migration tool are reached through the objects
    and oracles passed in. */
module Provisioning {
  import opened Common
  import opened Exceptions
  import opened TenantNaming
  import opened TenantDatabaseManager
  import opened TenantUsers
  import opened MasterData

  const DefaultAdminPassword := "adming"
  const DefaultAdminRole := "admin"
  const AdminLastName := "User"

  /** `TenantRequest`; bean validation has already rejected blank names and slugs. */
  datatype TenantRequest = TenantRequest(tenantName: string, slug: string, subscriptionTier: string,
                                         maxUsers: int, maxStorageGb: int, adminEmail: Option<string>)

  /** A row of a tenant database's `users` table; the table is keyed by (database, user id). */
  datatype TenantDbUser = TenantDbUser(tenantSlug: string, email: string, firstName: string, lastName: string,
                                       isActive: bool, emailVerified: bool)

  const SlugInUsePrefix := "Slug already in use: "

  function SlugInUseMessage(slug: string): string { SlugInUsePrefix + slug }

  const TenantNotFoundPrefix := "Tenant not found: "

  function TenantNotFoundMessage(tenantId: string): string { TenantNotFoundPrefix + tenantId }

  const AdminFailedPrefix := "Failed to create default admin user for tenant "

  function AdminFailedMessage(tenantName: string): string { AdminFailedPrefix + tenantName }

  /** The record `createTenant` builds for a request. */
  function NewTenant(request: TenantRequest, tenantId: string, databaseName: string, jdbcUrl: string): Tenant {
    Tenant(tenantId, request.tenantName, request.slug, DefaultStatus, Some(request.subscriptionTier), jdbcUrl, databaseName,
           Some(request.maxUsers), Some(request.maxStorageGb))
  }

  /** A status write; the entity's update hook turns a null status into "active". */
  function StatusOrDefault(status: Option<string>): string {
    if status.Some? then status.value else DefaultStatus
  }

  /** The admin's profile row in the tenant database. */
  function AdminProfile(slug: string, email: string): TenantDbUser
    requires FirstNameFromEmail(email).Some?
  {
    TenantDbUser(slug, email, FirstNameFromEmail(email).value, AdminLastName, true, true)
  }

  /** The tenant database's `users` rows after the default admin of `tenant` was set up: the
      profile is written, under the new login's id or the id of the login that already had the
      email, when the tenant identifier resolves, the first name can be derived and the insert
      succeeds; otherwise the rows are as they were. */
  ghost predicate AdminProfileWritten(before: map<(string, string), TenantDbUser>, after: map<(string, string), TenantDbUser>,
                                      tenant: Tenant, email: string, newUserId: string, logins: map<string, TenantUser>,
                                      resolved: Result<string, ServiceException>, insertSucceeds: bool)
  {
    if resolved.Ok? && FirstNameFromEmail(email).Some? && insertSucceeds then
      if EmailTaken(logins, resolved.value, email) then
        exists id :: id in logins && logins[id].tenantId == resolved.value && logins[id].email == email
                     && after == before[(tenant.databaseName, id) := AdminProfile(tenant.slug, email)]
      else after == before[(tenant.databaseName, newUserId) := AdminProfile(tenant.slug, email)]
    else after == before
  }

  /** Whether a caught exception's message mentions "already exists". */
  predicate MentionsAlreadyExists(ex: ServiceException) {
    MessageOf(ex).Some? && Contains(MessageOf(ex).value, "already exists")
  }

  // ----------------------------------------------------------------- service

  class TenantProvisioningService {
    /** The master database's tenant and migration tables. */
    const master: MasterDatabase
    /** The tenant databases' `users` tables, by (database name, user id). */
    var tenantDbUsers: map<(string, string), TenantDbUser>
    /** The master data source's JDBC URL. */
    const datasourceUrl: string
    const server: DatabaseServer
    const users: TenantUserService

    constructor(datasourceUrl: string, master: MasterDatabase, server: DatabaseServer, users: TenantUserService)
      ensures tenantDbUsers == map[]
      ensures this.datasourceUrl == datasourceUrl && this.master == master && this.server == server && this.users == users
    {
      tenantDbUsers := map[];
      this.datasourceUrl := datasourceUrl;
      this.master := master;
      this.server := server;
      this.users := users;
    }

    /** `createTenant`, one transaction on the master database: an invalid slug gives 400 and a
        slug in use 409, both before any database work; then the tenant database is created
        (`faults` says how the database server answers) and migrated (`migrated` is what the
        migration tool reports for it), the record saved, the applied migrations recorded and the
        default admin created. A failure after the database was created rolls back the
        master-database writes but leaves the database in place. */
    method CreateTenant(request: TenantRequest, newTenantId: string, newUserId: string,
                        migrated: Result<seq<Option<string>>, ServiceException>,
                        resolve: string -> Result<string, ServiceException>, encode: string -> string,
                        insertSucceeds: bool, faults: ServerFaults)
      returns (r: Result<Tenant, ServiceException>)
      requires newTenantId !in master.tenants && newUserId !in users.users && KeyedById(users.users)
      modifies this, master, server, users
      ensures !MatchesSlugPattern(request.slug) ==>
                r == Err(ResponseStatus(400, Some(InvalidSlugMessage))) && server.databases == old(server.databases)
      ensures MatchesSlugPattern(request.slug) && SlugTaken(old(master.tenants), request.slug) ==>
                r == Err(ResponseStatus(409, Some(SlugInUseMessage(request.slug)))) && server.databases == old(server.databases)
      ensures MatchesSlugPattern(request.slug) && !SlugTaken(old(master.tenants), request.slug) && '/' !in datasourceUrl ==>
                r == Err(IllegalState(Some(UnparsableMessage(datasourceUrl)))) && server.databases == old(server.databases)
      ensures MatchesSlugPattern(request.slug) && !SlugTaken(old(master.tenants), request.slug) && '/' in datasourceUrl ==>
                var creation := CreationOutcome(old(server.databases), ProvisionedDatabaseName(request.slug), faults);
                server.databases == old(server.databases) + (if creation.Ok? then {ProvisionedDatabaseName(request.slug)} else {})
                && (creation.Err? ==> r == Err(IllegalState(Some(creation.error))))
                && (creation.Ok? && migrated.Err? ==> r == Err(migrated.error))
                && (creation.Ok? && migrated.Ok? && resolve(newTenantId).Err? && !MentionsAlreadyExists(resolve(newTenantId).error) ==>
                      r == Err(IllegalState(Some(AdminFailedMessage(request.tenantName)))))
      ensures r.Ok? <==> MatchesSlugPattern(request.slug) && !SlugTaken(old(master.tenants), request.slug) && '/' in datasourceUrl
                         && CreationOutcome(old(server.databases), ProvisionedDatabaseName(request.slug), faults).Ok?
                         && migrated.Ok? && !(resolve(newTenantId).Err? && !MentionsAlreadyExists(resolve(newTenantId).error))
      ensures r.Err? ==> master.tenants == old(master.tenants) && master.migrations == old(master.migrations) && users.users == old(users.users)
                         && tenantDbUsers == old(tenantDbUsers)
      ensures r.Ok? ==>
                var name := ProvisionedDatabaseName(request.slug);
                r.value == NewTenant(request, newTenantId, name, BuildTenantJdbcUrl(datasourceUrl, name).value)
                && master.tenants == old(master.tenants)[newTenantId := r.value]
                && master.migrations == old(master.migrations) + Records(newTenantId, NewVersions(old(master.migrations), newTenantId,
                                                           Present(AppliedVersions(migrated.value))), MigrationSucceeded)
      ensures r.Ok? && resolve(newTenantId).Ok? && !EmailTaken(old(users.users), resolve(newTenantId).value, DefaultAdminEmail(request.adminEmail, request.slug)) ==>
                users.users == old(users.users)[newUserId := TenantUser(newUserId, resolve(newTenantId).value,
                  DefaultAdminEmail(request.adminEmail, request.slug), encode(DefaultAdminPassword), DefaultAdminRole, true, None)]
      ensures r.Ok? && !(resolve(newTenantId).Ok? && !EmailTaken(old(users.users), resolve(newTenantId).value, DefaultAdminEmail(request.adminEmail, request.slug))) ==>
                users.users == old(users.users)
      ensures r.Ok? ==> AdminProfileWritten(old(tenantDbUsers), tenantDbUsers, r.value, DefaultAdminEmail(request.adminEmail, request.slug),
                                            newUserId, old(users.users), resolve(newTenantId), insertSucceeds)
      ensures UniqueSlugs(old(master.tenants)) ==> UniqueSlugs(master.tenants)
    {
      var invalid := ValidateSlug(request.slug);
      if invalid.Some? {
        return Err(invalid.value);
      }
      if SlugTaken(master.tenants, request.slug) {
        return Err(ResponseStatus(409, Some(SlugInUseMessage(request.slug))));
      }
      var databaseName := ProvisionedDatabaseName(request.slug);
      var jdbcUrl := BuildTenantJdbcUrl(datasourceUrl, databaseName);
      if jdbcUrl.Err? {
        return Err(IllegalState(Some(jdbcUrl.error)));
      }
      var tenant := NewTenant(request, newTenantId, databaseName, jdbcUrl.value);
      var created := server.CreateDatabaseIfNotExists(databaseName, faults);
      if created.Err? {
        return Err(IllegalState(Some(created.error)));
      }
      if migrated.Err? {
        return Err(migrated.error);
      }
      var appliedVersions := AppliedVersions(migrated.value);
      var savedTenants, savedMigrations, savedUsers := master.tenants, master.migrations, users.users;
      master.tenants := master.tenants[newTenantId := tenant];
      master.RecordMigrations(newTenantId, Present(appliedVersions), MigrationSucceeded);
      var failure, userId := CreateDefaultTenantAdmin(tenant, request.adminEmail, newUserId, resolve, encode, insertSucceeds);
      if failure.Some? {
        // the transaction's rollback
        master.tenants, master.migrations := savedTenants, savedMigrations;
        users.users := savedUsers;
        return Err(failure.value);
      }
      return Ok(tenant);
    }

    /** `updateStatus`: 404 for an unknown tenant; otherwise only the status changes. */
    method UpdateStatus(tenantId: string, status: Option<string>) returns (r: Result<Tenant, ServiceException>)
      modifies master
      ensures tenantId !in old(master.tenants) ==>
                r == Err(ResponseStatus(404, Some(TenantNotFoundMessage(tenantId)))) && master.tenants == old(master.tenants)
      ensures tenantId in old(master.tenants) ==>
                r == Ok(old(master.tenants)[tenantId].(status := StatusOrDefault(status))) && master.tenants == old(master.tenants)[tenantId := r.value]
      ensures master.migrations == old(master.migrations)
      ensures UniqueSlugs(old(master.tenants)) ==> UniqueSlugs(master.tenants)
    {
      if tenantId !in master.tenants {
        return Err(ResponseStatus(404, Some(TenantNotFoundMessage(tenantId))));
      }
      var tenant := master.tenants[tenantId].(status := StatusOrDefault(status));
      master.tenants := master.tenants[tenantId := tenant];
      return Ok(tenant);
    }

    /** `runMigrations`: 404 for an unknown tenant; otherwise the tenant database is migrated
        (`migrated` is the tool's report) and the new versions recorded. */
    method RunMigrations(tenantId: string, migrated: Result<seq<Option<string>>, ServiceException>)
      returns (r: Result<seq<string>, ServiceException>)
      modifies master
      ensures tenantId !in old(master.tenants) ==> r == Err(ResponseStatus(404, Some(TenantNotFoundMessage(tenantId))))
      ensures tenantId in old(master.tenants) && migrated.Err? ==> r == Err(migrated.error)
      ensures r.Err? ==> master.migrations == old(master.migrations)
      ensures r.Ok? ==> tenantId in old(master.tenants) && migrated.Ok? && r.value == AppliedVersions(migrated.value)
                        && master.migrations == old(master.migrations) + Records(tenantId, NewVersions(old(master.migrations), tenantId, Present(r.value)), MigrationSucceeded)
      ensures master.tenants == old(master.tenants)
    {
      if tenantId !in master.tenants {
        return Err(ResponseStatus(404, Some(TenantNotFoundMessage(tenantId))));
      }
      if migrated.Err? {
        return Err(migrated.error);
      }
      var versions := AppliedVersions(migrated.value);
      master.RecordMigrations(tenantId, Present(versions), MigrationSucceeded);
      return Ok(versions);
    }

    /** `createUserInTenantDatabase`: an upsert of the admin's profile into the tenant database.
        A failure (the insert failing, or the first-name extraction throwing) is swallowed. */
    method CreateUserInTenantDatabase(tenant: Tenant, userId: string, email: string, insertSucceeds: bool)
      modifies this
      ensures FirstNameFromEmail(email).Some? && insertSucceeds ==>
                tenantDbUsers == old(tenantDbUsers)[(tenant.databaseName, userId) :=
                  TenantDbUser(tenant.slug, email, FirstNameFromEmail(email).value, AdminLastName, true, true)]
      ensures FirstNameFromEmail(email).None? || !insertSucceeds ==> tenantDbUsers == old(tenantDbUsers)
    {
      var firstName := FirstNameFromEmail(email);
      if firstName.None? || !insertSucceeds {
        return;
      }
      tenantDbUsers := tenantDbUsers[(tenant.databaseName, userId) := TenantDbUser(tenant.slug, email, firstName.value, AdminLastName, true, true)];
    }

    /** `createDefaultTenantAdmin`: the admin login in the master database, then its profile in
        the tenant database. A duplicate is looked up instead; any other failure is fatal. */
    method CreateDefaultTenantAdmin(tenant: Tenant, adminEmail: Option<string>, newUserId: string,
                                    resolve: string -> Result<string, ServiceException>, encode: string -> string,
                                    insertSucceeds: bool)
      returns (failure: Option<ServiceException>, userId: Option<string>)
      requires newUserId !in users.users && KeyedById(users.users)
      modifies this, users
      ensures var email := DefaultAdminEmail(adminEmail, tenant.slug);
              var resolved := resolve(tenant.tenantId);
              && (resolved.Err? && !MentionsAlreadyExists(resolved.error) ==>
                    failure == Some(IllegalState(Some(AdminFailedMessage(tenant.tenantName)))) && users.users == old(users.users))
              && (resolved.Err? && MentionsAlreadyExists(resolved.error) ==>
                    failure.None? && userId.None? && users.users == old(users.users))
              && (resolved.Ok? && EmailTaken(old(users.users), resolved.value, email) ==>
                    failure.None? && userId.Some? && userId.value in users.users && users.users == old(users.users)
                    && users.users[userId.value].tenantId == resolved.value && users.users[userId.value].email == email)
              && (resolved.Ok? && !EmailTaken(old(users.users), resolved.value, email) ==>
                    failure.None? && userId == Some(newUserId)
                    && users.users == old(users.users)[newUserId := TenantUser(newUserId, resolved.value, email, encode(DefaultAdminPassword),
                                                                             DefaultAdminRole, true, None)])
      ensures userId.Some? && FirstNameFromEmail(DefaultAdminEmail(adminEmail, tenant.slug)).Some? && insertSucceeds ==>
                tenantDbUsers == old(tenantDbUsers)[(tenant.databaseName, userId.value) :=
                  TenantDbUser(tenant.slug, DefaultAdminEmail(adminEmail, tenant.slug),
                               FirstNameFromEmail(DefaultAdminEmail(adminEmail, tenant.slug)).value, AdminLastName, true, true)]
      ensures userId.None? || FirstNameFromEmail(DefaultAdminEmail(adminEmail, tenant.slug)).None? || !insertSucceeds ==>
                tenantDbUsers == old(tenantDbUsers)
      ensures failure.Some? ==> userId.None? && tenantDbUsers == old(tenantDbUsers)
    {
      var email := DefaultAdminEmail(adminEmail, tenant.slug);
      var created := users.CreateTenantUser(UserRequest(tenant.tenantId, email, DefaultAdminPassword, DefaultAdminRole, Some(true)),
                                            newUserId, resolve, encode);
      userId := None;
      if created.Ok? {
        userId := Some(created.value.userId);
      } else {
        var resolved := resolve(tenant.tenantId);
        if resolved.Ok? {
          DuplicateMessageMentionsExists(email);
        }
        if !MentionsAlreadyExists(created.error) {
          return Some(IllegalState(Some(AdminFailedMessage(tenant.tenantName)))), None;
        }
        var existing := users.GetTenantUserByEmail(tenant.tenantId, email, resolve);
        if existing.Ok? {
          userId := Some(existing.value.userId);
        }
      }
      if userId.Some? {
        CreateUserInTenantDatabase(tenant, userId.value, email, insertSucceeds);
      }
      return None, userId;
    }
  }

  // ----------------------------------------------------------------- lemmas

  /** The duplicate-user message of the user service mentions "already exists". */
  lemma DuplicateMessageMentionsExists(email: string)
    ensures MentionsAlreadyExists(IllegalArgument(Some(DuplicateUserMessage(email))))
  {
    ContainsInfix("User with email ", "already exists", " for this tenant: " + email);
    assert "User with email " + "already exists" + (" for this tenant: " + email) == DuplicateUserMessage(email);
  }
}
