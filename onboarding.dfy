/** Tenant onboarding with the identity provider (`TenantOnboardingService`): a Keycloak group,
    the tenant database, the tenant record and an admin user, created in that order, with
    compensation of what was created when a later step fails, and the classification of the
    step that failed. The identity provider's answers and the database's failures are oracles
    collected in `Outcomes`; its groups, users and memberships are the fields of `Realm`. */
module Onboarding {
  import opened Common
  import opened Exceptions
  import opened TenantNaming
  import opened TenantDatabaseManager
  import opened MasterData

  const DefaultAdminPassword := "TempPassword123!"
  const DefaultFirstName := "Admin"
  const DefaultLastName := "User"
  /** A group id that stands for "no group was created". */
  const SkippedGroup := "SKIPPED"
  const NotImplementedMessage := "createUserForTenant method is temporarily disabled. Use main tenant creation with adminUser instead."

  datatype AdminUser = AdminUser(email: string, password: string, firstName: string, lastName: string, emailVerified: Option<bool>)

  /** `CreateTenantRequest`; bean validation has already rejected blank names and slugs. */
  datatype CreateTenantRequest = CreateTenantRequest(tenantName: string, slug: string, subscriptionTier: string,
                                                     maxUsers: int, maxStorageGb: int,
                                                     adminUser: Option<AdminUser>, adminEmail: Option<string>)

  datatype OnboardingResponse = OnboardingResponse(tenantId: string, tenantName: string, slug: string, groupId: Option<string>,
                                                   databaseName: string, databaseConnectionString: string, status: string,
                                                   adminUserId: Option<string>, adminEmail: string)

  /** What the outside world answers during one run: the identity provider's calls, the
      migration tool, the tenant-record insert and the three compensations. The answer to the
      user creation may depend on the `emailVerified` flag sent with it. */
  datatype Outcomes = Outcomes(createGroup: Result<Option<string>, ServiceException>,
                               databaseFaults: ServerFaults,
                               migrated: Result<seq<Option<string>>, ServiceException>,
                               saveFailure: Option<ServiceException>,
                               createUser: bool -> Result<Option<string>, ServiceException>,
                               userVerified: bool,
                               assignFailure: Option<ServiceException>,
                               deleteRecordFails: bool, deleteUserFails: bool, deleteGroupFails: bool)

  /** The tenant record as the failure handler sees it: built, and saved (so carrying an id) or not. */
  datatype Entity = Entity(tenant: Tenant, saved: bool)

  /** How far the steps inside the `try` got: the exception that ended them, if any, and the
      three locals the failure handler inspects. */
  datatype Reach = Reach(failure: Option<ServiceException>, groupId: Option<string>, userId: Option<string>, entity: Option<Entity>)

  datatype Compensation = DeleteRecord(tenantId: string) | DeleteUser(userId: string) | DeleteGroup(groupId: string)

  const DuplicateSlugPrefix := "Tenant with slug '"
  const DuplicateSlugSuffix := "' already exists"

  function DuplicateSlugMessage(slug: string): string { DuplicateSlugPrefix + slug + DuplicateSlugSuffix }

  const GroupDescriptionPrefix := "Tenant group for "

  function GroupDescription(tenantName: string): string { GroupDescriptionPrefix + tenantName }

  const UnverifiedUserPrefix := "User verification failed: User does not exist in Keycloak with ID: "

  function UnverifiedUserMessage(userId: Option<string>): string {
    UnverifiedUserPrefix + Str(userId)
  }

  const FailureDetailPrefix := "Tenant onboarding failed: "

  function FailureDetail(ex: ServiceException): string { FailureDetailPrefix + Str(MessageOf(ex)) }

  /** The exceptions rethrown as they are, with no compensation. */
  predicate Expected(ex: ServiceException) {
    ex.OrganizationAlreadyExists? || ex.UserAlreadyExists? || ex.ResponseStatus?
  }

  /** The admin user of a request: the one given, else one built from `adminEmail` (or
      `admin@<slug>.local` when that is blank) with the default password and names. */
  function AdminUserFor(request: CreateTenantRequest): (a: AdminUser)
    ensures request.adminUser.Some? ==> a == request.adminUser.value
    ensures request.adminUser.None? ==>
              a.password == DefaultAdminPassword && a.firstName == DefaultFirstName && a.lastName == DefaultLastName
              && a.emailVerified == Some(true)
              && (request.adminEmail.Some? && !IsBlank(request.adminEmail.value) ==> a.email == request.adminEmail.value)
  {
    if request.adminUser.Some? then request.adminUser.value
    else
      var email := if request.adminEmail.None? || IsBlank(request.adminEmail.value) then DefaultEmail(request.slug)
                   else request.adminEmail.value;
      AdminUser(email, DefaultAdminPassword, DefaultFirstName, DefaultLastName, Some(true))
  }

  /** The `emailVerified()` accessor of the admin user record: a missing flag reads as false. */
  function EmailVerified(a: AdminUser): (b: bool)
    ensures b <==> a.emailVerified == Some(true)
  {
    if a.emailVerified.Some? then a.emailVerified.value else false
  }

  function DefaultEmail(slug: string): string { "admin@" + slug + ".local" }

  /** The record the run saves. */
  function OnboardedTenant(request: CreateTenantRequest, tenantId: string, databaseName: string, jdbcUrl: string): Tenant {
    Tenant(tenantId, request.tenantName, request.slug, DefaultStatus, Some(request.subscriptionTier), jdbcUrl, databaseName,
           Some(request.maxUsers), Some(request.maxStorageGb))
  }

  /** The steps inside the `try`, run on a valid slug: where they stop and with what. */
  function Reached(request: CreateTenantRequest, tenantId: string, datasourceUrl: string, databases: set<string>, out: Outcomes): Reach
    requires MatchesSlugPattern(request.slug)
  {
    if out.createGroup.Err? then Reach(Some(out.createGroup.error), None, None, None)
    else
      var groupId := out.createGroup.value;
      var name := ProvisionedDatabaseName(request.slug);
      var jdbcUrl := BuildTenantJdbcUrl(datasourceUrl, name);
      if jdbcUrl.Err? then Reach(Some(IllegalState(Some(jdbcUrl.error))), groupId, None, None)
      else if CreationOutcome(databases, name, out.databaseFaults).Err? then
        Reach(Some(IllegalState(Some(CreationOutcome(databases, name, out.databaseFaults).error))), groupId, None, None)
      else if out.migrated.Err? then Reach(Some(out.migrated.error), groupId, None, None)
      else
        var tenant := OnboardedTenant(request, tenantId, name, jdbcUrl.value);
        if out.saveFailure.Some? then Reach(out.saveFailure, groupId, None, Some(Entity(tenant, false)))
        else
          AdminSteps(request, groupId, Some(Entity(tenant, true)), out)
  }

  /** The steps after the record is saved: the admin user is created and verified, then
      assigned to the group. */
  function AdminSteps(request: CreateTenantRequest, groupId: Option<string>, entity: Option<Entity>, out: Outcomes): Reach {
    var created := out.createUser(EmailVerified(AdminUserFor(request)));
    if created.Err? then Reach(Some(created.error), groupId, None, entity)
    else
      var userId := created.value;
      if !out.userVerified then Reach(Some(Keycloak(Some(UnverifiedUserMessage(userId)))), groupId, userId, entity)
      else Reach(out.assignFailure, groupId, userId, entity)
  }

  /** `determineFailedStep`. */
  function DetermineFailedStep(groupId: Option<string>, userId: Option<string>, entity: Option<Entity>): (step: OnboardingStep)
    ensures step == KeycloakOrgCreation <==> groupId.None?
    ensures step == DatabaseCreation <==> groupId.Some? && entity.None?
    ensures step == UserCreation <==> groupId.Some? && entity.Some? && userId.None?
    ensures step == UserOrgAssignment <==> groupId.Some? && entity.Some? && userId.Some?
  {
    if groupId.None? then KeycloakOrgCreation
    else if entity.None? then DatabaseCreation
    else if userId.None? then UserCreation
    else UserOrgAssignment
  }

  /** The compensations `performRollback` attempts, in order: the record when it was saved, the
      user when one was created, the group when one was created and is not the placeholder. */
  function Compensations(groupId: Option<string>, userId: Option<string>, entity: Option<Entity>): seq<Compensation> {
    (if entity.Some? && entity.value.saved then [DeleteRecord(entity.value.tenant.tenantId)] else [])
    + (if userId.Some? then [DeleteUser(userId.value)] else [])
    + (if groupId.Some? && groupId.value != SkippedGroup then [DeleteGroup(groupId.value)] else [])
  }

  /** `createUserForTenant`: disabled, always 501. */
  function CreateUserForTenant(tenantAlias: string, email: string): (r: Result<(), ServiceException>)
    ensures r.Err? && StatusOf(r.error) == 501
  {
    Err(ResponseStatus(501, Some(NotImplementedMessage)))
  }

  function Opt(o: Option<string>): set<string> {
    if o.Some? then {o.value} else {}
  }

  /** The membership a complete run adds. */
  function Membership(groupId: Option<string>, userId: Option<string>): set<(string, string)> {
    if groupId.Some? && userId.Some? then {(groupId.value, userId.value)} else {}
  }

  /** The tenant database the steps create: once the group exists, the URL has a '/' and the
      server creates it or already has it. No compensation drops it. */
  function DatabasesCreated(slug: string, datasourceUrl: string, databases: set<string>, out: Outcomes): set<string>
    requires MatchesSlugPattern(slug)
  {
    if out.createGroup.Ok? && DatabaseReady(slug, datasourceUrl, databases, out) then {ProvisionedDatabaseName(slug)} else {}
  }

  /** The tenant database exists after step 2: the URL has a '/' and the server creates the
      database or already has it. */
  predicate DatabaseReady(slug: string, datasourceUrl: string, databases: set<string>, out: Outcomes)
    requires MatchesSlugPattern(slug)
  {
    '/' in datasourceUrl && CreationOutcome(databases, ProvisionedDatabaseName(slug), out.databaseFaults).Ok?
  }

  /** The group the compensation deletes: a real one whose deletion does not fail. */
  function GroupRemoved(groupId: Option<string>, out: Outcomes): set<string> {
    if groupId.Some? && groupId.value != SkippedGroup && !out.deleteGroupFails then {groupId.value} else {}
  }

  /** The user the compensation deletes, unless the deletion fails. */
  function UserRemoved(userId: Option<string>, out: Outcomes): set<string> {
    if userId.Some? && !out.deleteUserFails then {userId.value} else {}
  }

  /** The identity provider's realm. */
  class Realm {
    var groups: set<string>
    var users: set<string>
    /** (group id, user id) memberships. */
    var members: set<(string, string)>

    constructor(groups: set<string>, users: set<string>, members: set<(string, string)>)
      ensures this.groups == groups && this.users == users && this.members == members
    {
      this.groups := groups;
      this.users := users;
      this.members := members;
    }
  }

  class TenantOnboardingService {
    const master: MasterDatabase
    const server: DatabaseServer
    const realm: Realm
    const datasourceUrl: string

    constructor(datasourceUrl: string, master: MasterDatabase, server: DatabaseServer, realm: Realm)
      ensures this.datasourceUrl == datasourceUrl && this.master == master && this.server == server && this.realm == realm
    {
      this.datasourceUrl := datasourceUrl;
      this.master := master;
      this.server := server;
      this.realm := realm;
    }

    /** The body of the `try` in `createTenant`, stopping at the first exception. */
    method RunSteps(request: CreateTenantRequest, tenantId: string, out: Outcomes) returns (reach: Reach)
      requires MatchesSlugPattern(request.slug)
      modifies master, server, realm
      ensures reach == Reached(request, tenantId, datasourceUrl, old(server.databases), out)
      ensures realm.groups == old(realm.groups) + Opt(reach.groupId)
      ensures realm.users == old(realm.users) + Opt(reach.userId)
      ensures realm.members == old(realm.members) + (if reach.failure.None? then Membership(reach.groupId, reach.userId) else {})
      ensures server.databases == old(server.databases) + DatabasesCreated(request.slug, datasourceUrl, old(server.databases), out)
      ensures reach.entity.Some? && reach.entity.value.saved ==>
                master.tenants == old(master.tenants)[tenantId := reach.entity.value.tenant]
                && master.migrations == old(master.migrations)
                   + Records(tenantId, NewVersions(old(master.migrations), tenantId, Present(AppliedVersions(out.migrated.value))), MigrationSucceeded)
      ensures !(reach.entity.Some? && reach.entity.value.saved) ==>
                master.tenants == old(master.tenants) && master.migrations == old(master.migrations)
    {
      if out.createGroup.Err? {
        return Reach(Some(out.createGroup.error), None, None, None);
      }
      var groupId := out.createGroup.value;
      realm.groups := realm.groups + Opt(groupId);
      var databaseName := ProvisionedDatabaseName(request.slug);
      var jdbcUrl := BuildTenantJdbcUrl(datasourceUrl, databaseName);
      if jdbcUrl.Err? {
        return Reach(Some(IllegalState(Some(jdbcUrl.error))), groupId, None, None);
      }
      var created := server.CreateDatabaseIfNotExists(databaseName, out.databaseFaults);
      if created.Err? {
        return Reach(Some(IllegalState(Some(created.error))), groupId, None, None);
      }
      if out.migrated.Err? {
        return Reach(Some(out.migrated.error), groupId, None, None);
      }
      var appliedVersions := AppliedVersions(out.migrated.value);
      var tenant := OnboardedTenant(request, tenantId, databaseName, jdbcUrl.value);
      if out.saveFailure.Some? {
        return Reach(out.saveFailure, groupId, None, Some(Entity(tenant, false)));
      }
      master.tenants := master.tenants[tenantId := tenant];
      master.RecordMigrations(tenantId, Present(appliedVersions), MigrationSucceeded);
      reach := CreateAdmin(request, groupId, Some(Entity(tenant, true)), out);
    }

    /** The admin user's creation, verification and assignment to the group. */
    method CreateAdmin(request: CreateTenantRequest, groupId: Option<string>, entity: Option<Entity>, out: Outcomes)
      returns (reach: Reach)
      modifies realm
      ensures reach == AdminSteps(request, groupId, entity, out)
      ensures realm.groups == old(realm.groups)
      ensures realm.users == old(realm.users) + Opt(reach.userId)
      ensures realm.members == old(realm.members) + (if reach.failure.None? then Membership(groupId, reach.userId) else {})
    {
      var admin := AdminUserFor(request);
      var created := out.createUser(EmailVerified(admin));
      if created.Err? {
        return Reach(Some(created.error), groupId, None, entity);
      }
      var userId := created.value;
      realm.users := realm.users + Opt(userId);
      if !out.userVerified {
        return Reach(Some(Keycloak(Some(UnverifiedUserMessage(userId)))), groupId, userId, entity);
      }
      if out.assignFailure.Some? {
        return Reach(out.assignFailure, groupId, userId, entity);
      }
      if groupId.Some? && userId.Some? {
        realm.members := realm.members + {(groupId.value, userId.value)};
      }
      return Reach(None, groupId, userId, entity);
    }

    /** `performRollback`: every compensation is attempted, in order, whatever the earlier ones
        did; a failing one leaves its object in place. */
    method PerformRollback(groupId: Option<string>, userId: Option<string>, entity: Option<Entity>, out: Outcomes)
      returns (attempted: seq<Compensation>)
      modifies master, realm
      ensures attempted == Compensations(groupId, userId, entity)
      ensures master.tenants == if entity.Some? && entity.value.saved && !out.deleteRecordFails
                                then old(master.tenants) - {entity.value.tenant.tenantId} else old(master.tenants)
      ensures realm.users == old(realm.users) - UserRemoved(userId, out)
      ensures realm.groups == old(realm.groups) - GroupRemoved(groupId, out)
      ensures master.migrations == old(master.migrations) && realm.members == old(realm.members)
    {
      attempted := [];
      if entity.Some? && entity.value.saved {
        attempted := attempted + [DeleteRecord(entity.value.tenant.tenantId)];
        if !out.deleteRecordFails {
          master.tenants := master.tenants - {entity.value.tenant.tenantId};
        }
      }
      if userId.Some? {
        attempted := attempted + [DeleteUser(userId.value)];
        if !out.deleteUserFails {
          realm.users := realm.users - {userId.value};
        }
      }
      if groupId.Some? && groupId.value != SkippedGroup {
        attempted := attempted + [DeleteGroup(groupId.value)];
        if !out.deleteGroupFails {
          realm.groups := realm.groups - {groupId.value};
        }
      }
    }

    /** `createTenant`: one transaction on the master database, so every exception leaves the
        master tables as they were. An invalid slug gives 400 and a slug in use 409 before
        anything is created; an expected exception from the steps is rethrown with nothing
        compensated; any other one is compensated and reported with the step that failed. */
    method CreateTenant(request: CreateTenantRequest, tenantId: string, out: Outcomes)
      returns (r: Result<OnboardingResponse, ServiceException>, attempted: seq<Compensation>)
      requires tenantId !in master.tenants
      modifies master, server, realm
      ensures !MatchesSlugPattern(request.slug) || SlugTaken(old(master.tenants), request.slug) ==>
                attempted == [] && realm.groups == old(realm.groups) && realm.users == old(realm.users)
                && realm.members == old(realm.members) && server.databases == old(server.databases)
      ensures !MatchesSlugPattern(request.slug) ==> r == Err(ResponseStatus(400, Some(InvalidSlugMessage)))
      ensures MatchesSlugPattern(request.slug) && SlugTaken(old(master.tenants), request.slug) ==>
                r == Err(ResponseStatus(409, Some(DuplicateSlugMessage(request.slug))))
      ensures MatchesSlugPattern(request.slug) && !SlugTaken(old(master.tenants), request.slug) ==>
                server.databases == old(server.databases) + DatabasesCreated(request.slug, datasourceUrl, old(server.databases), out)
      ensures MatchesSlugPattern(request.slug) && !SlugTaken(old(master.tenants), request.slug) ==>
                var reach := Reached(request, tenantId, datasourceUrl, old(server.databases), out);
                && (reach.failure.None? ==>
                      r.Ok? && r.value.tenantId == tenantId && r.value.groupId == reach.groupId && r.value.adminUserId == reach.userId
                      && r.value.adminEmail == AdminUserFor(request).email && attempted == []
                      && realm.groups == old(realm.groups) + Opt(reach.groupId) && realm.users == old(realm.users) + Opt(reach.userId)
                      && realm.members == old(realm.members) + Membership(reach.groupId, reach.userId))
                && (reach.failure.Some? && Expected(reach.failure.value) ==>
                      r == Err(reach.failure.value) && attempted == []
                      && realm.groups == old(realm.groups) + Opt(reach.groupId) && realm.users == old(realm.users) + Opt(reach.userId)
                      && realm.members == old(realm.members))
                && (reach.failure.Some? && !Expected(reach.failure.value) ==>
                      r == Err(TenantOnboarding(request.slug, DetermineFailedStep(reach.groupId, reach.userId, reach.entity),
                                                FailureDetail(reach.failure.value)))
                      && attempted == Compensations(reach.groupId, reach.userId, reach.entity)
                      && realm.groups == old(realm.groups) + Opt(reach.groupId) - GroupRemoved(reach.groupId, out)
                      && realm.users == old(realm.users) + Opt(reach.userId) - UserRemoved(reach.userId, out)
                      && realm.members == old(realm.members))
      ensures r.Err? ==> master.tenants == old(master.tenants) && master.migrations == old(master.migrations)
      ensures r.Ok? ==> master.tenants == old(master.tenants)[tenantId := Reached(request, tenantId, datasourceUrl, old(server.databases), out).entity.value.tenant]
      ensures r.Ok? ==> master.migrations == old(master.migrations)
                          + Records(tenantId, NewVersions(old(master.migrations), tenantId, Present(AppliedVersions(out.migrated.value))), MigrationSucceeded)
    {
      attempted := [];
      var invalid := ValidateSlug(request.slug);
      if invalid.Some? {
        return Err(invalid.value), [];
      }
      var admin := AdminUserFor(request);
      if SlugTaken(master.tenants, request.slug) {
        return Err(ResponseStatus(409, Some(DuplicateSlugMessage(request.slug)))), [];
      }
      var savedTenants, savedMigrations := master.tenants, master.migrations;
      var reach := RunSteps(request, tenantId, out);
      if reach.failure.None? {
        var tenant := reach.entity.value.tenant;
        return Ok(OnboardingResponse(tenantId, tenant.tenantName, tenant.slug, reach.groupId, tenant.databaseName,
                                     tenant.databaseConnectionString, tenant.status, reach.userId, admin.email)), [];
      }
      var failure := reach.failure.value;
      if Expected(failure) {
        master.tenants, master.migrations := savedTenants, savedMigrations;
        return Err(failure), [];
      }
      attempted := PerformRollback(reach.groupId, reach.userId, reach.entity, out);
      var step := DetermineFailedStep(reach.groupId, reach.userId, reach.entity);
      // the exception leaving the method rolls the transaction back
      master.tenants, master.migrations := savedTenants, savedMigrations;
      return Err(TenantOnboarding(request.slug, step, FailureDetail(failure))), attempted;
    }
  }

  // ----------------------------------------------------------------- lemmas

  /** The failed step, by where the steps stopped. A group created with no id is reported as a
      group failure whatever failed later, and a failing record insert is reported as a
      user-creation failure. */
  lemma FailedStepByFailurePoint(request: CreateTenantRequest, tenantId: string, datasourceUrl: string,
                                 databases: set<string>, out: Outcomes)
    requires MatchesSlugPattern(request.slug)
    ensures var reach := Reached(request, tenantId, datasourceUrl, databases, out);
            var step := DetermineFailedStep(reach.groupId, reach.userId, reach.entity);
            && (out.createGroup.Err? || out.createGroup == Ok(None) ==> step == KeycloakOrgCreation)
            && (out.createGroup.Ok? && out.createGroup.value.Some? ==>
                  && (!DatabaseReady(request.slug, datasourceUrl, databases, out) || out.migrated.Err? ==> step == DatabaseCreation)
                  && (DatabaseReady(request.slug, datasourceUrl, databases, out) && out.migrated.Ok? && out.saveFailure.Some? ==>
                        step == UserCreation)
                  && (DatabaseReady(request.slug, datasourceUrl, databases, out) && out.migrated.Ok? && out.saveFailure.None?
                      && reach.failure.Some? ==>
                        (step == UserCreation <==> reach.userId.None?)
                        && (step == UserOrgAssignment <==> reach.userId.Some?)))
  {
  }

  /** The steps fail exactly when one of the outcomes is a failure, and a complete run has a
      group, a saved record and an admin that was verified and assigned. */
  lemma RunSucceedsIffEveryStepDoes(request: CreateTenantRequest, tenantId: string, datasourceUrl: string,
                                     databases: set<string>, out: Outcomes)
    requires MatchesSlugPattern(request.slug)
    ensures var reach := Reached(request, tenantId, datasourceUrl, databases, out);
            reach.failure.None? <==>
              out.createGroup.Ok? && DatabaseReady(request.slug, datasourceUrl, databases, out) && out.migrated.Ok? && out.saveFailure.None?
              && out.createUser(EmailVerified(AdminUserFor(request))).Ok? && out.userVerified && out.assignFailure.None?
    ensures var reach := Reached(request, tenantId, datasourceUrl, databases, out);
            reach.failure.None? ==> reach.entity.Some? && reach.entity.value.saved && reach.entity.value.tenant.tenantId == tenantId
  {
  }

  /** Compensation runs record, then user, then group, each at most once, and never deletes
      the placeholder group. */
  lemma CompensationOrder(groupId: Option<string>, userId: Option<string>, entity: Option<Entity>)
    ensures var c := Compensations(groupId, userId, entity);
            && |c| <= 3
            && (forall i, j :: 0 <= i < j < |c| ==> Rank(c[i]) < Rank(c[j]))
            && DeleteGroup(SkippedGroup) !in c
  {
  }

  function Rank(c: Compensation): nat {
    match c
    case DeleteRecord(_) => 0
    case DeleteUser(_) => 1
    case DeleteGroup(_) => 2
  }

  /** Everything the steps created before an unexpected failure is compensated: the saved
      record, the admin user, and the group unless it is the placeholder; nothing else is. */
  lemma CreatedIsCompensated(request: CreateTenantRequest, tenantId: string, datasourceUrl: string,
                              databases: set<string>, out: Outcomes)
    requires MatchesSlugPattern(request.slug)
    ensures var reach := Reached(request, tenantId, datasourceUrl, databases, out);
            var c := Compensations(reach.groupId, reach.userId, reach.entity);
            && (DeleteRecord(tenantId) in c <==> reach.entity.Some? && reach.entity.value.saved)
            && (forall u :: DeleteUser(u) in c <==> reach.userId == Some(u))
            && (forall g :: DeleteGroup(g) in c <==> reach.groupId == Some(g) && g != SkippedGroup)
            && (out.createGroup.Err? ==> c == [])
  {
    var reach := Reached(request, tenantId, datasourceUrl, databases, out);
    assert reach.entity.Some? ==> reach.entity.value.tenant.tenantId == tenantId;
    CompensationsListCreated(reach.groupId, reach.userId, reach.entity);
  }

  /** What `Compensations` lists, one kind of compensation at a time. */
  lemma CompensationsListCreated(groupId: Option<string>, userId: Option<string>, entity: Option<Entity>)
    ensures var c := Compensations(groupId, userId, entity);
            && (forall t :: DeleteRecord(t) in c <==> entity.Some? && entity.value.saved && entity.value.tenant.tenantId == t)
            && (forall u :: DeleteUser(u) in c <==> userId == Some(u))
            && (forall g :: DeleteGroup(g) in c <==> groupId == Some(g) && g != SkippedGroup)
            && (groupId.None? && userId.None? && entity.None? ==> c == [])
  {
  }

  /** A request without an admin user gets the default one, its e-mail falling back to
      `admin@<slug>.local`; a given e-mail is used as it is, neither trimmed nor lower-cased. */
  lemma DefaultAdminUser(request: CreateTenantRequest)
    requires request.adminUser.None?
    ensures var a := AdminUserFor(request);
            && (request.adminEmail.None? || IsBlank(request.adminEmail.value) ==> a.email == DefaultEmail(request.slug))
            && (request.adminEmail.Some? && !IsBlank(request.adminEmail.value) ==> a.email == request.adminEmail.value)
            && a == AdminUser(a.email, DefaultAdminPassword, DefaultFirstName, DefaultLastName, Some(true))
  {
  }
}
