/** The tenant service's REST controller (`TenantController`) where it decides something
    itself: tenant lookups that answer 404, the report of a migration run, and the
    validation and status mapping of the manual assign-user endpoint. */
module TenantController {
  import opened Common
  import opened Exceptions
  import opened TenantDatabaseManager
  import opened MasterData
  import opened Provisioning
  import opened IdentifierResolver

  // ------------------------------------------------------------------ lookups

  /** A lookup's answer: 200 with the tenant, or an empty 404. */
  datatype Lookup = Found(tenant: Tenant) | NotFound

  function LookupStatus(r: Lookup): int {
    if r.Found? then 200 else 404
  }

  /** `getTenantById`. */
  function GetTenantById(tenants: map<string, Tenant>, tenantId: string): (r: Lookup)
    ensures r.Found? <==> tenantId in tenants
    ensures r.Found? ==> r.tenant == tenants[tenantId]
  {
    if tenantId in tenants then Found(tenants[tenantId]) else NotFound
  }

  /** `getTenantBySlug`. */
  function GetTenantBySlug(tenants: map<string, Tenant>, slug: string): (r: Lookup)
    requires UniqueSlugs(tenants)
    ensures r.Found? <==> SlugTaken(tenants, slug)
    ensures r.Found? ==> r.tenant.slug == slug && r.tenant.tenantId in tenants && tenants[r.tenant.tenantId] == r.tenant
  {
    var found := FindBySlug(tenants, slug);
    if found.Some? then Found(found.value) else NotFound
  }

  /** A stored tenant is found under its id and under its slug alike; a missing one is
      404 both ways. */
  lemma LookupsAgree(tenants: map<string, Tenant>, tenantId: string)
    requires UniqueSlugs(tenants)
    requires forall id :: id in tenants ==> tenants[id].tenantId == id
    ensures tenantId in tenants ==>
      GetTenantById(tenants, tenantId) == GetTenantBySlug(tenants, tenants[tenantId].slug)
    ensures LookupStatus(GetTenantById(tenants, tenantId)) == 404 <==> tenantId !in tenants
  {
    if tenantId in tenants {
      var slug := tenants[tenantId].slug;
      assert SlugTaken(tenants, slug);
      var r := GetTenantBySlug(tenants, slug);
      assert r.tenant.tenantId in tenants && tenants[r.tenant.tenantId].slug == slug;
    }
  }

  // ----------------------------------------------------------- migration report

  /** The applied versions the report keeps: neither null nor blank. */
  function AppliedSet(applied: seq<string>): set<string> {
    set v | v in applied && !IsBlank(v)
  }

  /** The tenant's migration history restricted to the versions of this run. */
  function ReportedMigrations(history: seq<MigrationRecord>, tenantId: string, applied: set<string>): (r: seq<MigrationRecord>)
    ensures forall m :: m in r ==> m in history && m.tenantId == tenantId && m.version in applied
    ensures forall m :: m in history && m.tenantId == tenantId && m.version in applied ==> m in r
    ensures |r| <= |history|
  {
    if history == [] then []
    else
      var rest := ReportedMigrations(history[1..], tenantId, applied);
      var m := history[0];
      if m.tenantId == tenantId && m.version in applied then [m] + rest else rest
  }

  /** `runMigrations`: run the tenant's migrations through the provisioning service, then
      answer 202 with the history records whose version this run applied. */
  method RunMigrations(service: TenantProvisioningService, tenantId: string,
                       migrated: Result<seq<Option<string>>, ServiceException>)
    returns (r: Result<seq<MigrationRecord>, ServiceException>)
    modifies service.master
    ensures tenantId !in old(service.master.tenants) ==> r == Err(ResponseStatus(404, Some(TenantNotFoundMessage(tenantId))))
    ensures tenantId in old(service.master.tenants) && migrated.Err? ==> r == Err(migrated.error)
    ensures r.Ok? ==>
      (migrated.Ok? && tenantId in old(service.master.tenants)
        && service.master.migrations == old(service.master.migrations)
             + Records(tenantId, NewVersions(old(service.master.migrations), tenantId, Present(AppliedVersions(migrated.value))), MigrationSucceeded)
        && r.value == ReportedMigrations(service.master.migrations, tenantId, AppliedSet(AppliedVersions(migrated.value))))
  {
    var applied := service.RunMigrations(tenantId, migrated);
    if applied.Err? {
      return Err(applied.error);
    }
    var history := service.master.migrations;
    return Ok(ReportedMigrations(history, tenantId, AppliedSet(applied.value)));
  }

  /** After a run is recorded, its report holds a record for a version exactly when the
      run applied that version and it is not blank. */
  lemma ReportMatchesRun(migrations: seq<MigrationRecord>, tenantId: string, versions: seq<string>, v: string)
    ensures var after := migrations + Records(tenantId, NewVersions(migrations, tenantId, Present(versions)), MigrationSucceeded);
      (exists m :: m in ReportedMigrations(after, tenantId, AppliedSet(versions)) && m.version == v)
        <==> v in versions && !IsBlank(v)
  {
    var saved := NewVersions(migrations, tenantId, Present(versions));
    var after := migrations + Records(tenantId, saved, MigrationSucceeded);
    var report := ReportedMigrations(after, tenantId, AppliedSet(versions));
    if v in versions && !IsBlank(v) {
      var i :| 0 <= i < |versions| && versions[i] == v;
      if !Recorded(migrations, tenantId, v) {
        NewVersionsComplete(migrations, tenantId, Present(versions), i);
      }
      RecordedAfter(migrations, tenantId, saved, MigrationSucceeded, v);
      var k :| 0 <= k < |after| && after[k].tenantId == tenantId && after[k].version == v;
      assert after[k] in report;
    }
  }

  // ---------------------------------------------------------------- assign-user

  const SlugRequiredMessage := "Organization slug is required"
  const EmailRequiredMessage := "Valid user email is required"
  const AssignedMessage := "User successfully assigned to organization and verified"
  const NotAssignedMessage := "Failed to assign user to organization despite multiple attempts"
  const InternalErrorMessage := "Internal error during user assignment"

  /** The endpoint's answer: the JSON map it builds (its status, `success`, `message`, the
      `error` or `status` code and, for an exception, its message), or an exception that
      escapes to the global handler. */
  datatype AssignUserReply =
    | AssignUserReply(status: int, success: bool, message: string, code: string, error: Option<string>)
    | Escaped(ex: ServiceException)

  function ReplyStatus(r: AssignUserReply): int {
    if r.AssignUserReply? then r.status else StatusOf(r.ex)
  }

  /** `assignUserToOrganization`: the slug, then the email, are validated before the
      wrapper's `manuallyAssignUserToOrganization` is called; `outcome` is what that call
      returns, or the message of what it throws. A null message makes `Map.of` throw, so
      that answer comes from the global handler instead. */
  function AssignUser(slug: string, userEmail: string, outcome: Result<bool, Option<string>>): (r: AssignUserReply)
    ensures ReplyStatus(r) == 200 <==> !IsBlank(slug) && !IsBlank(userEmail) && '@' in userEmail && outcome == Ok(true)
    ensures IsBlank(slug) ==> r == AssignUserReply(400, false, SlugRequiredMessage, "INVALID_INPUT", None)
    ensures !IsBlank(slug) && (IsBlank(userEmail) || '@' !in userEmail) ==>
      r == AssignUserReply(400, false, EmailRequiredMessage, "INVALID_EMAIL", None)
    ensures r.AssignUserReply? ==> (r.success <==> r.status == 200)
  {
    if IsBlank(slug) then AssignUserReply(400, false, SlugRequiredMessage, "INVALID_INPUT", None)
    else if IsBlank(userEmail) || '@' !in userEmail then AssignUserReply(400, false, EmailRequiredMessage, "INVALID_EMAIL", None)
    else if outcome.Ok? then
      if outcome.value then AssignUserReply(200, true, AssignedMessage, "VERIFIED_ASSIGNED", None)
      else AssignUserReply(400, false, NotAssignedMessage, "ASSIGNMENT_FAILED", None)
    else if outcome.error.Some? then AssignUserReply(500, false, InternalErrorMessage, "INTERNAL_ERROR", outcome.error)
    else Escaped(Unexpected(None))
  }

  /** With valid input, the wrapper's answer decides the status: true 200, false 400, and
      any exception 500, whether or not it has a message. */
  lemma AssignStatusFollowsWrapper(slug: string, userEmail: string, outcome: Result<bool, Option<string>>)
    requires !IsBlank(slug) && !IsBlank(userEmail) && '@' in userEmail
    ensures outcome == Ok(true) ==> ReplyStatus(AssignUser(slug, userEmail, outcome)) == 200
    ensures outcome == Ok(false) ==> ReplyStatus(AssignUser(slug, userEmail, outcome)) == 400
    ensures outcome.Err? ==> ReplyStatus(AssignUser(slug, userEmail, outcome)) == 500
  {
  }

  /** Invalid input is answered before the wrapper is consulted: its outcome cannot change
      the reply. */
  lemma InvalidInputIgnoresWrapper(slug: string, userEmail: string, a: Result<bool, Option<string>>, b: Result<bool, Option<string>>)
    requires IsBlank(slug) || IsBlank(userEmail) || '@' !in userEmail
    ensures AssignUser(slug, userEmail, a) == AssignUser(slug, userEmail, b)
    ensures ReplyStatus(AssignUser(slug, userEmail, a)) == 400
  {
  }
}
