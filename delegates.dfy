/** The two workflow steps of the tenant-creation process that touch tenant data: creating the
    tenant database (`DatabaseCreationDelegate`) and saving the tenant record
    (`TenantRecordDelegate`). Each reads and writes the variables of the running process. */
module Delegates {
  import opened Common
  import opened Exceptions
  import opened TenantNaming
  import opened TenantDatabaseManager
  import opened MasterData

  const SlugRequiredForDatabaseMessage := "Slug is required for database creation"
  const InvalidSlugFormatMessage := "Invalid slug format. Use lowercase letters, digits or hyphens."
  const TenantNameRequiredMessage := "Tenant name is required"
  const SlugRequiredMessage := "Slug is required"
  const DatabaseNameRequiredMessage := "Database name is required"
  const ConnectionStringRequiredMessage := "Database connection string is required"

  /** A process variable's value. */
  datatype Value = StringVar(text: string) | IntVar(n: int) | BoolVar(flag: bool) | ListVar(items: seq<string>) | OtherVar

  const SlugInUsePrefix := "Slug already in use: "

  function SlugInUseMessage(slug: string): string { SlugInUsePrefix + slug }

  /** The workflow's `DatabaseCreationService` names its base URL in its own message. */
  const UnparsableBaseUrlPrefix := "Unable to parse base URL: "

  function UnparsableBaseUrlMessage(baseUrl: string): string { UnparsableBaseUrlPrefix + baseUrl }

  /** A cast of a process variable to the wrong type: a `ClassCastException`, whose message the
      runtime composes and the model leaves out. */
  const CastFailure := Unexpected(None)

  /** The variable is set to something the `(String)` cast rejects. */
  predicate WrongText(variables: map<string, Value>, name: string) {
    name in variables && !variables[name].StringVar?
  }

  /** The variable is set to something the `(Integer)` cast rejects. */
  predicate WrongNumber(variables: map<string, Value>, name: string) {
    name in variables && !variables[name].IntVar?
  }

  /** Every cast the record step makes before its checks succeeds. */
  predicate RecordCastsSucceed(variables: map<string, Value>) {
    !WrongText(variables, "tenantName") && !WrongText(variables, "slug") && !WrongText(variables, "subscriptionTier")
    && !WrongNumber(variables, "maxUsers") && !WrongNumber(variables, "maxStorageGb")
    && !WrongText(variables, "databaseName") && !WrongText(variables, "databaseConnectionString")
  }

  /** A string variable, absent when unset. */
  function TextVar(variables: map<string, Value>, name: string): Option<string> {
    if name in variables && variables[name].StringVar? then Some(variables[name].text) else None
  }

  /** An integer variable, absent when unset. */
  function NumberVar(variables: map<string, Value>, name: string): Option<int> {
    if name in variables && variables[name].IntVar? then Some(variables[name].n) else None
  }

  predicate Missing(v: Option<string>) {
    v.None? || IsBlank(v.value)
  }

  /** The first failing cast or check of the record step, in the order it makes them. */
  function RecordCheck(variables: map<string, Value>, tenants: map<string, Tenant>): (r: Option<ServiceException>)
    ensures r.None? <==> RecordCastsSucceed(variables) && !Missing(TextVar(variables, "tenantName")) && !Missing(TextVar(variables, "databaseName"))
                         && !Missing(TextVar(variables, "databaseConnectionString"))
                         && !Missing(TextVar(variables, "slug")) && MatchesSlugPattern(TextVar(variables, "slug").value)
                         && !SlugTaken(tenants, TextVar(variables, "slug").value)
    ensures r.Some? ==> (r.value == CastFailure <==> !RecordCastsSucceed(variables))
    ensures r.Some? ==> (r.value.IllegalArgument? <==> RecordCastsSucceed(variables))
  {
    var slug := TextVar(variables, "slug");
    if !RecordCastsSucceed(variables) then Some(CastFailure)
    else if Missing(TextVar(variables, "tenantName")) then Some(IllegalArgument(Some(TenantNameRequiredMessage)))
    else if Missing(slug) then Some(IllegalArgument(Some(SlugRequiredMessage)))
    else if Missing(TextVar(variables, "databaseName")) then Some(IllegalArgument(Some(DatabaseNameRequiredMessage)))
    else if Missing(TextVar(variables, "databaseConnectionString")) then Some(IllegalArgument(Some(ConnectionStringRequiredMessage)))
    else if !MatchesSlugPattern(slug.value) then Some(IllegalArgument(Some(InvalidSlugFormatMessage)))
    else if SlugTaken(tenants, slug.value) then Some(IllegalArgument(Some(SlugInUseMessage(slug.value))))
    else None
  }

  /** The record the step saves from the variables. */
  function RecordFrom(variables: map<string, Value>, tenantId: string): Tenant
    requires TextVar(variables, "tenantName").Some? && TextVar(variables, "slug").Some?
    requires TextVar(variables, "databaseName").Some? && TextVar(variables, "databaseConnectionString").Some?
  {
    Tenant(tenantId, TextVar(variables, "tenantName").value, TextVar(variables, "slug").value, DefaultStatus,
           TextVar(variables, "subscriptionTier"), TextVar(variables, "databaseConnectionString").value,
           TextVar(variables, "databaseName").value, NumberVar(variables, "maxUsers"), NumberVar(variables, "maxStorageGb"))
  }

  /** The variables of one process instance. */
  class Execution {
    var variables: map<string, Value>

    constructor(variables: map<string, Value>)
      ensures this.variables == variables
    {
      this.variables := variables;
    }
  }

  /** `DatabaseCreationDelegate.execute`: the slug must be a string, present and valid; the
      database is created through the workflow's `DatabaseCreationService` on its base URL
      (`faults` says how the database server answers, and the service rethrows a failure as a
      `RuntimeException` with the same message), migrated (`migrated` is the tool's report) and
      described in four variables. */
  method CreateDatabase(execution: Execution, server: DatabaseServer, baseUrl: string,
                        migrated: Result<seq<Option<string>>, ServiceException>, faults: ServerFaults)
    returns (failure: Option<ServiceException>)
    modifies execution, server
    ensures var slug := TextVar(old(execution.variables), "slug");
            && (WrongText(old(execution.variables), "slug") ==> failure == Some(CastFailure))
            && (!WrongText(old(execution.variables), "slug") && Missing(slug) ==>
                  failure == Some(IllegalArgument(Some(SlugRequiredForDatabaseMessage))))
            && (!Missing(slug) && !MatchesSlugPattern(slug.value) ==> failure == Some(IllegalArgument(Some(InvalidSlugFormatMessage))))
            && (!Missing(slug) && MatchesSlugPattern(slug.value) && '/' !in baseUrl ==>
                  failure == Some(IllegalState(Some(UnparsableBaseUrlMessage(baseUrl)))))
            && (!Missing(slug) && MatchesSlugPattern(slug.value) && '/' in baseUrl ==>
                  var name := DelegateDatabaseName(slug.value).value;
                  var creation := CreationOutcome(old(server.databases), name, faults);
                  server.databases == old(server.databases) + (if creation.Ok? then {name} else {})
                  && (creation.Err? ==> failure == Some(Unexpected(Some(creation.error))))
                  && (creation.Ok? && migrated.Err? ==> failure == Some(migrated.error))
                  && (creation.Ok? && migrated.Ok? ==>
                        (failure.None?
                         && execution.variables == old(execution.variables)["databaseName" := StringVar(name)]
                              ["databaseConnectionString" := StringVar(BuildTenantJdbcUrl(baseUrl, name).value)]
                              ["migrationsApplied" := ListVar(AppliedVersions(migrated.value))]["databaseCreated" := BoolVar(true)])))
    ensures failure.Some? ==> execution.variables == old(execution.variables)
    ensures server.databases != old(server.databases) ==>
              var slug := TextVar(old(execution.variables), "slug");
              !Missing(slug) && MatchesSlugPattern(slug.value) && '/' in baseUrl
  {
    if WrongText(execution.variables, "slug") {
      return Some(CastFailure);
    }
    var slug := TextVar(execution.variables, "slug");
    if Missing(slug) {
      return Some(IllegalArgument(Some(SlugRequiredForDatabaseMessage)));
    }
    if !MatchesSlugPattern(slug.value) {
      return Some(IllegalArgument(Some(InvalidSlugFormatMessage)));
    }
    var name := DelegateDatabaseName(slug.value).value;
    var url := BuildTenantJdbcUrl(baseUrl, name);
    if url.Err? {
      return Some(IllegalState(Some(UnparsableBaseUrlMessage(baseUrl))));
    }
    var created := server.CreateDatabaseIfNotExists(name, faults);
    if created.Err? {
      return Some(Unexpected(Some(created.error)));
    }
    if migrated.Err? {
      return Some(migrated.error);
    }
    execution.variables := execution.variables["databaseName" := StringVar(name)];
    execution.variables := execution.variables["databaseConnectionString" := StringVar(url.value)];
    execution.variables := execution.variables["migrationsApplied" := ListVar(AppliedVersions(migrated.value))];
    execution.variables := execution.variables["databaseCreated" := BoolVar(true)];
    return None;
  }

  /** `TenantRecordDelegate.execute`: the checks of `RecordCheck`, then the record is saved as
      active and its id reported. */
  method SaveTenantRecord(execution: Execution, master: MasterDatabase, tenantId: string)
    returns (failure: Option<ServiceException>)
    requires tenantId !in master.tenants
    modifies execution, master
    ensures failure == RecordCheck(old(execution.variables), old(master.tenants))
    ensures failure.Some? ==> execution.variables == old(execution.variables) && master.tenants == old(master.tenants)
    ensures failure.None? ==>
              master.tenants == old(master.tenants)[tenantId := RecordFrom(old(execution.variables), tenantId)]
              && execution.variables == old(execution.variables)["tenantId" := StringVar(tenantId)]["tenantRecordSaved" := BoolVar(true)]
    ensures master.migrations == old(master.migrations)
    ensures UniqueSlugs(old(master.tenants)) ==> UniqueSlugs(master.tenants)
  {
    failure := RecordCheck(execution.variables, master.tenants);
    if failure.Some? {
      return;
    }
    var tenant := RecordFrom(execution.variables, tenantId);
    master.tenants := master.tenants[tenantId := tenant];
    execution.variables := execution.variables["tenantId" := StringVar(tenantId)]["tenantRecordSaved" := BoolVar(true)];
  }

  // ----------------------------------------------------------------- lemmas

  /** The record step saves only valid, unused slugs with every required field non-blank, and
      the record it saves is active and carries the process's database. */
  lemma SavedRecordIsComplete(variables: map<string, Value>, tenants: map<string, Tenant>, tenantId: string)
    requires RecordCheck(variables, tenants).None?
    ensures var t := RecordFrom(variables, tenantId);
            && MatchesSlugPattern(t.slug) && !SlugTaken(tenants, t.slug)
            && !IsBlank(t.tenantName) && !IsBlank(t.databaseName) && !IsBlank(t.databaseConnectionString)
            && t.status == DefaultStatus && t.tenantId == tenantId
  {
  }

  /** The checks run in the source's order after the casts: a missing name is reported before
      anything else, and the slug's format before its uniqueness. */
  lemma RecordCheckOrder(variables: map<string, Value>, tenants: map<string, Tenant>)
    ensures RecordCastsSucceed(variables) && Missing(TextVar(variables, "tenantName")) ==>
              RecordCheck(variables, tenants) == Some(IllegalArgument(Some(TenantNameRequiredMessage)))
    ensures var slug := TextVar(variables, "slug");
            RecordCastsSucceed(variables) && !Missing(TextVar(variables, "tenantName")) && !Missing(slug) && !Missing(TextVar(variables, "databaseName"))
            && !Missing(TextVar(variables, "databaseConnectionString")) && !MatchesSlugPattern(slug.value) ==>
              RecordCheck(variables, tenants) == Some(IllegalArgument(Some(InvalidSlugFormatMessage)))
  {
  }
}
