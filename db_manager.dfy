/** The tenant-database helpers of `TenantDatabaseManager`: the JDBC URL of a tenant's database
    and of the administrative `postgres` database, both derived from the master data-source URL,
    the create-if-missing step, and the versions reported by a migration run. */
module TenantDatabaseManager {
  import opened Common

  const AdminDatabase := "postgres"
  const Baseline := "baseline"

  const UnparsablePrefix := "Unable to parse datasource URL: "

  function UnparsableMessage(datasourceUrl: string): string {
    UnparsablePrefix + datasourceUrl
  }

  /** `buildTenantJdbcUrl`: everything up to and including the last '/', then the database name. */
  function BuildTenantJdbcUrl(datasourceUrl: string, databaseName: string): (r: Result<string, string>)
    ensures r.Err? <==> '/' !in datasourceUrl
    ensures r.Err? ==> r.error == UnparsableMessage(datasourceUrl)
  {
    var idx := LastIndexOf(datasourceUrl, '/');
    if idx < 0 then Err(UnparsableMessage(datasourceUrl))
    else Ok(datasourceUrl[..idx + 1] + databaseName)
  }

  /** `buildPostgresConnectionUrl`. */
  function BuildPostgresConnectionUrl(datasourceUrl: string): (r: Result<string, string>)
    ensures r.Err? <==> '/' !in datasourceUrl
    ensures r.Ok? ==> |r.value| > |AdminDatabase| && r.value[|r.value| - |AdminDatabase| - 1..] == "/" + AdminDatabase
  {
    var idx := LastIndexOf(datasourceUrl, '/');
    if idx < 0 then Err(UnparsableMessage(datasourceUrl))
    else Ok(datasourceUrl[..idx + 1] + AdminDatabase)
  }

  /** The versions a migration run reports, a missing version standing for the baseline. */
  function AppliedVersions(migrations: seq<Option<string>>): (r: seq<string>)
    ensures |r| == |migrations|
    ensures forall i :: 0 <= i < |r| ==> r[i] == (if migrations[i].Some? then migrations[i].value else Baseline)
  {
    if migrations == [] then []
    else [if migrations[0].Some? then migrations[0].value else Baseline] + AppliedVersions(migrations[1..])
  }

  /** How the database server answers during one `createDatabaseIfNotExists`: whether the
      existence query fails, and whether `CREATE DATABASE` fails. */
  datatype ServerFaults = ServerFaults(checkFails: bool, createFails: bool)

  const CheckFailedPrefix := "Failed to check if database exists: "
  const CreateFailedPrefix := "Failed to create tenant database "

  /** What `createDatabaseIfNotExists` does on a server holding `databases`: `Ok(true)` when it
      creates the database, `Ok(false)` when the database is already there, or the message of
      the exception it throws when the existence query or the creation fails. */
  function CreationOutcome(databases: set<string>, databaseName: string, faults: ServerFaults): (r: Result<bool, string>)
    ensures r.Ok? <==> !faults.checkFails && (databaseName in databases || !faults.createFails)
    ensures r.Ok? ==> (r.value <==> databaseName !in databases)
    ensures r.Err? ==> r.error == (if faults.checkFails then CheckFailedPrefix else CreateFailedPrefix) + databaseName
  {
    if faults.checkFails then Err(CheckFailedPrefix + databaseName)
    else if databaseName in databases then Ok(false)
    else if faults.createFails then Err(CreateFailedPrefix + databaseName)
    else Ok(true)
  }

  /** The database server, as far as database creation sees it: the set of existing databases. */
  class DatabaseServer {
    var databases: set<string>

    constructor(databases: set<string>)
      ensures this.databases == databases
    {
      this.databases := databases;
    }

    /** `createDatabaseIfNotExists`: a no-op when the database exists; a failing query or
        creation is reported and creates nothing. */
    method CreateDatabaseIfNotExists(databaseName: string, faults: ServerFaults) returns (r: Result<bool, string>)
      modifies this
      ensures r == CreationOutcome(old(databases), databaseName, faults)
      ensures r.Ok? ==> databases == old(databases) + {databaseName}
      ensures r.Err? ==> databases == old(databases)
    {
      if faults.checkFails {
        return Err(CheckFailedPrefix + databaseName);
      }
      if databaseName in databases {
        return Ok(false);
      }
      if faults.createFails {
        return Err(CreateFailedPrefix + databaseName);
      }
      databases := databases + {databaseName};
      return Ok(true);
    }
  }

  // ----------------------------------------------------------------- lemmas

  /** The tenant URL keeps the data-source URL through its last '/' and ends with the database
      name, which is then the URL's last path segment. */
  lemma TenantUrlShape(datasourceUrl: string, databaseName: string)
    requires '/' in datasourceUrl && '/' !in databaseName
    ensures var url := BuildTenantJdbcUrl(datasourceUrl, databaseName).value;
            var idx := LastIndexOf(datasourceUrl, '/');
            url[..idx + 1] == datasourceUrl[..idx + 1]
            && url[idx + 1..] == databaseName
            && LastIndexOf(url, '/') == idx
  {
    var idx := LastIndexOf(datasourceUrl, '/');
    var url := BuildTenantJdbcUrl(datasourceUrl, databaseName).value;
    assert url[idx] == '/';
    assert forall j :: idx < j < |url| ==> url[j] == databaseName[j - idx - 1];
    LastIndexOfIs(url, '/', idx);
  }

  lemma LastIndexOfIs(s: string, c: char, idx: int)
    requires 0 <= idx < |s| && s[idx] == c
    requires forall j :: idx < j < |s| ==> s[j] != c
    ensures LastIndexOf(s, c) == idx
  {
  }

  /** Re-targeting a tenant URL at another database gives the URL of that database: the rewrite
      only ever replaces the last path segment. */
  lemma RetargetTenantUrl(datasourceUrl: string, first: string, second: string)
    requires '/' in datasourceUrl && '/' !in first
    ensures var url := BuildTenantJdbcUrl(datasourceUrl, first).value;
            '/' in url && BuildTenantJdbcUrl(url, second) == BuildTenantJdbcUrl(datasourceUrl, second)
  {
    TenantUrlShape(datasourceUrl, first);
    var idx := LastIndexOf(datasourceUrl, '/');
    var url := BuildTenantJdbcUrl(datasourceUrl, first).value;
    assert url[idx] == '/';
  }

  /** The administrative URL is the tenant URL of the `postgres` database, and both fail together. */
  lemma AdminUrlIsPostgresTenantUrl(datasourceUrl: string)
    ensures BuildPostgresConnectionUrl(datasourceUrl) == BuildTenantJdbcUrl(datasourceUrl, AdminDatabase)
  {
  }

  /** Only missing versions become "baseline"; every reported version is kept in order. */
  lemma {:induction false} AppliedVersionsKeepsGiven(migrations: seq<Option<string>>, versions: seq<string>)
    requires |versions| == |migrations| && forall i :: 0 <= i < |migrations| ==> migrations[i] == Some(versions[i])
    ensures AppliedVersions(migrations) == versions
  {
    if migrations != [] {
      AppliedVersionsKeepsGiven(migrations[1..], versions[1..]);
    }
  }
}
