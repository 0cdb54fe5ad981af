/** `TenantRoutingDataSource`: picks the connection pool for each database access from the
    context tenant, falling back to the master database, and creates one pool per tenant
    database on first use. */
module RoutingDataSource {
  import opened Common
  import opened Exceptions
  import opened TenantDatabaseManager

  const MasterDatabaseKey := "master"

  /** A pool: the master pool, or one opened on a tenant database's JDBC URL. */
  datatype DataSource = MasterSource | TenantSource(jdbcUrl: string, databaseName: string)

  /** `determineCurrentLookupKey`. `resolved` is what the database resolver reports for the
      context tenant: a database name, or the exception it throws. */
  function LookupKey(contextTenant: Option<string>, resolved: Result<string, ServiceException>): (key: string)
    ensures contextTenant.None? || IsBlank(contextTenant.value) || resolved.Err? ==> key == MasterDatabaseKey
    ensures contextTenant.Some? && !IsBlank(contextTenant.value) && resolved.Ok? ==> key == resolved.value
  {
    if contextTenant.None? || IsBlank(contextTenant.value) then MasterDatabaseKey
    else if resolved.Err? then MasterDatabaseKey
    else resolved.value
  }

  /** Every cached pool is stored under its own database name and opened on that database. */
  predicate PoolsMatchNames(pools: map<string, DataSource>, masterUrl: string) {
    forall name :: name in pools ==> BuildTenantJdbcUrl(masterUrl, name).Ok?
                                     && pools[name] == TenantSource(BuildTenantJdbcUrl(masterUrl, name).value, name)
  }

  class TenantRoutingDataSource {
    const masterUrl: string
    var pools: map<string, DataSource>

    constructor(masterUrl: string)
      ensures this.masterUrl == masterUrl && pools == map[]
    {
      this.masterUrl := masterUrl;
      pools := map[];
    }

    /** `determineTargetDataSource`: the master key gives the master pool; any other key gives
        the cached pool for that database, created on a miss. Building the URL fails, and
        nothing is cached, when the master URL has no '/'. */
    method DetermineTargetDataSource(contextTenant: Option<string>, resolved: Result<string, ServiceException>)
      returns (r: Result<DataSource, ServiceException>)
      modifies this
      ensures var key := LookupKey(contextTenant, resolved);
              && (key == MasterDatabaseKey ==> r == Ok(MasterSource) && pools == old(pools))
              && (key != MasterDatabaseKey && key in old(pools) ==> r == Ok(old(pools)[key]) && pools == old(pools))
              && (key != MasterDatabaseKey && key !in old(pools) && '/' !in masterUrl ==>
                    r == Err(IllegalState(Some(UnparsableMessage(masterUrl)))) && pools == old(pools))
              && (key != MasterDatabaseKey && key !in old(pools) && '/' in masterUrl ==>
                    r == Ok(TenantSource(BuildTenantJdbcUrl(masterUrl, key).value, key))
                    && pools == old(pools)[key := r.value])
      ensures PoolsMatchNames(old(pools), masterUrl) ==> PoolsMatchNames(pools, masterUrl)
      ensures forall name :: name in old(pools) ==> name in pools && pools[name] == old(pools)[name]
      ensures PoolsMatchNames(old(pools), masterUrl) && r.Ok? && r.value.TenantSource? ==>
                r.value.databaseName in pools && pools[r.value.databaseName] == r.value
    {
      var key := LookupKey(contextTenant, resolved);
      if key == MasterDatabaseKey {
        return Ok(MasterSource);
      }
      if key in pools {
        return Ok(pools[key]);
      }
      var url := BuildTenantJdbcUrl(masterUrl, key);
      if url.Err? {
        return Err(IllegalState(Some(url.error)));
      }
      var pool := TenantSource(url.value, key);
      pools := pools[key := pool];
      return Ok(pool);
    }
  }

  // ----------------------------------------------------------------- lemmas

  /** Without a usable context tenant, or when its database cannot be resolved, every access
      goes to the master database. */
  lemma NoTenantMeansMaster(contextTenant: Option<string>, resolved: Result<string, ServiceException>)
    requires contextTenant.None? || IsBlank(contextTenant.value) || resolved.Err?
    ensures LookupKey(contextTenant, resolved) == MasterDatabaseKey
  {
  }

  /** A tenant whose database happens to be named `master` is routed to the master pool. */
  lemma DatabaseNamedMasterIsMaster(contextTenant: string)
    requires !IsBlank(contextTenant)
    ensures LookupKey(Some(contextTenant), Ok("master")) == MasterDatabaseKey
  {
  }
}
