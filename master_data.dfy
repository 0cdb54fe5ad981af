/** The master database's tenant and migration tables, shared by the provisioning and onboarding
    services, with what both services do to them in the same way: slug validation, the slug
    uniqueness check, and recording the versions a migration run applied. */
module MasterData {
  import opened Common
  import opened Exceptions
  import opened TenantNaming

  const InvalidSlugMessage := "Invalid slug. Use lowercase letters, digits or hyphen."
  const MigrationSucceeded := "success"
  const DefaultStatus := "active"

  /** A `tenants` row; the tier and the two limits are nullable columns. */
  datatype Tenant = Tenant(tenantId: string, tenantName: string, slug: string, status: string, subscriptionTier: Option<string>,
                           databaseConnectionString: string, databaseName: string, maxUsers: Option<int>, maxStorageGb: Option<int>)

  datatype MigrationRecord = MigrationRecord(tenantId: string, version: string, status: string)

  /** `validateSlug`: the slug pattern, else 400. */
  function ValidateSlug(slug: string): (r: Option<ServiceException>)
    ensures r.None? <==> MatchesSlugPattern(slug)
    ensures r.Some? ==> StatusOf(r.value) == 400 && MessageOf(r.value) == Some(InvalidSlugMessage)
  {
    if MatchesSlugPattern(slug) then None else Some(ResponseStatus(400, Some(InvalidSlugMessage)))
  }

  predicate SlugTaken(tenants: map<string, Tenant>, slug: string) {
    exists id :: id in tenants && tenants[id].slug == slug
  }

  /** The slug column is unique and each tenant is stored under its own id. */
  predicate UniqueSlugs(tenants: map<string, Tenant>) {
    (forall id :: id in tenants ==> tenants[id].tenantId == id)
    && forall a, b :: a in tenants && b in tenants && tenants[a].slug == tenants[b].slug ==> a == b
  }

  /** The database name of a slug that passed validation. */
  function ProvisionedDatabaseName(slug: string): string
    requires MatchesSlugPattern(slug)
  {
    ValidSlugHasName(slug);
    DatabaseNameFromSlug(Some(slug)).value
  }

  // ------------------------------------------------------- migration records

  predicate Recorded(migrations: seq<MigrationRecord>, tenantId: string, version: string) {
    exists k :: 0 <= k < |migrations| && migrations[k].tenantId == tenantId && migrations[k].version == version
  }

  /** No version appears twice. */
  predicate SavedOnce(saved: seq<string>) {
    forall i, j :: 0 <= i < j < |saved| ==> saved[i] != saved[j]
  }

  /** A null or blank version is not recorded. */
  predicate Skipped(version: Option<string>) {
    version.None? || IsBlank(version.value)
  }

  /** The versions `recordMigrations` saves, in order: present, not blank, and not recorded for
      the tenant before the run or earlier in the same run. */
  function NewVersions(migrations: seq<MigrationRecord>, tenantId: string, versions: seq<Option<string>>): seq<string> {
    if versions == [] then []
    else
      var earlier := NewVersions(migrations, tenantId, versions[..|versions| - 1]);
      var v := versions[|versions| - 1];
      if Skipped(v) || Recorded(migrations, tenantId, v.value) || v.value in earlier then earlier
      else earlier + [v.value]
  }

  function Records(tenantId: string, versions: seq<string>, status: string): (r: seq<MigrationRecord>)
    ensures |r| == |versions|
    ensures forall i :: 0 <= i < |r| ==> r[i] == MigrationRecord(tenantId, versions[i], status)
  {
    seq(|versions|, i requires 0 <= i < |versions| => MigrationRecord(tenantId, versions[i], status))
  }

  /** The versions a migration run reports, as the list `recordMigrations` walks. */
  function Present(versions: seq<string>): (r: seq<Option<string>>)
    ensures |r| == |versions| && forall i :: 0 <= i < |r| ==> r[i] == Some(versions[i])
  {
    seq(|versions|, i requires 0 <= i < |versions| => Some(versions[i]))
  }

  // ------------------------------------------------------------------ tables

  class MasterDatabase {
    var tenants: map<string, Tenant>
    var migrations: seq<MigrationRecord>

    constructor(tenants: map<string, Tenant>, migrations: seq<MigrationRecord>)
      ensures this.tenants == tenants && this.migrations == migrations
    {
      this.tenants := tenants;
      this.migrations := migrations;
    }

    /** `recordMigrations` of either service. */
    method RecordMigrations(tenantId: string, versions: seq<Option<string>>, status: string)
      modifies this
      ensures migrations == old(migrations) + Records(tenantId, NewVersions(old(migrations), tenantId, versions), status)
      ensures tenants == old(tenants)
    {
      var i := 0;
      while i < |versions|
        invariant 0 <= i <= |versions|
        invariant migrations == old(migrations) + Records(tenantId, NewVersions(old(migrations), tenantId, versions[..i]), status)
        invariant tenants == old(tenants)
      {
        var v := versions[i];
        assert versions[..i + 1][..i] == versions[..i];
        RecordedAfter(old(migrations), tenantId, NewVersions(old(migrations), tenantId, versions[..i]), status, if v.Some? then v.value else "");
        if v.Some? && !IsBlank(v.value) && !Recorded(migrations, tenantId, v.value) {
          migrations := migrations + [MigrationRecord(tenantId, v.value, status)];
        }
        i := i + 1;
      }
      assert versions[..|versions|] == versions;
    }
  }

  // ----------------------------------------------------------------- lemmas

  /** After a run's records are appended, a version is recorded exactly when it was before or
      the run saved it. */
  lemma RecordedAfter(migrations: seq<MigrationRecord>, tenantId: string, saved: seq<string>, status: string, version: string)
    ensures Recorded(migrations + Records(tenantId, saved, status), tenantId, version)
            <==> Recorded(migrations, tenantId, version) || version in saved
  {
    var all := migrations + Records(tenantId, saved, status);
    if version in saved {
      var j :| 0 <= j < |saved| && saved[j] == version;
      assert all[|migrations| + j].version == version;
    }
    if Recorded(all, tenantId, version) {
      var k :| 0 <= k < |all| && all[k].tenantId == tenantId && all[k].version == version;
      if k >= |migrations| {
        assert saved[k - |migrations|] == version;
      } else {
        assert migrations[k] == all[k];
      }
    }
    if Recorded(migrations, tenantId, version) {
      var k :| 0 <= k < |migrations| && migrations[k].tenantId == tenantId && migrations[k].version == version;
      assert all[k] == migrations[k];
    }
  }

  /** Every saved version comes from the run, is neither null nor blank, was not recorded
      before, and is saved once. */
  lemma {:induction false} NewVersionsSound(migrations: seq<MigrationRecord>, tenantId: string, versions: seq<Option<string>>)
    ensures forall x :: x in NewVersions(migrations, tenantId, versions) ==>
              !IsBlank(x) && !Recorded(migrations, tenantId, x) && Some(x) in versions
    ensures SavedOnce(NewVersions(migrations, tenantId, versions))
  {
    if versions != [] {
      var prefix := versions[..|versions| - 1];
      var v := versions[|versions| - 1];
      var earlier := NewVersions(migrations, tenantId, prefix);
      NewVersionsSound(migrations, tenantId, prefix);
      assert forall x :: x in prefix ==> x in versions;
      if Skipped(v) || Recorded(migrations, tenantId, v.value) || v.value in earlier {
        assert NewVersions(migrations, tenantId, versions) == earlier;
      } else {
        var saved := earlier + [v.value];
        assert NewVersions(migrations, tenantId, versions) == saved;
        assert Some(v.value) in versions;
        assert forall j :: 0 <= j < |earlier| ==> saved[j] == earlier[j];
        forall i, j | 0 <= i < j < |saved| ensures saved[i] != saved[j] {
          if j == |earlier| {
            assert saved[i] == earlier[i] && earlier[i] in earlier;
          }
        }
      }
    }
  }

  /** Every present, non-blank version not yet recorded for the tenant is saved. */
  lemma {:induction false} NewVersionsComplete(migrations: seq<MigrationRecord>, tenantId: string, versions: seq<Option<string>>, i: nat)
    requires i < |versions| && !Skipped(versions[i]) && !Recorded(migrations, tenantId, versions[i].value)
    ensures versions[i].value in NewVersions(migrations, tenantId, versions)
  {
    var n := |versions| - 1;
    var prefix := versions[..n];
    if i < n {
      assert prefix[i] == versions[i];
      NewVersionsComplete(migrations, tenantId, prefix, i);
    }
  }

  /** Recording the same run again saves nothing more. */
  lemma RecordingTwiceSavesNothing(migrations: seq<MigrationRecord>, tenantId: string, versions: seq<Option<string>>, status: string)
    ensures var after := migrations + Records(tenantId, NewVersions(migrations, tenantId, versions), status);
            NewVersions(after, tenantId, versions) == []
  {
    var saved := NewVersions(migrations, tenantId, versions);
    var after := migrations + Records(tenantId, saved, status);
    forall i | 0 <= i < |versions| && !Skipped(versions[i])
      ensures Recorded(after, tenantId, versions[i].value)
    {
      RecordedAfter(migrations, tenantId, saved, status, versions[i].value);
      if !Recorded(migrations, tenantId, versions[i].value) {
        NewVersionsComplete(migrations, tenantId, versions, i);
      }
    }
    NothingNewWhenAllRecorded(after, tenantId, versions);
  }

  lemma {:induction false} NothingNewWhenAllRecorded(migrations: seq<MigrationRecord>, tenantId: string, versions: seq<Option<string>>)
    requires forall i :: 0 <= i < |versions| && !Skipped(versions[i]) ==> Recorded(migrations, tenantId, versions[i].value)
    ensures NewVersions(migrations, tenantId, versions) == []
  {
    if versions != [] {
      var prefix := versions[..|versions| - 1];
      assert forall i :: 0 <= i < |prefix| ==> prefix[i] == versions[i];
      NothingNewWhenAllRecorded(migrations, tenantId, prefix);
    }
  }

  /** A slug that passes validation has a database name. */
  lemma ValidSlugHasName(slug: string)
    requires MatchesSlugPattern(slug)
    ensures DatabaseNameFromSlug(Some(slug)).Ok?
  {
    assert !IsSpace(slug[0]);
  }
}
