/** `resolveMasterTenantId` of the administration front-end (`App.tsx`): turn whatever
    tenant hints the page holds into the master-database tenant UUID, asking the tenant
    service only when no hint is already a UUID. */
module MasterTenant {
  import opened Common
  import opened Uuid

  /** Outcome of `getTenantBySlug`: a record (whose `tenantId` may be missing) or an error
      (404 or any other); both errors are treated alike. */
  datatype SlugLookup = Found(tenantId: Option<string>) | LookupFailed(status: int)

  datatype TenantSummary = TenantSummary(tenantId: Option<string>, slug: string)

  /** Outcome of `listTenants(token, 0, 100)`. */
  datatype TenantList = Listed(tenants: seq<TenantSummary>) | ListFailed

  /** The backend calls made, in order. */
  datatype Call = BySlug(slug: string) | ListAll

  datatype ResolveError = AuthenticationRequired | Unresolved(triedSlugs: seq<string>)

  /** Result and calls of one scan. */
  datatype Scan = Scan(found: Option<string>, calls: seq<Call>)

  /** Everything one resolution produces: the value or error, the calls, the new cache. */
  datatype Outcome = Outcome(result: Result<string, ResolveError>, calls: seq<Call>, cache: Option<string>)

  const AuthRequiredMessage := "Authentication is required to resolve tenant ID."

  const UnresolvedPrefix := "Tenant ID could not be resolved. Tried slugs: "
  const UnresolvedSuffix := ". Please ensure: (1) Your account has a tenant_id attribute in Keycloak, "
    + "(2) The tenant exists in the database, or (3) Add ?tenant=<slug> to the URL."

  /** The text of the error thrown when nothing resolves: the slugs joined by ', ', or 'none'. */
  function UnresolvedMessage(tried: seq<string>): string {
    var triedSlugs := Join(tried, ", ");
    UnresolvedPrefix + (if triedSlugs != "" then triedSlugs else "none") + UnresolvedSuffix
  }

  function ErrorMessage(e: ResolveError): string {
    match e
    case AuthenticationRequired => AuthRequiredMessage
    case Unresolved(tried) => UnresolvedMessage(tried)
  }

  /** Trim each hint and drop the absent or empty ones, keeping their order. */
  function Candidates(hints: seq<Option<string>>): (r: seq<string>)
    ensures |r| <= |hints|
    ensures forall k :: 0 <= k < |r| ==> r[k] != ""
    ensures forall s :: s in r <==> exists k :: 0 <= k < |hints| && KeptHint(hints[k], s)
  {
    if |hints| == 0 then []
    else
      var rest := Candidates(hints[1..]);
      assert forall k :: 1 <= k < |hints| ==> hints[k] == hints[1..][k - 1];
      if hints[0].Some? && Trim(hints[0].value) != "" then [Trim(hints[0].value)] + rest else rest
  }

  /** The hint `h` survives trimming and filtering as the candidate `s`. */
  predicate KeptHint(h: Option<string>, s: string) {
    h.Some? && Trim(h.value) != "" && s == Trim(h.value)
  }

  /** The hints in priority order: the caller's extras, the JWT tenant id, the user's tenant id,
      the current tenant info, and the detected tenant. */
  function Hints(extras: seq<Option<string>>, jwtTenant: Option<string>, userTenant: Option<string>,
                 infoTenant: Option<string>, detected: Option<string>): seq<Option<string>>
  {
    extras + [jwtTenant, userTenant, infoTenant, detected]
  }

  /** The first candidate that is a UUID. */
  function FirstUuid(cands: seq<string>): (r: Option<string>)
    ensures r.Some? ==> r.value in cands && IsUuid(r)
    ensures r.Some? ==> exists k :: 0 <= k < |cands| && r.value == cands[k]
                          && forall j :: 0 <= j < k ==> !IsUuid(Some(cands[j]))
    ensures r.None? ==> forall k :: 0 <= k < |cands| ==> !IsUuid(Some(cands[k]))
  {
    if |cands| == 0 then None
    else if IsUuid(Some(cands[0])) then Some(cands[0])
    else FirstUuid(cands[1..])
  }

  /** `slugCandidates`: the candidates that are not UUIDs, in order. */
  function NonUuids(cands: seq<string>): (r: seq<string>)
    ensures forall k :: 0 <= k < |r| ==> r[k] in cands && !IsUuid(Some(r[k]))
    ensures FirstUuid(cands).None? ==> r == cands
  {
    if |cands| == 0 then []
    else if IsUuid(Some(cands[0])) then NonUuids(cands[1..])
    else [cands[0]] + NonUuids(cands[1..])
  }

  function BySlugCalls(slugs: seq<string>): (r: seq<Call>)
    ensures |r| == |slugs|
  {
    if |slugs| == 0 then [] else [BySlug(slugs[0])] + BySlugCalls(slugs[1..])
  }

  /** The lookup's answer when it is a usable UUID. */
  function UuidOf(l: SlugLookup): Option<string> {
    if l.Found? && IsUuid(l.tenantId) then Some(Trim(l.tenantId.value)) else None
  }

  /** The second pass: look the slugs up in order until one yields a UUID. */
  function SlugScan(slugs: seq<string>, lookup: string -> SlugLookup): Scan {
    if |slugs| == 0 then Scan(None, [])
    else
      var u := UuidOf(lookup(slugs[0]));
      if u.Some? then Scan(u, [BySlug(slugs[0])])
      else
        var rest := SlugScan(slugs[1..], lookup);
        Scan(rest.found, [BySlug(slugs[0])] + rest.calls)
  }

  /** `tenants.find(t => t.slug === slug)`: the first tenant with that slug. */
  function FindBySlug(ts: seq<TenantSummary>, slug: string): (r: Option<TenantSummary>)
    ensures r.Some? ==> r.value in ts && r.value.slug == slug
    ensures r.Some? ==> exists k :: 0 <= k < |ts| && r.value == ts[k]
                          && forall j :: 0 <= j < k ==> ts[j].slug != slug
    ensures r.None? ==> forall k :: 0 <= k < |ts| ==> ts[k].slug != slug
  {
    if |ts| == 0 then None
    else if ts[0].slug == slug then Some(ts[0])
    else FindBySlug(ts[1..], slug)
  }

  /** The per-slug search of the list fallback. */
  function ListMatch(slugs: seq<string>, ts: seq<TenantSummary>): Option<string> {
    if |slugs| == 0 then None
    else
      var m := FindBySlug(ts, slugs[0]);
      if m.Some? && IsUuid(m.value.tenantId) then Some(Trim(m.value.tenantId.value))
      else ListMatch(slugs[1..], ts)
  }

  /** The last resort: a single listed tenant, or else the first slug that names a listed tenant. */
  function ListFallback(slugs: seq<string>, list: TenantList): Option<string> {
    match list
    case ListFailed => None
    case Listed(ts) =>
      if |ts| == 1 then
        (if IsUuid(ts[0].tenantId) then Some(Trim(ts[0].tenantId.value)) else None)
      else if |ts| > 1 && |slugs| > 0 then ListMatch(slugs, ts)
      else None
  }

  /** What one call of `resolveMasterTenantId` yields. */
  function Resolution(cached: Option<string>, cands: seq<string>, token: Option<string>,
                      lookup: string -> SlugLookup, list: TenantList): Outcome
  {
    if Truthy(cached) && IsUuid(cached) then Outcome(Ok(cached.value), [], cached)
    else if !Truthy(token) then Outcome(Err(AuthenticationRequired), [], cached)
    else
      var first := FirstUuid(cands);
      if first.Some? then Outcome(Ok(Trim(first.value)), [], Some(Trim(first.value)))
      else
        var slugs := NonUuids(cands);
        var scan := SlugScan(slugs, lookup);
        if scan.found.Some? then Outcome(Ok(scan.found.value), scan.calls, scan.found)
        else
          var fallback := ListFallback(slugs, list);
          if fallback.Some? then Outcome(Ok(fallback.value), scan.calls + [ListAll], fallback)
          else Outcome(Err(Unresolved(slugs)), scan.calls + [ListAll], cached)
  }

  /** The component state that caches the resolved UUID (`masterTenantId`). */
  class Resolver {
    var masterTenantId: Option<string>

    constructor ()
      ensures masterTenantId == None
    {
      masterTenantId := None;
    }

    /** `resolveMasterTenantId(extraCandidates)`. The token, the page's tenant hints and the
        answers of the tenant service are parameters; `calls` records the requests made. */
    method Resolve(extras: seq<Option<string>>, jwtTenant: Option<string>, userTenant: Option<string>,
                   infoTenant: Option<string>, detected: Option<string>, token: Option<string>,
                   lookup: string -> SlugLookup, list: TenantList)
      returns (r: Result<string, ResolveError>, calls: seq<Call>)
      modifies this
      ensures var o := Resolution(old(masterTenantId), Candidates(Hints(extras, jwtTenant, userTenant, infoTenant, detected)), token, lookup, list);
              r == o.result && calls == o.calls && masterTenantId == o.cache
    {
      calls := [];
      if Truthy(masterTenantId) && IsUuid(masterTenantId) {
        return Ok(masterTenantId.value), calls;
      }
      if !Truthy(token) {
        return Err(AuthenticationRequired), calls;
      }
      var all := Candidates(Hints(extras, jwtTenant, userTenant, infoTenant, detected));

      // First pass: a candidate that already is a UUID needs no request.
      var first := FindFirstUuid(all);
      if first.Some? {
        var validated := Trim(first.value);
        masterTenantId := Some(validated);
        return Ok(validated), calls;
      }

      // Second pass: look each non-UUID candidate up by slug; any failure moves on.
      var slugCandidates := NonUuids(all);
      var found;
      found, calls := LookUpSlugs(slugCandidates, lookup);
      if found.Some? {
        masterTenantId := found;
        return Ok(found.value), calls;
      }

      // Last resort: the tenant list.
      calls := calls + [ListAll];
      var fallback := TryTenantList(slugCandidates, list);
      if fallback.Some? {
        masterTenantId := fallback;
        return Ok(fallback.value), calls;
      }
      r := Err(Unresolved(slugCandidates));
    }
  }

  /** The first-pass loop: the first candidate that is a UUID, if any. */
  method FindFirstUuid(all: seq<string>) returns (first: Option<string>)
    ensures first == FirstUuid(all)
  {
    var i := 0;
    while i < |all|
      invariant 0 <= i <= |all|
      invariant FirstUuid(all) == FirstUuid(all[i..])
    {
      if IsUuid(Some(all[i])) {
        return Some(all[i]);
      }
      assert all[i..][1..] == all[i + 1..];
      i := i + 1;
    }
    return None;
  }

  /** The second-pass loop: one `getTenantBySlug` per slug, in order, until a UUID comes back. */
  method LookUpSlugs(slugCandidates: seq<string>, lookup: string -> SlugLookup)
    returns (found: Option<string>, calls: seq<Call>)
    ensures Scan(found, calls) == SlugScan(slugCandidates, lookup)
  {
    calls := [];
    var j := 0;
    while j < |slugCandidates|
      invariant 0 <= j <= |slugCandidates|
      invariant var rest := SlugScan(slugCandidates[j..], lookup);
                SlugScan(slugCandidates, lookup) == Scan(rest.found, calls + rest.calls)
    {
      var candidate := slugCandidates[j];
      var record := lookup(candidate);
      assert slugCandidates[j..][1..] == slugCandidates[j + 1..];
      calls := calls + [BySlug(candidate)];
      if record.Found? && IsUuid(record.tenantId) {
        return Some(Trim(record.tenantId.value)), calls;
      }
      j := j + 1;
    }
    assert slugCandidates[j..] == [];
    return None, calls;
  }

  /** The list fallback, with its loop over the slug candidates. */
  method TryTenantList(slugCandidates: seq<string>, list: TenantList) returns (found: Option<string>)
    ensures found == ListFallback(slugCandidates, list)
  {
    if list.ListFailed? {
      return None;
    }
    var tenants := list.tenants;
    if |tenants| == 1 {
      if IsUuid(tenants[0].tenantId) {
        return Some(Trim(tenants[0].tenantId.value));
      }
    } else if |tenants| > 1 && |slugCandidates| > 0 {
      var k := 0;
      while k < |slugCandidates|
        invariant 0 <= k <= |slugCandidates|
        invariant ListMatch(slugCandidates, tenants) == ListMatch(slugCandidates[k..], tenants)
      {
        var matched := FindBySlug(tenants, slugCandidates[k]);
        if matched.Some? && IsUuid(matched.value.tenantId) {
          return Some(Trim(matched.value.tenantId.value));
        }
        assert slugCandidates[k..][1..] == slugCandidates[k + 1..];
        k := k + 1;
      }
    }
    return None;
  }

  // ----------------------------------------------------------------- lemmas

  /** Every UUID the slug scan finds satisfies `isUuid`. */
  lemma {:induction false} SlugScanFindsUuids(slugs: seq<string>, lookup: string -> SlugLookup)
    ensures SlugScan(slugs, lookup).found.Some? ==> IsUuid(SlugScan(slugs, lookup).found)
  {
    if |slugs| > 0 {
      var l := lookup(slugs[0]);
      if UuidOf(l).Some? {
        TrimmedUuidIsUuid(l.tenantId.value);
      } else {
        SlugScanFindsUuids(slugs[1..], lookup);
      }
    }
  }

  /** The slug scan asks for the slugs in order, stopping at the first UUID: its calls are
      a non-empty prefix of the slugs when it succeeds, and all of them when it does not. */
  lemma {:induction false} SlugScanCalls(slugs: seq<string>, lookup: string -> SlugLookup)
    ensures var s := SlugScan(slugs, lookup);
            (s.found.None? ==> s.calls == BySlugCalls(slugs))
            && (s.found.Some? ==> exists n :: 0 < n <= |slugs| && s.calls == BySlugCalls(slugs[..n])
                                              && s.found == UuidOf(lookup(slugs[n - 1])))
  {
    if |slugs| > 0 {
      SlugScanCalls(slugs[1..], lookup);
      var s := SlugScan(slugs, lookup);
      if UuidOf(lookup(slugs[0])).Some? {
        assert slugs[..1][1..] == [];
        assert s.calls == BySlugCalls(slugs[..1]);
      } else if s.found.Some? {
        var rest := SlugScan(slugs[1..], lookup);
        var n :| 0 < n <= |slugs[1..]| && rest.calls == BySlugCalls(slugs[1..][..n])
                  && rest.found == UuidOf(lookup(slugs[1..][n - 1]));
        assert slugs[..n + 1][1..] == slugs[1..][..n];
        assert s.calls == BySlugCalls(slugs[..n + 1]);
      }
    }
  }

  lemma {:induction false} ListMatchFindsUuids(slugs: seq<string>, ts: seq<TenantSummary>)
    ensures ListMatch(slugs, ts).Some? ==> IsUuid(ListMatch(slugs, ts))
  {
    if |slugs| > 0 {
      var m := FindBySlug(ts, slugs[0]);
      if m.Some? && IsUuid(m.value.tenantId) {
        TrimmedUuidIsUuid(m.value.tenantId.value);
      } else {
        ListMatchFindsUuids(slugs[1..], ts);
      }
    }
  }

  /** The list fallback only yields UUIDs: the single tenant's, or one matched by slug. */
  lemma ListFallbackFindsUuids(slugs: seq<string>, list: TenantList)
    ensures ListFallback(slugs, list).Some? ==> IsUuid(ListFallback(slugs, list))
  {
    if list.Listed? {
      var ts := list.tenants;
      if |ts| == 1 && IsUuid(ts[0].tenantId) {
        TrimmedUuidIsUuid(ts[0].tenantId.value);
      } else if |ts| > 1 {
        ListMatchFindsUuids(slugs, ts);
      }
    }
  }

  /** Whatever path succeeds, the value returned satisfies `isUuid` and becomes the cache. */
  lemma ResolvedIsUuid(cached: Option<string>, cands: seq<string>, token: Option<string>,
                       lookup: string -> SlugLookup, list: TenantList)
    ensures var o := Resolution(cached, cands, token, lookup, list);
            o.result.Ok? ==> IsUuid(Some(o.result.value)) && o.cache == Some(o.result.value)
  {
    var first := FirstUuid(cands);
    if first.Some? {
      TrimmedUuidIsUuid(first.value);
    }
    SlugScanFindsUuids(NonUuids(cands), lookup);
    ListFallbackFindsUuids(NonUuids(cands), list);
  }

  /** A cached UUID is returned as it is, with no request and without looking at the token. */
  lemma CachedUuidShortCircuits(cached: string, cands: seq<string>, token: Option<string>,
                                lookup: string -> SlugLookup, list: TenantList)
    requires IsUuid(Some(cached))
    ensures Resolution(Some(cached), cands, token, lookup, list) == Outcome(Ok(cached), [], Some(cached))
  {
  }

  /** Without a token and without a cached UUID, resolution fails before any request. */
  lemma NoTokenFails(cached: Option<string>, cands: seq<string>, token: Option<string>,
                     lookup: string -> SlugLookup, list: TenantList)
    requires !IsUuid(cached) && !Truthy(token)
    ensures Resolution(cached, cands, token, lookup, list) == Outcome(Err(AuthenticationRequired), [], cached)
  {
  }

  /** Candidates are trimmed. */
  lemma {:induction false} CandidatesTrimmed(hints: seq<Option<string>>)
    ensures forall k :: 0 <= k < |Candidates(hints)| ==> Trim(Candidates(hints)[k]) == Candidates(hints)[k]
  {
    if |hints| > 0 {
      CandidatesTrimmed(hints[1..]);
      if hints[0].Some? {
        TrimIdempotent(hints[0].value);
      }
    }
  }

  /** Trimming and filtering work hint by hint: the candidates of two runs of hints are the
      candidates of the first run followed by those of the second, so the priority order of the
      hints is kept and each kept hint appears once per occurrence. */
  lemma {:induction false} CandidatesKeepOrder(a: seq<Option<string>>, b: seq<Option<string>>)
    ensures Candidates(a + b) == Candidates(a) + Candidates(b)
  {
    if |a| > 0 {
      assert (a + b)[1..] == a[1..] + b;
      CandidatesKeepOrder(a[1..], b);
    } else {
      assert a + b == b;
    }
  }

  /** A candidate that is already a UUID wins over every slug and costs no request:
      the first such candidate is returned as it is. */
  lemma UuidCandidateNeedsNoCall(cached: Option<string>, hints: seq<Option<string>>, token: Option<string>,
                                 lookup: string -> SlugLookup, list: TenantList, k: nat)
    requires !IsUuid(cached) && Truthy(token)
    requires k < |Candidates(hints)| && IsUuid(Some(Candidates(hints)[k]))
    ensures var o := Resolution(cached, Candidates(hints), token, lookup, list);
            o.calls == [] && o.result == Ok(FirstUuid(Candidates(hints)).value)
  {
    var cands := Candidates(hints);
    assert FirstUuid(cands).Some?;
    CandidatesTrimmed(hints);
  }

  /** When nothing resolves, every non-UUID candidate was looked up, in order, the list
      was fetched once, and the error names exactly those slugs. */
  lemma UnresolvedTriedEverySlug(cached: Option<string>, cands: seq<string>, token: Option<string>,
                                 lookup: string -> SlugLookup, list: TenantList)
    ensures var o := Resolution(cached, cands, token, lookup, list);
            o.result.Err? && o.result.error.Unresolved? ==>
              o.result.error.triedSlugs == NonUuids(cands) == cands
              && o.calls == BySlugCalls(cands) + [ListAll]
              && o.cache == cached
  {
    SlugScanCalls(NonUuids(cands), lookup);
  }

  /** With several listed tenants, the first slug candidate naming one of them decides. */
  lemma ListMatchPicksFirstSlug(slugs: seq<string>, ts: seq<TenantSummary>, k: nat)
    requires k < |slugs|
    requires forall j :: 0 <= j < k ==> FindBySlug(ts, slugs[j]).None?
    requires FindBySlug(ts, slugs[k]).Some? && IsUuid(FindBySlug(ts, slugs[k]).value.tenantId)
    ensures ListMatch(slugs, ts) == Some(Trim(FindBySlug(ts, slugs[k]).value.tenantId.value))
  {
    var i := 0;
    while i < k
      invariant 0 <= i <= k
      invariant ListMatch(slugs, ts) == ListMatch(slugs[i..], ts)
    {
      assert slugs[i..][1..] == slugs[i + 1..];
      i := i + 1;
    }
  }

  lemma {:induction false} JoinNonEmpty(parts: seq<string>, sep: string)
    requires |parts| > 0 && parts[0] != ""
    ensures Join(parts, sep) != ""
    ensures parts[0] <= Join(parts, sep)
  {
  }

  /** The failure message lists the tried slugs, or says 'none' when there were none. */
  lemma MessageNamesTriedSlugs(tried: seq<string>)
    requires forall k :: 0 <= k < |tried| ==> tried[k] != ""
    ensures UnresolvedMessage(tried)
            == UnresolvedPrefix + (if tried == [] then "none" else Join(tried, ", ")) + UnresolvedSuffix
  {
    if tried != [] {
      JoinNonEmpty(tried, ", ");
    }
  }
}
