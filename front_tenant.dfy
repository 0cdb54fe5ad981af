/** Tenant detection in the administration front-end (`tenantUtils.ts`):
    `?tenant=` query value, then the stored `tenantOverride`, then the sub-domain. */
module FrontTenant {
  import opened Common
  import opened Browser

  const OverrideKey := "tenantOverride"
  const NotDetectedMessage := "Tenant could not be detected from subdomain."

  /** `parts.filter(Boolean)`: drop the empty labels. */
  function NonEmpty(parts: seq<string>): (r: seq<string>)
    ensures |r| <= |parts|
    ensures forall k :: 0 <= k < |r| ==> r[k] != "" && r[k] in parts
    ensures forall p :: p in parts && p != "" ==> p in r
    ensures "" !in r
    ensures forall p :: p != "" ==> multiset(r)[p] == multiset(parts)[p]
  {
    if |parts| == 0 then []
    else
      assert parts == [parts[0]] + parts[1..];
      if parts[0] == "" then NonEmpty(parts[1..])
      else [parts[0]] + NonEmpty(parts[1..])
  }

  /** Filtering works label by label, so the kept labels stay in their order. */
  lemma {:induction false} NonEmptyKeepsOrder(a: seq<string>, b: seq<string>)
    ensures NonEmpty(a + b) == NonEmpty(a) + NonEmpty(b)
  {
    if |a| > 0 {
      assert (a + b)[1..] == a[1..] + b;
      NonEmptyKeepsOrder(a[1..], b);
    } else {
      assert a + b == b;
    }
  }

  /** The host without its port. */
  function BaseHost(hostname: string): string {
    Split(hostname, ':')[0]
  }

  /** The non-empty dot-separated labels of the host without its port. */
  function HostLabels(hostname: string): seq<string> {
    NonEmpty(Split(BaseHost(hostname), '.'))
  }

  /** `getTenantFromHostname(hostname)`. */
  function TenantFromHostname(hostname: string): (r: Option<string>)
    ensures r.Some? ==> |HostLabels(hostname)| >= 2 && r.value != "" && r.value == HostLabels(hostname)[0]
    ensures r.Some? <==> |HostLabels(hostname)| >= 3
                         || (|HostLabels(hostname)| == 2 && ToLower(HostLabels(hostname)[1]) == "localhost")
  {
    var baseHost := BaseHost(hostname);
    if baseHost == "" then None
    else
      var parts := NonEmpty(Split(baseHost, '.'));
      if |parts| >= 3 then Some(parts[0])
      else if |parts| >= 2 && ToLower(parts[|parts| - 1]) == "localhost" then Some(parts[0])
      else None
  }

  /** `getTenantFromQueryParam` / `getTenantFromLocalStorage`: the trimmed value, blank means absent. */
  function TrimmedOrNull(t: Option<string>): (r: Option<string>)
    ensures r.Some? <==> t.Some? && !IsBlank(t.value)
    ensures r.Some? ==> r.value == Trim(t.value) && r.value != ""
  {
    TrimEmptyIffBlank(if t.Some? then t.value else "");
    if t.Some? && t.value != "" && |Trim(t.value)| > 0 then Some(Trim(t.value)) else None
  }

  /** What `detectTenant` returns for a query value, a stored override and a host name. */
  function Detected(query: Option<string>, stored: Option<string>, hostname: string): Option<string> {
    var fromQuery := TrimmedOrNull(query);
    if fromQuery.Some? then fromQuery
    else
      var fromStorage := TrimmedOrNull(stored);
      if fromStorage.Some? then fromStorage else TenantFromHostname(hostname)
  }

  /** `detectTenant()`: a query value is persisted as the override before it is returned. */
  method DetectTenant(storage: LocalStorage, query: Option<string>, hostname: string) returns (t: Option<string>)
    modifies storage
    ensures t == Detected(query, old(storage.GetItem(OverrideKey)), hostname)
    ensures TrimmedOrNull(query).Some? ==> storage.items == old(storage.items)[OverrideKey := TrimmedOrNull(query).value]
    ensures TrimmedOrNull(query).None? ==> storage.items == old(storage.items)
  {
    var fromQuery := TrimmedOrNull(query);
    if fromQuery.Some? {
      storage.SetItem(OverrideKey, fromQuery.value);
      return fromQuery;
    }
    var fromStorage := TrimmedOrNull(storage.GetItem(OverrideKey));
    if fromStorage.Some? {
      return fromStorage;
    }
    t := TenantFromHostname(hostname);
  }

  /** `requireTenantFromLocation()`. */
  method RequireTenantFromLocation(storage: LocalStorage, query: Option<string>, hostname: string)
    returns (r: Result<string, string>)
    modifies storage
    ensures r.Err? <==> Detected(query, old(storage.GetItem(OverrideKey)), hostname).None?
    ensures r.Err? ==> r.error == NotDetectedMessage
    ensures r.Ok? ==> r.value != "" && Some(r.value) == Detected(query, old(storage.GetItem(OverrideKey)), hostname)
    ensures TrimmedOrNull(query).Some? ==> storage.items == old(storage.items)[OverrideKey := TrimmedOrNull(query).value]
    ensures TrimmedOrNull(query).None? ==> storage.items == old(storage.items)
  {
    var t := DetectTenant(storage, query, hostname);
    if t.None? || t.value == "" {
      return Err(NotDetectedMessage);
    }
    return Ok(t.value);
  }

  // ----------------------------------------------------------------- lemmas

  /** Every detected tenant is a non-empty string. */
  lemma DetectedNonEmpty(query: Option<string>, stored: Option<string>, hostname: string)
    ensures Detected(query, stored, hostname).Some? ==> Detected(query, stored, hostname).value != ""
  {
  }

  /** A non-blank query value wins over everything else, trimmed. */
  lemma QueryWins(q: string, stored: Option<string>, hostname: string)
    requires !IsBlank(q)
    ensures Detected(Some(q), stored, hostname) == Some(Trim(q))
  {
  }

  /** The override persisted from a query is detected again on the next call without a query:
      the tenant survives a refresh or navigation. */
  lemma {:induction false} OverrideSurvivesReload(q: string, hostname: string, hostname2: string)
    requires !IsBlank(q)
    ensures Detected(None, Some(Trim(q)), hostname2) == Detected(Some(q), None, hostname)
  {
    TrimEmptyIffBlank(q);
    TrimIdempotent(q);
    TrimEmptyIffBlank(Trim(q));
  }

  /** A blank stored override is ignored in favour of the host name. */
  lemma BlankOverrideIgnored(stored: string, hostname: string)
    requires IsBlank(stored)
    ensures Detected(None, Some(stored), hostname) == TenantFromHostname(hostname)
  {
  }

  /** The port does not take part in tenant detection. */
  lemma PortIgnored(host: string, port: string)
    requires ':' !in host
    ensures TenantFromHostname(host + ":" + port) == TenantFromHostname(host)
  {
    SplitCons(host, port, ':');
    SplitNoSep(host, ':');
    assert host + ":" + port == host + [':'] + port;
  }

  /** Labels without dots or colons. */
  predicate IsLabel(a: string) {
    a != "" && '.' !in a && ':' !in a
  }

  lemma NonEmptyKeepsLabels(labels: seq<string>)
    requires forall k :: 0 <= k < |labels| ==> labels[k] != ""
    ensures NonEmpty(labels) == labels
  {
    if |labels| > 0 {
      NonEmptyKeepsLabels(labels[1..]);
    }
  }

  /** A host such as `acme.myapp.com` is tenant `acme`, whatever the other labels are. */
  lemma ThreeLabelHost(a: string, b: string, c: string)
    requires IsLabel(a) && IsLabel(b) && IsLabel(c)
    ensures TenantFromHostname(a + "." + b + "." + c) == Some(a)
  {
    var h := a + "." + b + "." + c;
    assert h == a + ['.'] + (b + ['.'] + c);
    assert ':' !in h;
    SplitNoSep(h, ':');
    SplitCons(a, b + ['.'] + c, '.');
    SplitCons(b, c, '.');
    SplitNoSep(c, '.');
    NonEmptyKeepsLabels([a, b, c]);
    assert HostLabels(h) == [a, b, c];
  }

  /** `localhost` is a label, already in lower case. */
  lemma LocalhostLabel()
    ensures IsLabel("localhost")
    ensures ToLower("localhost") == "localhost"
  {
    var l := "localhost";
    forall i | 0 <= i < |l|
      ensures ToLower(l)[i] == l[i]
    {
    }
  }

  /** `acme.localhost:5173` is tenant `acme`. */
  lemma LocalhostSubdomain(a: string, port: string)
    requires IsLabel(a)
    ensures TenantFromHostname(a + ".localhost:" + port) == Some(a)
  {
    var h := a + ".localhost:" + port;
    assert h == a + "." + "localhost" + ":" + port by {
      assert ".localhost:" == "." + "localhost" + ":";
    }
    TwoLabelHost(a, "localhost", port);
    var labels := HostLabels(h);
    assert labels == [a, "localhost"];
    LocalhostLabel();
    assert ToLower(labels[1]) == "localhost";
  }

  /** The host `a.b:port` has the labels `a` and `b`. */
  lemma TwoLabelHost(a: string, b: string, port: string)
    requires IsLabel(a) && IsLabel(b)
    ensures HostLabels(a + "." + b + ":" + port) == [a, b]
  {
    var base := a + ['.'] + b;
    assert a + "." + b + ":" + port == base + [':'] + port;
    assert ':' !in base;
    SplitCons(base, port, ':');
    assert BaseHost(a + "." + b + ":" + port) == base;
    SplitCons(a, b, '.');
    SplitNoSep(b, '.');
    NonEmptyKeepsLabels([a, b]);
  }

  /** A single-label host such as `localhost:5173` is no tenant. */
  lemma SingleLabelHost(a: string, port: string)
    requires IsLabel(a)
    ensures TenantFromHostname(a + ":" + port) == None
  {
    assert a + ":" + port == a + [':'] + port;
    SplitCons(a, port, ':');
    SplitNoSep(a, '.');
    NonEmptyKeepsLabels([a]);
  }
}
