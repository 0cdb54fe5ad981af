/** The administration front-end's Keycloak session provider (`front-end/src/auth/AuthProvider.tsx`):
    role extraction, the tenant taken from the token, the initialisation latch and callback guard,
    the Keycloak event handlers and the single 15-second refresh interval. */
module KeycloakAuth {
  import opened Common
  import opened Browser
  import FrontTenant

  const ClientId := "react-client"
  const OverrideKey := "tenantOverride"
  const AuthErrorMessage := "Authentication error."
  const InitFailedMessage := "Failed to initialize Keycloak."
  /** Refresh period of the token interval, in milliseconds. */
  const RefreshPeriodMs := 15000
  /** Minimum validity, in seconds, asked of `updateToken`. */
  const MinValiditySeconds := 60

  /** The parts of a parsed Keycloak token the provider reads. */
  datatype TokenClaims = TokenClaims(
    tenantId: Option<string>,                  // `tenant_id`
    realmRoles: Option<seq<string>>,           // `realm_access.roles`
    clientRoles: map<string, seq<string>>)     // `resource_access[client].roles`

  /** `onLoad` of the options passed to `init`. */
  datatype OnLoad = LoginRequired | CheckSso

  /** How `instance.init(options)` ended. */
  datatype InitOutcome =
    | InitReturned(authenticated: bool, instanceToken: Option<string>, claims: Option<TokenClaims>)
    | InitThrew(message: Option<string>)

  /** How `updateToken(60)` ended. */
  datatype UpdateOutcome = Refreshed | NotRefreshed | UpdateFailed

  /** Add each role to the set, one at a time (`roles.forEach(r => set.add(r))`). */
  function AddAll(acc: set<string>, roles: seq<string>): set<string>
    decreases |roles|
  {
    if |roles| == 0 then acc else AddAll(acc + {roles[0]}, roles[1..])
  }

  function RealmRoles(c: TokenClaims): seq<string> {
    if c.realmRoles.Some? then c.realmRoles.value else []
  }

  function ClientRoles(c: TokenClaims, clientId: string): seq<string> {
    if clientId in c.clientRoles then c.clientRoles[clientId] else []
  }

  /** `extractRoles(user, clientId)`. */
  function ExtractRoles(user: Option<TokenClaims>, clientId: string): set<string> {
    if user.None? then {}
    else AddAll(AddAll({}, RealmRoles(user.value)), ClientRoles(user.value, clientId))
  }

  /** `hasRole(role)` on the current user. */
  predicate HasRole(user: Option<TokenClaims>, role: string)
    ensures HasRole(user, role) ==> user.Some?
    ensures user.Some? && role in RealmRoles(user.value) ==> HasRole(user, role)
  {
    if user.Some? then
      AddAllMembers({}, RealmRoles(user.value), role);
      AddAllMembers(AddAll({}, RealmRoles(user.value)), ClientRoles(user.value, ClientId), role);
      role in ExtractRoles(user, ClientId)
    else false
  }

  /** Whether the URL carries an authorisation code in its query or fragment. */
  predicate HasCode(search: string, hash: string) {
    Contains(search, "code=") || Contains(hash, "code=")
  }

  /** The tenant `updateTenantFromToken` settles on: the token's `tenant_id`, else what
      `detectTenant()` finds, else ''. */
  function EffectiveTenant(claims: Option<TokenClaims>, stored: Option<string>, query: Option<string>,
                           hostname: string): string
  {
    var fromToken := if claims.Some? then claims.value.tenantId else None;
    if Truthy(fromToken) then fromToken.value
    else
      var detected := FrontTenant.Detected(query, stored, hostname);
      if detected.Some? then detected.value else ""
  }

  /** The storage after the tenant is settled: a non-empty tenant is stored as the override, an
      empty one removes it. */
  function OverrideWritten(items: map<string, string>, tenant: string): map<string, string> {
    if tenant != "" then items[OverrideKey := tenant] else items - {OverrideKey}
  }

  /** The provider's state: React state, the three refs, the window's intervals and storage. */
  class AuthProvider {
    var isAuthenticated: bool
    var token: Option<string>
    var user: Option<TokenClaims>
    var tenant: string
    var error: Option<string>
    /** `refreshTimerRef`: the id of the provider's interval, if any. */
    var refreshTimer: Option<nat>
    /** `isInitializingRef`: the initialisation latch. */
    var isInitializing: bool
    /** `hasProcessedCallbackRef`. */
    var hasProcessedCallback: bool
    /** Intervals registered with the window by this provider, and the next id it hands out. */
    var liveTimers: set<nat>
    var nextTimerId: nat
    /** Number of redirects to the Keycloak login page requested. */
    var loginRequests: nat
    const storage: LocalStorage

    /** The provider owns at most one live refresh interval, the one its ref names. */
    predicate Valid()
      reads this
    {
      nextTimerId >= 1
      && (refreshTimer.None? ==> liveTimers == {})
      && (refreshTimer.Some? ==> 1 <= refreshTimer.value < nextTimerId && liveTimers == {refreshTimer.value})
    }

    constructor (storage: LocalStorage)
      ensures Valid() && this.storage == storage
      ensures !isAuthenticated && token.None? && user.None? && tenant == "" && error.None?
      ensures !isInitializing && !hasProcessedCallback && loginRequests == 0
      ensures refreshTimer.None? && liveTimers == {} && nextTimerId == 1
    {
      isAuthenticated := false;
      token := None;
      user := None;
      tenant := "";
      error := None;
      refreshTimer := None;
      isInitializing := false;
      hasProcessedCallback := false;
      liveTimers := {};
      nextTimerId := 1;
      loginRequests := 0;
      this.storage := storage;
    }

    /** `clearRefreshTimer()`. */
    method ClearRefreshTimer()
      requires Valid()
      modifies this
      ensures Valid() && refreshTimer.None? && liveTimers == {}
      ensures nextTimerId == old(nextTimerId)
      ensures isAuthenticated == old(isAuthenticated) && token == old(token) && user == old(user)
      ensures tenant == old(tenant) && error == old(error) && loginRequests == old(loginRequests)
      ensures isInitializing == old(isInitializing) && hasProcessedCallback == old(hasProcessedCallback)
    {
      if refreshTimer.Some? {
        liveTimers := liveTimers - {refreshTimer.value};
        refreshTimer := None;
      }
    }

    /** `scheduleTokenRefresh(instance)`: the previous interval is cleared before a new one starts. */
    method ScheduleTokenRefresh()
      requires Valid()
      modifies this
      ensures Valid() && refreshTimer == Some(old(nextTimerId)) && liveTimers == {old(nextTimerId)}
      ensures old(refreshTimer).Some? ==> old(refreshTimer).value !in liveTimers
      ensures isAuthenticated == old(isAuthenticated) && token == old(token) && user == old(user)
      ensures tenant == old(tenant) && error == old(error) && loginRequests == old(loginRequests)
      ensures isInitializing == old(isInitializing) && hasProcessedCallback == old(hasProcessedCallback)
    {
      ClearRefreshTimer();
      var id := nextTimerId;
      liveTimers := liveTimers + {id};
      refreshTimer := Some(id);
      nextTimerId := nextTimerId + 1;
    }

    /** One tick of the refresh interval: a failed `updateToken(60)` sends the user to login. */
    method RefreshTick(outcome: UpdateOutcome)
      modifies this
      ensures loginRequests == old(loginRequests) + (if outcome == UpdateFailed then 1 else 0)
      ensures isAuthenticated == old(isAuthenticated) && token == old(token) && user == old(user)
      ensures tenant == old(tenant) && refreshTimer == old(refreshTimer) && liveTimers == old(liveTimers)
      ensures error == old(error) && isInitializing == old(isInitializing) && hasProcessedCallback == old(hasProcessedCallback)
      ensures nextTimerId == old(nextTimerId)
    {
      if outcome == UpdateFailed {
        loginRequests := loginRequests + 1;
      }
    }

    /** `updateTenantFromToken(tokenParsed)`; `query` and `hostname` stand for the page location. */
    method UpdateTenantFromToken(claims: Option<TokenClaims>, query: Option<string>, hostname: string)
      modifies this, storage
      ensures tenant == EffectiveTenant(claims, old(storage.GetItem(OverrideKey)), query, hostname)
      ensures tenant != "" ==> storage.items == old(storage.items)[OverrideKey := tenant]
      ensures tenant == "" ==> storage.items == old(storage.items) - {OverrideKey}
      ensures storage.items == OverrideWritten(old(storage.items), tenant)
      ensures isAuthenticated == old(isAuthenticated) && token == old(token) && user == old(user)
      ensures error == old(error) && loginRequests == old(loginRequests)
      ensures refreshTimer == old(refreshTimer) && liveTimers == old(liveTimers) && nextTimerId == old(nextTimerId)
      ensures isInitializing == old(isInitializing) && hasProcessedCallback == old(hasProcessedCallback)
    {
      var fromToken := if claims.Some? then claims.value.tenantId else None;
      var effective := if Truthy(fromToken) then fromToken.value else "";
      if !Truthy(fromToken) {
        var detected := FrontTenant.DetectTenant(storage, query, hostname);
        effective := if detected.Some? then detected.value else "";
      }
      tenant := effective;
      if effective != "" {
        storage.SetItem(OverrideKey, effective);
      } else {
        storage.RemoveItem(OverrideKey);
      }
    }

    /** The synchronous part of `initKeycloak()`, up to the `await instance.init(...)`: the latch
        and the callback guard, then the latch is taken. `started` is false when it returns early. */
    method BeginInit(search: string, hash: string) returns (started: bool, onLoad: OnLoad)
      requires Valid()
      modifies this
      ensures Valid()
      ensures started <==> !old(isInitializing) && !(HasCode(search, hash) && old(hasProcessedCallback))
      ensures !started ==> isInitializing == old(isInitializing) && hasProcessedCallback == old(hasProcessedCallback)
                           && error == old(error)
      ensures started ==> isInitializing && error.None?
                          && hasProcessedCallback == (old(hasProcessedCallback) || HasCode(search, hash))
                          && onLoad == (if HasCode(search, hash) then CheckSso else LoginRequired)
      ensures isAuthenticated == old(isAuthenticated) && token == old(token) && user == old(user)
      ensures tenant == old(tenant) && loginRequests == old(loginRequests)
      ensures refreshTimer == old(refreshTimer) && liveTimers == old(liveTimers) && nextTimerId == old(nextTimerId)
    {
      onLoad := LoginRequired;
      if isInitializing {
        return false, onLoad;
      }
      var hasCode := HasCode(search, hash);
      if hasCode && hasProcessedCallback {
        return false, onLoad;
      }
      isInitializing := true;
      error := None;
      if hasCode {
        hasProcessedCallback := true;
      }
      onLoad := if hasCode then CheckSso else LoginRequired;
      started := true;
    }

    /** The rest of `initKeycloak()` once `init` has settled, including its `catch` and `finally`. */
    method FinishInit(search: string, hash: string, outcome: InitOutcome, query: Option<string>, hostname: string)
      requires Valid() && isInitializing
      modifies this, storage
      ensures Valid() && !isInitializing
      ensures hasProcessedCallback == old(hasProcessedCallback)
      ensures outcome.InitThrew? ==>
                error == Some(if outcome.message.Some? then outcome.message.value else InitFailedMessage)
                && isAuthenticated == old(isAuthenticated) && token == old(token)
                && loginRequests == old(loginRequests) && refreshTimer == old(refreshTimer)
      ensures !(outcome.InitReturned? && Truthy(outcome.instanceToken)) ==>
                user == old(user) && tenant == old(tenant) && storage.items == old(storage.items)
                && liveTimers == old(liveTimers) && nextTimerId == old(nextTimerId)
      ensures outcome.InitReturned? && Truthy(outcome.instanceToken) ==>
                isAuthenticated && token == outcome.instanceToken && user == outcome.claims
                && refreshTimer == Some(old(nextTimerId)) && liveTimers == {old(nextTimerId)}
                && tenant == EffectiveTenant(outcome.claims, old(storage.GetItem(OverrideKey)), query, hostname)
                && storage.items == OverrideWritten(old(storage.items), tenant)
                && loginRequests == old(loginRequests)
      ensures outcome.InitReturned? && !Truthy(outcome.instanceToken) ==>
                isAuthenticated == old(isAuthenticated) && token == old(token) && refreshTimer == old(refreshTimer)
                && loginRequests == old(loginRequests)
                   + (if !outcome.authenticated && !HasCode(search, hash) then 1 else 0)
      ensures outcome.InitReturned? ==> error == old(error)
    {
      if outcome.InitThrew? {
        error := Some(if outcome.message.Some? then outcome.message.value else InitFailedMessage);
      } else {
        var hasCode := HasCode(search, hash);
        if Truthy(outcome.instanceToken) {
          isAuthenticated := true;
          token := outcome.instanceToken;
          user := outcome.claims;
          UpdateTenantFromToken(outcome.claims, query, hostname);
          ScheduleTokenRefresh();
        } else if !outcome.authenticated && !hasCode {
          loginRequests := loginRequests + 1;
        }
      }
      isInitializing := false;
    }

    /** `onAuthSuccess`: the callback has been processed and the session starts. */
    method OnAuthSuccess(instanceToken: Option<string>, claims: Option<TokenClaims>, query: Option<string>, hostname: string)
      modifies this, storage
      ensures hasProcessedCallback && isAuthenticated && token == instanceToken && user == claims
      ensures tenant == EffectiveTenant(claims, old(storage.GetItem(OverrideKey)), query, hostname)
      ensures storage.items == OverrideWritten(old(storage.items), tenant)
      ensures isInitializing == old(isInitializing) && error == old(error) && loginRequests == old(loginRequests)
      ensures refreshTimer == old(refreshTimer) && liveTimers == old(liveTimers) && nextTimerId == old(nextTimerId)
    {
      hasProcessedCallback := true;
      isAuthenticated := true;
      token := instanceToken;
      user := claims;
      UpdateTenantFromToken(claims, query, hostname);
    }

    /** `onAuthError`. */
    method OnAuthError()
      modifies this
      ensures error == Some(AuthErrorMessage)
      ensures isAuthenticated == old(isAuthenticated) && token == old(token) && user == old(user) && tenant == old(tenant)
      ensures isInitializing == old(isInitializing) && hasProcessedCallback == old(hasProcessedCallback)
      ensures refreshTimer == old(refreshTimer) && liveTimers == old(liveTimers) && nextTimerId == old(nextTimerId)
      ensures loginRequests == old(loginRequests)
    {
      error := Some(AuthErrorMessage);
    }

    /** `onTokenExpired`: refresh; on success take the new token, otherwise go to login. */
    method OnTokenExpired(outcome: UpdateOutcome, instanceToken: Option<string>, claims: Option<TokenClaims>,
                          query: Option<string>, hostname: string)
      modifies this, storage
      ensures outcome == Refreshed ==>
                token == instanceToken && user == claims && loginRequests == old(loginRequests)
                && tenant == EffectiveTenant(claims, old(storage.GetItem(OverrideKey)), query, hostname)
                && storage.items == OverrideWritten(old(storage.items), tenant)
      ensures outcome != Refreshed ==>
                loginRequests == old(loginRequests) + 1 && token == old(token) && user == old(user)
                && tenant == old(tenant) && storage.items == old(storage.items)
      ensures isAuthenticated == old(isAuthenticated) && error == old(error)
      ensures isInitializing == old(isInitializing) && hasProcessedCallback == old(hasProcessedCallback)
      ensures refreshTimer == old(refreshTimer) && liveTimers == old(liveTimers) && nextTimerId == old(nextTimerId)
    {
      if outcome == Refreshed {
        token := instanceToken;
        user := claims;
        UpdateTenantFromToken(claims, query, hostname);
      } else {
        loginRequests := loginRequests + 1;
      }
    }

    /** `onAuthRefreshSuccess`. */
    method OnAuthRefreshSuccess(instanceToken: Option<string>, claims: Option<TokenClaims>,
                                query: Option<string>, hostname: string)
      modifies this, storage
      ensures token == instanceToken && user == claims
      ensures tenant == EffectiveTenant(claims, old(storage.GetItem(OverrideKey)), query, hostname)
      ensures storage.items == OverrideWritten(old(storage.items), tenant)
      ensures isAuthenticated == old(isAuthenticated) && error == old(error) && loginRequests == old(loginRequests)
      ensures isInitializing == old(isInitializing) && hasProcessedCallback == old(hasProcessedCallback)
      ensures refreshTimer == old(refreshTimer) && liveTimers == old(liveTimers) && nextTimerId == old(nextTimerId)
    {
      token := instanceToken;
      user := claims;
      UpdateTenantFromToken(claims, query, hostname);
    }

    /** `onAuthLogout`: the session and the tenant override are cleared. */
    method OnAuthLogout()
      modifies this, storage
      ensures !isAuthenticated && token.None? && user.None? && tenant == ""
      ensures storage.items == old(storage.items) - {OverrideKey}
      ensures error == old(error) && loginRequests == old(loginRequests)
      ensures isInitializing == old(isInitializing) && hasProcessedCallback == old(hasProcessedCallback)
      ensures refreshTimer == old(refreshTimer) && liveTimers == old(liveTimers) && nextTimerId == old(nextTimerId)
    {
      isAuthenticated := false;
      token := None;
      user := None;
      tenant := "";
      storage.RemoveItem(OverrideKey);
    }

    /** `hasRole(role)`. */
    predicate UserHasRole(role: string)
      reads this
    {
      HasRole(user, role)
    }
  }

  // ----------------------------------------------------------------- lemmas

  /** Adding roles one at a time gives exactly the old roles and the new ones. */
  lemma {:induction false} AddAllMembers(acc: set<string>, roles: seq<string>, r: string)
    ensures r in AddAll(acc, roles) <==> r in acc || r in roles
    decreases |roles|
  {
    if |roles| > 0 {
      AddAllMembers(acc + {roles[0]}, roles[1..], r);
      assert roles == [roles[0]] + roles[1..];
    }
  }

  /** `hasRole(r)` holds exactly when `r` is a realm role or a `react-client` role of the user;
      with no user it never holds. */
  lemma HasRoleIff(user: Option<TokenClaims>, role: string)
    ensures HasRole(user, role) <==>
              user.Some? && (role in RealmRoles(user.value) || role in ClientRoles(user.value, ClientId))
  {
    if user.Some? {
      AddAllMembers({}, RealmRoles(user.value), role);
      AddAllMembers(AddAll({}, RealmRoles(user.value)), ClientRoles(user.value, ClientId), role);
    }
  }

  /** Roles granted to another client do not count. */
  lemma OtherClientRolesIgnored(realm: seq<string>, other: string, roles: seq<string>, role: string)
    requires other != ClientId && role !in realm
    ensures !HasRole(Some(TokenClaims(None, Some(realm), map[other := roles])), role)
  {
    HasRoleIff(Some(TokenClaims(None, Some(realm), map[other := roles])), role);
  }

  /** The token's `tenant_id` wins over the location; without it the detected tenant is used. */
  lemma TokenTenantWins(claims: TokenClaims, stored: Option<string>, query: Option<string>, hostname: string)
    ensures Truthy(claims.tenantId) ==> EffectiveTenant(Some(claims), stored, query, hostname) == claims.tenantId.value
    ensures !Truthy(claims.tenantId) && FrontTenant.Detected(query, stored, hostname).None?
            ==> EffectiveTenant(Some(claims), stored, query, hostname) == ""
  {
  }

  /** An authorisation code is recognised in the query string as well as in the fragment. */
  lemma CodeInFragment(search: string, before: string, after: string)
    ensures HasCode(search, before + "code=" + after)
  {
    var h := before + "code=" + after;
    assert h[|before|..|before| + 5] == "code=";
    ContainsAt(h, "code=", |before|);
  }
}
