/** The tenant client's session provider (`keymatic-client/src/auth/AuthProvider.tsx`): start-up
    validation of the stored token, the tenant it settles on, the five-minute refresh check,
    and logout. */
module LocalSession {
  import opened Common
  import opened Browser
  import opened LocalAuth

  /** The tenant a token names: `tenant_id`, else `tenantId`, else `tenant`. */
  function TenantFromToken(data: TokenData): Option<string> {
    if Truthy(data.tenant_id) then data.tenant_id
    else if Truthy(data.tenantId) then data.tenantId
    else if Truthy(data.tenant) then data.tenant
    else None
  }

  /** The tenant chosen at start-up: the token's, else the host's `TENANT_SLUG`, else the stored one. */
  function ResolvedTenant(data: TokenData, tenantSlug: Option<string>, stored: Option<string>): Option<string> {
    var fromToken := TenantFromToken(data);
    if Truthy(fromToken) then fromToken
    else if Truthy(tenantSlug) then tenantSlug
    else if Truthy(stored) then stored
    else None
  }

  class SessionProvider {
    var isAuthenticated: bool
    var isLoading: bool
    var user: Option<TokenData>
    var token: Option<string>
    var tenantId: Option<string>
    const storage: LocalStorage

    /** Initial state: not authenticated, loading, tenant taken from storage. */
    constructor (storage: LocalStorage)
      ensures this.storage == storage
      ensures !isAuthenticated && isLoading && user.None? && token.None?
      ensures tenantId == storage.GetItem(TenantIdKey)
    {
      isAuthenticated := false;
      isLoading := true;
      user := None;
      token := None;
      tenantId := storage.GetItem(TenantIdKey);
      this.storage := storage;
    }

    /** `handleLogout()`. */
    method HandleLogout()
      modifies this, storage
      ensures !isAuthenticated && user.None? && token.None? && tenantId.None?
      ensures storage.items == LoggedOut(old(storage.items))
      ensures isLoading == old(isLoading)
    {
      Logout(storage);
      isAuthenticated := false;
      user := None;
      token := None;
      tenantId := None;
    }

    /** `initAuth()` at time `now`; `tenantSlug` is the host's `TENANT_SLUG`. */
    method InitAuth(now: int, decode: string -> Option<TokenData>, reply: RefreshReply, tenantSlug: Option<string>)
      modifies this, storage
      ensures !isLoading
      ensures !Truthy(old(storage.GetItem(TokenKey))) ==>
                storage.items == old(storage.items) && isAuthenticated == old(isAuthenticated)
                && token == old(token) && user == old(user) && tenantId == old(tenantId)
      ensures Truthy(old(storage.GetItem(TokenKey))) ==>
                var e := EnsureValid(old(storage.items), now, decode, reply);
                if Truthy(e.token) && ParseToken(e.token.value, decode).Some? then
                  var data := ParseToken(e.token.value, decode).value;
                  var resolved := ResolvedTenant(data, tenantSlug, if TenantIdKey in e.items then Some(e.items[TenantIdKey]) else None);
                  isAuthenticated && token == e.token && user == Some(data) && tenantId == resolved
                  && storage.items == (if Truthy(resolved) then e.items[TenantIdKey := resolved.value] else e.items)
                else
                  storage.items == LoggedOut(e.items) && isAuthenticated == old(isAuthenticated)
                  && token == old(token) && user == old(user) && tenantId == old(tenantId)
    {
      var storedToken := storage.GetItem(TokenKey);
      if Truthy(storedToken) {
        var validToken := EnsureValidToken(storage, now, decode, reply);
        if Truthy(validToken) {
          var tokenData := ParseToken(validToken.value, decode);
          if tokenData.Some? {
            var resolvedTenant := ResolvedTenant(tokenData.value, tenantSlug, storage.GetItem(TenantIdKey));
            isAuthenticated := true;
            token := validToken;
            user := tokenData;
            tenantId := resolvedTenant;
            if Truthy(resolvedTenant) {
              storage.SetItem(TenantIdKey, resolvedTenant.value);
            }
          } else {
            Logout(storage);
          }
        } else {
          Logout(storage);
        }
      }
      isLoading := false;
    }

    /** One run of the five-minute refresh check at time `now`. */
    method RefreshCheck(now: int, decode: string -> Option<TokenData>, reply: RefreshReply)
      modifies this, storage
      ensures isLoading == old(isLoading)
      ensures !Truthy(old(storage.GetItem(TokenKey))) ==>
                storage.items == old(storage.items) && token == old(token) && user == old(user)
                && tenantId == old(tenantId) && isAuthenticated == old(isAuthenticated)
      ensures Truthy(old(storage.GetItem(TokenKey))) ==>
                var stored := old(storage.GetItem(TokenKey)).value;
                var e := EnsureValid(old(storage.items), now, decode, reply);
                if !Truthy(e.token) then
                  !isAuthenticated && token.None? && user.None? && tenantId.None?
                  && storage.items == LoggedOut(e.items)
                else if e.token.value == stored then
                  storage.items == e.items && token == old(token) && user == old(user) && tenantId == old(tenantId)
                  && isAuthenticated == old(isAuthenticated)
                else
                  var data := ParseToken(e.token.value, decode);
                  var fromToken := if data.Some? then TenantFromToken(data.value) else None;
                  token == e.token && isAuthenticated == old(isAuthenticated)
                  && user == (if data.Some? then data else old(user))
                  && (Truthy(fromToken) ==> tenantId == fromToken && storage.items == e.items[TenantIdKey := fromToken.value])
                  && (!Truthy(fromToken) ==> tenantId == old(tenantId) && storage.items == e.items)
    {
      var storedToken := storage.GetItem(TokenKey);
      if Truthy(storedToken) {
        var validToken := EnsureValidToken(storage, now, decode, reply);
        if Truthy(validToken) && validToken.value != storedToken.value {
          token := validToken;
          var tokenData := ParseToken(validToken.value, decode);
          if tokenData.Some? {
            user := tokenData;
            var tenantFromToken := TenantFromToken(tokenData.value);
            if Truthy(tenantFromToken) {
              tenantId := tenantFromToken;
              storage.SetItem(TenantIdKey, tenantFromToken.value);
            }
          }
        } else if !Truthy(validToken) {
          HandleLogout();
        }
      }
    }
  }

  // ----------------------------------------------------------------- lemmas

  /** The token's own claims come first, in the order `tenant_id`, `tenantId`, `tenant`. */
  lemma TenantPrecedence(data: TokenData, tenantSlug: Option<string>, stored: Option<string>)
    ensures Truthy(data.tenant_id) ==> ResolvedTenant(data, tenantSlug, stored) == data.tenant_id
    ensures !Truthy(data.tenant_id) && Truthy(data.tenantId) ==> ResolvedTenant(data, tenantSlug, stored) == data.tenantId
    ensures !Truthy(data.tenant_id) && !Truthy(data.tenantId) && Truthy(data.tenant)
            ==> ResolvedTenant(data, tenantSlug, stored) == data.tenant
    ensures TenantFromToken(data).None? && Truthy(tenantSlug) ==> ResolvedTenant(data, tenantSlug, stored) == tenantSlug
    ensures TenantFromToken(data).None? && !Truthy(tenantSlug) ==>
              ResolvedTenant(data, tenantSlug, stored) == (if Truthy(stored) then stored else None)
  {
  }

  /** The resolved tenant is one of the three sources and is never the empty string. */
  lemma ResolvedTenantIsASource(data: TokenData, tenantSlug: Option<string>, stored: Option<string>)
    ensures var r := ResolvedTenant(data, tenantSlug, stored);
            r.Some? ==> r.value != "" && (r == TenantFromToken(data) || r == tenantSlug || r == stored)
  {
  }
}
