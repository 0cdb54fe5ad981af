/** The tenant client's HTTP service (`keymatic-client/src/services/api.ts`): the request
    interceptor that adds the bearer token and tenant header, and the response interceptor
    that retries a 401 once after refreshing the token. */
module ApiClient {
  import opened Common
  import opened Browser
  import opened LocalAuth

  const AuthorizationHeader := "Authorization"
  const TenantHeader := "X-Tenant-ID"
  const LoginPath := "/login"

  /** How a request ended for its caller: resolved with a 2xx status, or rejected with the
      error of the last response. */
  datatype Outcome = Resolved(status: int) | Rejected(status: int)

  predicate IsSuccess(status: int) { 200 <= status < 300 }

  /** The request's headers after the request interceptor, given the stored token and the tenant. */
  function WithAuthHeaders(headers: map<string, string>, token: Option<string>, tenantId: Option<string>): map<string, string> {
    var withToken := if Truthy(token) then headers[AuthorizationHeader := "Bearer " + token.value] else headers;
    if Truthy(tenantId) then withToken[TenantHeader := tenantId.value] else withToken
  }

  /** `getTenantId()`: the stored tenant, else the host's `TENANT_SLUG`, else null. */
  function TenantIdFor(stored: Option<string>, tenantSlug: Option<string>): (r: Option<string>)
    ensures r.Some? ==> r.value != ""
    ensures Truthy(stored) ==> r == stored
    ensures !Truthy(stored) ==> r == (if Truthy(tenantSlug) then tenantSlug else None)
  {
    var t := OrElse(stored, tenantSlug);
    if Truthy(t) then t else None
  }

  /** A request in flight: its headers and the `_retry` mark, both changed in place. */
  class RequestConfig {
    var headers: map<string, string>
    var retried: bool

    constructor (headers: map<string, string>)
      ensures this.headers == headers && !retried
    {
      this.headers := headers;
      retried := false;
    }
  }

  class ApiService {
    const storage: LocalStorage
    /** `TENANT_SLUG`, fixed when the module loads. */
    const tenantSlug: Option<string>
    /** `window.location.href` once it has been set to the login page. */
    var redirect: Option<string>

    constructor (storage: LocalStorage, tenantSlug: Option<string>)
      ensures this.storage == storage && this.tenantSlug == tenantSlug && redirect.None?
    {
      this.storage := storage;
      this.tenantSlug := tenantSlug;
      redirect := None;
    }

    /** `getTenantId()`. */
    function GetTenantId(): Option<string>
      reads this, storage
    {
      TenantIdFor(storage.GetItem(TenantIdKey), tenantSlug)
    }

    /** The request interceptor. */
    method AttachHeaders(config: RequestConfig)
      modifies config
      ensures config.headers == WithAuthHeaders(old(config.headers), storage.GetItem(TokenKey), GetTenantId())
      ensures config.retried == old(config.retried)
    {
      var token := storage.GetItem(TokenKey);
      var tenantId := GetTenantId();
      if Truthy(token) {
        config.headers := config.headers[AuthorizationHeader := "Bearer " + token.value];
      }
      if Truthy(tenantId) {
        config.headers := config.headers[TenantHeader := tenantId.value];
      }
    }

    /** `this.api(config)`: the request interceptor, the exchange (`respond` gives the status the
        server answers to a set of headers), then the response interceptor. `sent` lists the headers
        of every request that went out; a 401 on a request not yet retried triggers one retry with
        a refreshed token, at time `now`. */
    method Dispatch(config: RequestConfig, respond: map<string, string> -> int,
                    now: int, decode: string -> Option<TokenData>, reply: RefreshReply)
      returns (outcome: Outcome, sent: seq<map<string, string>>)
      modifies this, config, storage
      decreases if config.retried then 0 else 1
      ensures 1 <= |sent| <= 2
      ensures config.retried == (old(config.retried) || respond(sent[0]) == 401)
      ensures sent[0] == WithAuthHeaders(old(config.headers), old(storage.GetItem(TokenKey)),
                                         TenantIdFor(old(storage.GetItem(TenantIdKey)), tenantSlug))
      ensures outcome.status == respond(sent[|sent| - 1])
      ensures outcome.Resolved? <==> IsSuccess(outcome.status)
      // no retry: the error is passed on unchanged and nothing else happens
      ensures respond(sent[0]) != 401 || old(config.retried) ==>
                |sent| == 1 && storage.items == old(storage.items) && redirect == old(redirect)
      // a 401 on a fresh request refreshes the token first
      ensures respond(sent[0]) == 401 && !old(config.retried) ==>
                var e := EnsureValid(old(storage.items), now, decode, reply);
                (Truthy(e.token) ==>
                   |sent| == 2 && AuthorizationHeader in sent[1] && sent[1][AuthorizationHeader] == "Bearer " + e.token.value
                   && redirect == old(redirect) && storage.items == e.items)
                && (!Truthy(e.token) ==>
                   |sent| == 1 && outcome == Rejected(401) && redirect == Some(LoginPath)
                   && storage.items == e.items)
    {
      AttachHeaders(config);
      var status := respond(config.headers);
      sent := [config.headers];
      if IsSuccess(status) {
        return Resolved(status), sent;
      }
      if status == 401 && !config.retried {
        config.retried := true;
        var validToken := EnsureValidToken(storage, now, decode, reply);
        ReturnedTokenIsStored(old(storage.items), now, decode, reply);
        if Truthy(validToken) {
          config.headers := config.headers[AuthorizationHeader := "Bearer " + validToken.value];
          var again;
          outcome, again := Dispatch(config, respond, now, decode, reply);
          return outcome, sent + again;
        } else {
          redirect := Some(LoginPath);
        }
      }
      return Rejected(status), sent;
    }
  }

  // ----------------------------------------------------------------- lemmas

  /** The interceptor adds the two headers exactly when it has values for them and touches no
      other header. */
  lemma HeadersOnlyWhenPresent(headers: map<string, string>, token: Option<string>, tenantId: Option<string>)
    ensures var h := WithAuthHeaders(headers, token, tenantId);
            (Truthy(token) ==> h[AuthorizationHeader] == "Bearer " + token.value)
            && (!Truthy(token) ==> (AuthorizationHeader in h <==> AuthorizationHeader in headers))
            && (Truthy(tenantId) ==> h[TenantHeader] == tenantId.value)
            && (!Truthy(tenantId) ==> (TenantHeader in h <==> TenantHeader in headers))
            && forall k :: k in headers && k != AuthorizationHeader && k != TenantHeader ==> k in h && h[k] == headers[k]
  {
  }

  /** The stored tenant wins over the host's slug. */
  lemma StoredTenantWins(stored: string, tenantSlug: Option<string>)
    requires stored != ""
    ensures TenantIdFor(Some(stored), tenantSlug) == Some(stored)
  {
  }
}
