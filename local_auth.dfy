/** The tenant client's local authentication helpers (`keymatic-client/src/auth/localAuth.ts`):
    token parsing, the expiry test, refresh, and the stored session kept in `localStorage`. */
module LocalAuth {
  import opened Common
  import opened Browser

  const TokenKey := "token"
  const RefreshTokenKey := "refreshToken"
  const TokenExpiryKey := "tokenExpiry"
  const TenantIdKey := "tenantId"
  const UserKey := "user"
  /** The keys `logout()` removes. */
  const SessionKeys: set<string> := {TokenKey, RefreshTokenKey, TokenExpiryKey, TenantIdKey, UserKey}

  const RefreshFailedMessage := "Failed to refresh token"
  /** A token is treated as expired when less than this many milliseconds remain. */
  const ExpirySkewMs := 60000
  const DefaultExpiresIn := 3600

  /** The claims of a token payload that the client reads. A claim the payload lacks is `None`. */
  datatype TokenData = TokenData(
    tenant_id: Option<string>, tenantId: Option<string>, tenant: Option<string>,
    exp: Option<int>)

  /** The JSON body of a successful `/api/auth/refresh` response, as far as it is read. */
  datatype RefreshBody = RefreshBody(
    access_token: Option<string>, accessToken: Option<string>,
    expires_in: Option<int>, expiresIn: Option<int>,
    token_type: Option<string>, tokenType: Option<string>)

  /** What the refresh endpoint did: answered with a body, or failed (non-2xx, network, bad JSON). */
  datatype RefreshReply = RefreshOk(body: RefreshBody) | RefreshFailed

  datatype AuthResponse = AuthResponse(
    access_token: Option<string>, refresh_token: Option<string>, expires_in: int, token_type: string)

  /** What `ensureValidToken` returns together with the storage it leaves. */
  datatype Ensured = Ensured(token: Option<string>, items: map<string, string>)

  /** JavaScript truthiness of an optional number: absent and 0 are falsy. */
  predicate NumTruthy(n: Option<int>) {
    n.Some? && n.value != 0
  }

  /** `base64Url.replace(/-/g, '+').replace(/_/g, '/')`. */
  function Base64UrlToBase64(s: string): (r: string)
    ensures |r| == |s|
    ensures forall i :: 0 <= i < |r| ==> r[i] != '-' && r[i] != '_'
  {
    ReplaceChar(ReplaceChar(s, '-', '+'), '_', '/')
  }

  /** `parseToken(token)`: the second dot-separated segment, turned from base64url into base64 and
      handed to `decode`, which stands for `atob`, `decodeURIComponent` and `JSON.parse` together
      (`None` when any of them throws). A token without a second segment gives null. */
  function ParseToken(token: string, decode: string -> Option<TokenData>): (r: Option<TokenData>)
    ensures '.' !in token ==> r.None?
  {
    var parts := Split(token, '.');
    assert '.' !in token ==> |parts| < 2 by {
      if '.' !in token { SplitNoSep(token, '.'); }
    }
    if |parts| < 2 then None else decode(Base64UrlToBase64(parts[1]))
  }

  /** `isTokenExpired(token)` at time `now` (milliseconds). */
  predicate IsTokenExpired(token: string, now: int, decode: string -> Option<TokenData>)
    ensures '.' !in token ==> IsTokenExpired(token, now, decode)
  {
    var data := ParseToken(token, decode);
    data.None? || !NumTruthy(data.value.exp) || data.value.exp.value * 1000 - now < ExpirySkewMs
  }

  /** `refreshToken(rt)`: the new access token, the refresh token it was given, and defaults. */
  function RefreshToken(rt: string, reply: RefreshReply): (r: Result<AuthResponse, string>)
    ensures r.Ok? ==> r.value.refresh_token == Some(rt) && r.value.expires_in != 0
    ensures r.Err? <==> reply.RefreshFailed?
    ensures r.Err? ==> r.error == RefreshFailedMessage
  {
    match reply
    case RefreshFailed => Err(RefreshFailedMessage)
    case RefreshOk(b) =>
      Ok(AuthResponse(
        OrElse(b.access_token, b.accessToken),
        Some(rt),
        if NumTruthy(b.expires_in) then b.expires_in.value
        else if NumTruthy(b.expiresIn) then b.expiresIn.value else DefaultExpiresIn,
        (var t := OrElse(b.token_type, b.tokenType); if Truthy(t) then t.value else "Bearer")))
  }

  /** `localStorage.setItem` turns `undefined` into the text "undefined". */
  function StoredText(v: Option<string>): string {
    if v.Some? then v.value else "undefined"
  }

  /** The storage after `logout()`. */
  function LoggedOut(items: map<string, string>): map<string, string> {
    items - SessionKeys
  }

  /** What `ensureValidToken()` returns and leaves in storage, at time `now`. */
  function EnsureValid(items: map<string, string>, now: int, decode: string -> Option<TokenData>,
                       reply: RefreshReply): Ensured
  {
    if TokenKey !in items || items[TokenKey] == "" then Ensured(None, items)
    else if !IsTokenExpired(items[TokenKey], now, decode) then Ensured(Some(items[TokenKey]), items)
    else if RefreshTokenKey !in items || items[RefreshTokenKey] == "" then Ensured(None, LoggedOut(items))
    else
      var rt := items[RefreshTokenKey];
      var response := RefreshToken(rt, reply);
      if response.Err? then Ensured(None, LoggedOut(items))
      else
        var resp := response.value;
        var afterToken := items[TokenKey := StoredText(resp.access_token)];
        var afterRefresh := if Truthy(resp.refresh_token) then afterToken[RefreshTokenKey := resp.refresh_token.value]
                            else afterToken;
        var afterExpiry := if resp.expires_in != 0
                           then afterRefresh[TokenExpiryKey := IntToString(now + resp.expires_in * 1000)]
                           else afterRefresh;
        Ensured(resp.access_token, afterExpiry)
  }

  /** `logout()`. */
  method Logout(storage: LocalStorage)
    modifies storage
    ensures storage.items == LoggedOut(old(storage.items))
  {
    storage.RemoveItem(TokenKey);
    storage.RemoveItem(RefreshTokenKey);
    storage.RemoveItem(TokenExpiryKey);
    storage.RemoveItem(TenantIdKey);
    storage.RemoveItem(UserKey);
  }

  /** `ensureValidToken()` at time `now`; `reply` is what the refresh endpoint answers if asked. */
  method EnsureValidToken(storage: LocalStorage, now: int, decode: string -> Option<TokenData>, reply: RefreshReply)
    returns (valid: Option<string>)
    modifies storage
    ensures Ensured(valid, storage.items) == EnsureValid(old(storage.items), now, decode, reply)
  {
    var token := storage.GetItem(TokenKey);
    if !Truthy(token) {
      return None;
    }
    if !IsTokenExpired(token.value, now, decode) {
      return token;
    }
    var refreshTokenValue := storage.GetItem(RefreshTokenKey);
    if !Truthy(refreshTokenValue) {
      Logout(storage);
      return None;
    }
    var response := RefreshToken(refreshTokenValue.value, reply);
    if response.Err? {
      Logout(storage);
      return None;
    }
    var resp := response.value;
    storage.SetItem(TokenKey, StoredText(resp.access_token));
    if Truthy(resp.refresh_token) {
      storage.SetItem(RefreshTokenKey, resp.refresh_token.value);
    }
    if resp.expires_in != 0 {
      storage.SetItem(TokenExpiryKey, IntToString(now + resp.expires_in * 1000));
    }
    return resp.access_token;
  }

  // ----------------------------------------------------------------- lemmas

  /** The fields of a refreshed session: the snake-case field wins when truthy, else the
      camel-case one; the expiry falls back to 3600 seconds and the type to "Bearer". */
  lemma RefreshDefaults(rt: string, b: RefreshBody)
    ensures var r := RefreshToken(rt, RefreshOk(b)).value;
            && (Truthy(b.access_token) ==> r.access_token == b.access_token)
            && (!Truthy(b.access_token) ==> r.access_token == b.accessToken)
            && (NumTruthy(b.expires_in) ==> r.expires_in == b.expires_in.value)
            && (!NumTruthy(b.expires_in) && NumTruthy(b.expiresIn) ==> r.expires_in == b.expiresIn.value)
            && (!NumTruthy(b.expires_in) && !NumTruthy(b.expiresIn) ==> r.expires_in == DefaultExpiresIn)
            && (Truthy(b.token_type) ==> r.token_type == b.token_type.value)
            && (!Truthy(b.token_type) && Truthy(b.tokenType) ==> r.token_type == b.tokenType.value)
            && (!Truthy(b.token_type) && !Truthy(b.tokenType) ==> r.token_type == "Bearer")
  {
  }

  /** A token without a dot has no payload segment and cannot be parsed. */
  lemma NoPayloadNoData(token: string, decode: string -> Option<TokenData>)
    requires '.' !in token
    ensures ParseToken(token, decode) == None
  {
    SplitNoSep(token, '.');
  }

  /** Only the payload segment matters: the header and signature are not read. */
  lemma {:induction false} ParseReadsPayload(header: string, payload: string, signature: string,
                                            decode: string -> Option<TokenData>)
    requires '.' !in header && '.' !in payload
    ensures ParseToken(header + "." + payload + "." + signature, decode) == decode(Base64UrlToBase64(payload))
  {
    assert header + "." + payload + "." + signature == header + ['.'] + (payload + ['.'] + signature);
    SplitCons(header, payload + ['.'] + signature, '.');
    SplitCons(payload, signature, '.');
  }

  /** An unexpired token has at least a minute left; a token without a usable `exp` is expired. */
  lemma UnexpiredHasAMinuteLeft(token: string, now: int, decode: string -> Option<TokenData>)
    ensures !IsTokenExpired(token, now, decode) ==>
              ParseToken(token, decode).Some? && NumTruthy(ParseToken(token, decode).value.exp)
              && ParseToken(token, decode).value.exp.value * 1000 >= now + ExpirySkewMs
    ensures ParseToken(token, decode).Some? && !NumTruthy(ParseToken(token, decode).value.exp)
            ==> IsTokenExpired(token, now, decode)
  {
  }

  /** Once expired, a token stays expired as time goes on. */
  lemma ExpiryIsMonotone(token: string, now: int, later: int, decode: string -> Option<TokenData>)
    requires now <= later && IsTokenExpired(token, now, decode)
    ensures IsTokenExpired(token, later, decode)
  {
  }

  /** Without a stored token nothing is returned and storage is untouched. */
  lemma NoTokenNoChange(items: map<string, string>, now: int, decode: string -> Option<TokenData>, reply: RefreshReply)
    requires TokenKey !in items
    ensures EnsureValid(items, now, decode, reply) == Ensured(None, items)
  {
  }

  /** An unexpired stored token is returned as it is, without a refresh. */
  lemma FreshTokenReturned(items: map<string, string>, now: int, decode: string -> Option<TokenData>, reply: RefreshReply)
    requires TokenKey in items && items[TokenKey] != "" && !IsTokenExpired(items[TokenKey], now, decode)
    ensures EnsureValid(items, now, decode, reply) == Ensured(Some(items[TokenKey]), items)
  {
  }

  /** Every path that returns no token after finding one in storage has logged out:
      the session keys are gone and nothing else changed. */
  lemma FailureLogsOut(items: map<string, string>, now: int, decode: string -> Option<TokenData>, reply: RefreshReply)
    requires TokenKey in items && items[TokenKey] != ""
    requires IsTokenExpired(items[TokenKey], now, decode)
    requires RefreshTokenKey !in items || items[RefreshTokenKey] == "" || reply.RefreshFailed?
    ensures var e := EnsureValid(items, now, decode, reply);
            e.token == None && e.items.Keys == items.Keys - SessionKeys
            && forall k :: k in e.items ==> e.items[k] == items[k]
  {
  }

  /** A successful refresh stores the returned token, keeps the refresh token it used, and
      records the expiry `now + expires_in * 1000`; the other keys are unchanged. */
  lemma RefreshStoresSession(items: map<string, string>, now: int, decode: string -> Option<TokenData>, body: RefreshBody)
    requires TokenKey in items && items[TokenKey] != ""
    requires IsTokenExpired(items[TokenKey], now, decode)
    requires RefreshTokenKey in items && items[RefreshTokenKey] != ""
    ensures var e := EnsureValid(items, now, decode, RefreshOk(body));
            var resp := RefreshToken(items[RefreshTokenKey], RefreshOk(body)).value;
            e.token == resp.access_token
            && e.items[TokenKey] == StoredText(e.token)
            && e.items[RefreshTokenKey] == items[RefreshTokenKey]
            && e.items[TokenExpiryKey] == IntToString(now + resp.expires_in * 1000)
            && e.items.Keys == items.Keys + {TokenExpiryKey}
            && forall k :: k in items && k !in {TokenKey, RefreshTokenKey, TokenExpiryKey} ==> e.items[k] == items[k]
  {
  }

  /** Whatever happens, a truthy token that is returned is what storage now holds under `token`. */
  lemma ReturnedTokenIsStored(items: map<string, string>, now: int, decode: string -> Option<TokenData>, reply: RefreshReply)
    ensures var e := EnsureValid(items, now, decode, reply);
            Truthy(e.token) ==> TokenKey in e.items && e.items[TokenKey] == e.token.value
  {
  }
}
