/** The administration front-end's request helper (`front-end/src/utils/api.ts`): target URL,
    headers, and the error object a failed request turns into. */
module FrontApi {
  import opened Common
  import opened Browser
  import FrontTenant

  const TenantServiceUrl := "http://localhost:8083"
  const UnknownErrorMessage := "Unknown error occurred"

  /** A parsed JSON body as far as the error path looks at it: an object with optional
      `message` and `errors` (the values of the `errors` object, when it is an object), a string,
      `null`, or anything else. */
  datatype JsonValue = JNull | JString(s: string) | JObject(message: Option<string>, errors: Option<seq<string>>) | JOther

  /** A response: status line, content type, and what `response.json()` and `response.text()`
      would each produce as the first read of the body (the value, or the message of the error
      they throw). A body can be read once: a `text()` after `json()` always rejects. */
  datatype Reply = Reply(ok: bool, status: int, statusText: string, contentType: Option<string>,
                         json: Result<JsonValue, string>, text: Result<string, string>)

  /** `fetch` either throws (with an `Error`'s message, or something that is not an `Error`) or replies. */
  datatype Fetched = NetworkError(error: Option<string>) | Replied(reply: Reply)

  datatype Payload = JsonPayload(value: JsonValue) | TextPayload(text: string)

  datatype ApiError = ApiError(message: string, status: Option<int>, statusText: Option<string>)

  predicate StartsWith(s: string, prefix: string) { prefix <= s }

  /** The request URL: absolute endpoints are kept, others are prefixed with the service URL. */
  function RequestUrl(endpoint: string): (url: string)
    ensures EndsWith(url, endpoint)
    ensures StartsWith(endpoint, "http") ==> url == endpoint
    ensures !StartsWith(endpoint, "http") ==> url == TenantServiceUrl + endpoint
  {
    if StartsWith(endpoint, "http") then endpoint else TenantServiceUrl + endpoint
  }

  /** The headers sent: JSON content type, overridden by the caller's headers, then the detected
      tenant and the bearer token when present. */
  function RequestHeaders(optionHeaders: map<string, string>, tenant: Option<string>, token: Option<string>): map<string, string> {
    var base := map["Content-Type" := "application/json"] + optionHeaders;
    var withTenant := if Truthy(tenant) then base["X-Tenant-ID" := tenant.value] else base;
    if Truthy(token) then withTenant["Authorization" := "Bearer " + token.value] else withTenant
  }

  function DefaultMessage(statusText: string): string {
    "API request failed: " + statusText
  }

  /** The message of the error thrown for a non-2xx reply. The body is read with `json()` first,
      so the `text()` tried when that fails, or when reading `.message` of `null` throws,
      rejects on the consumed body and the default message stays. */
  function ErrorMessageFor(reply: Reply): string {
    var default := DefaultMessage(reply.statusText);
    match reply.json
    case Ok(JObject(message, errors)) =>
      if Truthy(message) then message.value
      else if errors.Some? then (var joined := Join(errors.value, ", "); if joined != "" then joined else default)
      else default
    case Ok(JString(s)) => s
    case Ok(JNull) => default
    case Ok(JOther) => default
    case Err(_) => default
  }

  /** What `apiRequest` resolves to or throws, for what `fetch` did. */
  function Outcome(fetched: Fetched): Result<Payload, ApiError> {
    match fetched
    case NetworkError(e) => Err(ApiError(if e.Some? then e.value else UnknownErrorMessage, None, None))
    case Replied(reply) =>
      if !reply.ok then Err(ApiError(ErrorMessageFor(reply), Some(reply.status), Some(reply.statusText)))
      else if reply.contentType.Some? && Contains(reply.contentType.value, "application/json") then
        (match reply.json
         case Ok(v) => Ok(JsonPayload(v))
         case Err(m) => Err(ApiError(m, None, None)))
      else
        (match reply.text
         case Ok(t) => Ok(TextPayload(t))
         case Err(m) => Err(ApiError(m, None, None)))
  }

  /** `apiRequest(endpoint, options, token)`. The page location (`query`, `hostname`), whether a
      window exists, and what `fetch` did are parameters; `url` and `headers` are what was sent. */
  method ApiRequest(storage: LocalStorage, endpoint: string, optionHeaders: map<string, string>, token: Option<string>,
                    hasWindow: bool, query: Option<string>, hostname: string, fetched: Fetched)
    returns (r: Result<Payload, ApiError>, url: string, headers: map<string, string>)
    modifies storage
    ensures url == RequestUrl(endpoint)
    ensures var tenant := if hasWindow then FrontTenant.Detected(query, old(storage.GetItem(FrontTenant.OverrideKey)), hostname) else None;
            headers == RequestHeaders(optionHeaders, tenant, token)
    ensures hasWindow && FrontTenant.TrimmedOrNull(query).Some? ==>
              storage.items == old(storage.items)[FrontTenant.OverrideKey := FrontTenant.TrimmedOrNull(query).value]
    ensures !(hasWindow && FrontTenant.TrimmedOrNull(query).Some?) ==> storage.items == old(storage.items)
    ensures r == Outcome(fetched)
  {
    url := if StartsWith(endpoint, "http") then endpoint else TenantServiceUrl + endpoint;
    var tenant: Option<string> := None;
    if hasWindow {
      tenant := FrontTenant.DetectTenant(storage, query, hostname);
    }
    headers := BuildHeaders(optionHeaders, tenant, token);
    r := ReadReply(fetched);
  }

  /** The headers `apiRequest` assembles: JSON content type, the caller's headers over it, then
      the tenant header and the bearer token when they are truthy. */
  method BuildHeaders(optionHeaders: map<string, string>, tenant: Option<string>, token: Option<string>)
    returns (headers: map<string, string>)
    ensures headers == RequestHeaders(optionHeaders, tenant, token)
  {
    headers := map["Content-Type" := "application/json"] + optionHeaders;
    if Truthy(tenant) {
      headers := headers["X-Tenant-ID" := tenant.value];
    }
    if Truthy(token) {
      headers := headers["Authorization" := "Bearer " + token.value];
    }
  }

  /** What `apiRequest` does with what `fetch` did: a network failure is rethrown, a non-2xx
      reply becomes an error with the server's message, and a 2xx reply is read as JSON when
      its content type says so and as text otherwise. */
  method ReadReply(fetched: Fetched) returns (r: Result<Payload, ApiError>)
    ensures r == Outcome(fetched)
  {
    if fetched.NetworkError? {
      var e := fetched.error;
      return Err(ApiError(if e.Some? then e.value else UnknownErrorMessage, None, None));
    }
    var reply := fetched.reply;
    if !reply.ok {
      var message := ReadErrorMessage(reply);
      return Err(ApiError(message, Some(reply.status), Some(reply.statusText)));
    }
    if reply.contentType.Some? && Contains(reply.contentType.value, "application/json") {
      r := match reply.json
           case Ok(v) => Ok(JsonPayload(v))
           case Err(m) => Err(ApiError(m, None, None));
    } else {
      r := match reply.text
           case Ok(t) => Ok(TextPayload(t))
           case Err(m) => Err(ApiError(m, None, None));
    }
  }

  /** The error-body reading of `apiRequest` for a non-2xx reply: the JSON body's `message`,
      else its joined `errors`, else the body itself when it is a JSON string, else the default.
      When `json()` fails or the body is `null`, the fallback `text()` finds the body already
      consumed and rejects, so the default stays. */
  method ReadErrorMessage(reply: Reply) returns (message: string)
    ensures message == ErrorMessageFor(reply)
  {
    message := DefaultMessage(reply.statusText);
    match reply.json {
      case Ok(errorData) =>
        match errorData {
          case JObject(m, errors) =>
            if Truthy(m) {
              message := m.value;
            } else if errors.Some? {
              var errorMessages := Join(errors.value, ", ");
              message := if errorMessages != "" then errorMessages else message;
            }
          case JString(s) => message := s;
          case JNull => // `.message` of null throws; the `text()` that follows rejects
          case JOther =>
        }
      case Err(_) => // the `text()` that follows rejects on the consumed body
    }
  }

  // ----------------------------------------------------------------- lemmas

  /** The body's `message` wins over `errors`, which wins over the default. */
  lemma MessagePrecedence(reply: Reply, m: Option<string>, errors: Option<seq<string>>)
    requires reply.json == Ok(JObject(m, errors))
    ensures Truthy(m) ==> ErrorMessageFor(reply) == m.value
    ensures !Truthy(m) && errors.Some? && Join(errors.value, ", ") != "" ==> ErrorMessageFor(reply) == Join(errors.value, ", ")
    ensures !Truthy(m) && (errors.None? || Join(errors.value, ", ") == "") ==> ErrorMessageFor(reply) == DefaultMessage(reply.statusText)
  {
  }

  /** A body that is not JSON, or is `null`, keeps the default message, whatever its text: the
      text is never reached on the error path. */
  lemma TextFallback(reply: Reply)
    requires reply.json.Err? || reply.json == Ok(JNull)
    ensures ErrorMessageFor(reply) == DefaultMessage(reply.statusText)
  {
  }

  /** The error message is empty only when the body is the JSON string "". */
  lemma MessageEmptyOnlyForEmptyString(reply: Reply)
    ensures ErrorMessageFor(reply) == "" <==> reply.json == Ok(JString(""))
  {
    assert DefaultMessage(reply.statusText) != "";
  }

  /** An HTTP error keeps its status and status text; a network failure carries neither. */
  lemma StatusKept(fetched: Fetched)
    ensures fetched.Replied? && !fetched.reply.ok ==>
              Outcome(fetched).Err? && Outcome(fetched).error.status == Some(fetched.reply.status)
              && Outcome(fetched).error.statusText == Some(fetched.reply.statusText)
    ensures fetched.NetworkError? ==> Outcome(fetched).Err? && Outcome(fetched).error.status.None?
    ensures Outcome(fetched).Ok? ==> fetched.Replied? && fetched.reply.ok
  {
  }

  /** The caller's headers override the default content type but not the tenant or token headers. */
  lemma HeaderOverrides(optionHeaders: map<string, string>, tenant: Option<string>, token: Option<string>)
    ensures var h := RequestHeaders(optionHeaders, tenant, token);
            "Content-Type" in h
            && ("Content-Type" in optionHeaders ==> h["Content-Type"] == optionHeaders["Content-Type"])
            && ("Content-Type" !in optionHeaders ==> h["Content-Type"] == "application/json")
            && (Truthy(tenant) ==> h["X-Tenant-ID"] == tenant.value)
            && (Truthy(token) ==> h["Authorization"] == "Bearer " + token.value)
            && (!Truthy(token) ==> ("Authorization" in h <==> "Authorization" in optionHeaders))
  {
  }
}
