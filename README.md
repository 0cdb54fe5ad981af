# Tenant and session resolution, modelled in Dafny

This project models the tenant and session logic of a multi-tenant SaaS platform. The platform has two React front-ends (`front-end`, `keymatic-client`) and two Spring services (`tenant-service`, `workflow-service`). It also proves properties of that model. It covers:

- **Front-end tenant resolution**: how `App.tsx` resolves the master tenant id from cached, token and detected candidates, slug lookups and the tenant list, and how both front-ends detect a tenant from the host name, the query string and local storage.
- **Session lifecycle**:
  - the Keycloak `AuthProvider`: the init latch, the callback guard, logout clearing, role union and token refresh scheduling;
  - local-token expiry and refresh (`localAuth.ts` and the keymatic `AuthProvider`);
  - the HTTP clients: header building, the 401 retry-once interceptor and error-message extraction.
- **Backend rules**:
  - slug validation and database-name derivation, shared by provisioning, onboarding and the workflow delegate;
  - onboarding rollback and failed-step classification;
  - the request-tenant precedence and master-only path matching of the JWT filter;
  - the tenant identifier cache and the routing data source;
  - role, site and permission tables with their upserts and permission aggregation;
  - tenant users, tasks and the login and refresh decision chains;
  - the global exception-to-status mapping;
  - the Keycloak assignment retry loops, their retryability test and backoff;
  - JDBC URL rewriting;
  - the tenant controller's lookups, migration report and assign-user endpoint.

Every file is one Dafny module, named after the source component it models:

- `Common` holds options, results and the string operations the sources use (trim, lower-case, split, join, search).
- `Browser` models local storage as a class over a map.
- State the sources update in place is a class with `modifies` clauses. This covers repositories, caches, the thread-local tenant context, React refs and state, and the retry counter of the form.
- Pure computations are functions. Each is paired with lemmas that state what it means.
- Loops in the source are methods with loop invariants, each proved equal to a specification function. This covers the candidate loop of `resolveMasterTenantId`, `recordMigrations`, the permission aggregation and the Keycloak retry loops.
- The outside world is a parameter of the operation that uses it. This covers HTTP responses, Keycloak answers, JWT decoding and validation, password hashing, `UUID.fromString`, the current time and identifiers handed out by the database.

## Model

| member | source | states |
|---|---|---|
| Uuid.IsUuid | front-end/src/App.tsx:46-50 | null and "" are never UUIDs; an accepted value trims to 36 characters with hyphens at 8, 13, 18 and 23 and a version digit 1-5 at 14 |
| Uuid.PatternHasNoSpace | front-end/src/App.tsx:46-49 | a value the UUID pattern accepts has no white space to trim |
| Uuid.TrimmedUuidIsUuid | front-end/src/App.tsx:47-74 | the trimmed candidate that is returned is itself a 36-character UUID |
| Uuid.IsUuidCases | front-end/src/App.tsx:46-49 | `isUuid` is false for null and for the empty string; an accepted value trims to 36 characters with a dash at 8 and a version digit 1-5 |
| Uuid.PatternIgnoresCase | front-end/src/App.tsx:46 | the pattern is case-insensitive: lower-casing an accepted value keeps it accepted |
| Uuid.SampleAccepted | front-end/src/App.tsx:46-49 | a version-4 identifier is accepted |
| Uuid.SlugRejected | front-end/src/App.tsx:46-49 | a tenant slug such as "acme" is not a UUID |
| MasterTenant.Candidates | front-end/src/App.tsx:61-69 | a string is a candidate iff it is the trim of a non-blank hint; there are at most as many candidates as hints, none is empty |
| MasterTenant.CandidatesKeepOrder | front-end/src/App.tsx:61-69 | the candidates of two hint lists are those of the first followed by those of the second: priority order is kept |
| MasterTenant.FirstUuid | front-end/src/App.tsx:72-78 | the pick is the first candidate, in priority order, that is a UUID, and is absent only when no candidate is one |
| MasterTenant.NonUuids | front-end/src/App.tsx:82 | the slug candidates are the candidates that are not UUIDs; when none is a UUID they are all the candidates |
| MasterTenant.FindBySlug | front-end/src/App.tsx:116 | `tenants.find` returns the first listed tenant with that slug, and none only when no tenant has it |
| MasterTenant.Resolver.Resolve | front-end/src/App.tsx:52-136 | the result, the requests made and the new cached id are those of the `Resolution` specification |
| MasterTenant.FindFirstUuid | front-end/src/App.tsx:72-78 | the first-pass loop returns `FirstUuid` of the candidates |
| MasterTenant.LookUpSlugs | front-end/src/App.tsx:83-100 | the slug loop makes the requests and finds the UUID that `SlugScan` specifies |
| MasterTenant.TryTenantList | front-end/src/App.tsx:103-126 | the list fallback returns what `ListFallback` specifies |
| MasterTenant.SlugScanFindsUuids | front-end/src/App.tsx:86-89 | a UUID found by slug lookup satisfies `isUuid` |
| MasterTenant.SlugScanCalls | front-end/src/App.tsx:83-100 | slugs are looked up in order up to the first UUID; a failed scan asked for every slug |
| MasterTenant.ListMatchFindsUuids | front-end/src/App.tsx:115-121 | a slug match in the tenant list yields a UUID |
| MasterTenant.ListFallbackFindsUuids | front-end/src/App.tsx:105-123 | the list fallback yields only UUIDs: the single tenant's or a slug match |
| MasterTenant.ResolvedIsUuid | front-end/src/App.tsx:55-120 | every value returned satisfies `isUuid` and becomes the cached id |
| MasterTenant.CachedUuidShortCircuits | front-end/src/App.tsx:55-57 | a cached UUID is returned at once, with no request and whatever the token |
| MasterTenant.NoTokenFails | front-end/src/App.tsx:58 | without a token and a valid cached id, resolution fails before any request |
| MasterTenant.CandidatesTrimmed | front-end/src/App.tsx:68 | every candidate is already trimmed |
| MasterTenant.UuidCandidateNeedsNoCall | front-end/src/App.tsx:72-78 | a UUID candidate wins over all slugs and costs no request |
| MasterTenant.UnresolvedTriedEverySlug | front-end/src/App.tsx:82-135 | on failure every slug candidate was looked up in order, the list was fetched once, and the error names exactly those slugs |
| MasterTenant.ListMatchPicksFirstSlug | front-end/src/App.tsx:113-121 | with several tenants the first slug candidate that names a listed tenant decides |
| MasterTenant.MessageNamesTriedSlugs | front-end/src/App.tsx:129-135 | the failure message lists the tried slugs joined by ", ", or "none" |
| FrontTenant.NonEmpty | front-end/src/utils/tenantUtils.ts:4 | `filter(Boolean)` keeps every non-empty label as many times as it occurs and drops every empty one |
| FrontTenant.NonEmptyKeepsOrder | front-end/src/utils/tenantUtils.ts:4 | filtering two label lists gives the filtered first followed by the filtered second: label order is kept |
| FrontTenant.TenantFromHostname | front-end/src/utils/tenantUtils.ts:1-14 | a tenant is found iff the port-less host has three or more labels, or two with the last equal to "localhost" in any case; it is then the first label |
| FrontTenant.TrimmedOrNull | front-end/src/utils/tenantUtils.ts:16-33 | a query or stored value counts iff it is not blank, and then it is trimmed |
| FrontTenant.DetectTenant | front-end/src/utils/tenantUtils.ts:39-52 | the tenant is the query's, else the stored override's, else the host's; a query value is written as `tenantOverride` and nothing else changes |
| FrontTenant.RequireTenantFromLocation | front-end/src/utils/tenantUtils.ts:54-60 | fails with "Tenant could not be detected from subdomain." exactly when detection finds nothing; otherwise returns the detected non-empty tenant; a non-blank query value is written as `tenantOverride` and storage is otherwise untouched |
| FrontTenant.DetectedNonEmpty | front-end/src/utils/tenantUtils.ts:39-52 | a detected tenant is never the empty string |
| FrontTenant.QueryWins | front-end/src/utils/tenantUtils.ts:40-47 | a non-blank `?tenant` value wins over storage and host, trimmed |
| FrontTenant.OverrideSurvivesReload | front-end/src/utils/tenantUtils.ts:36-50 | the override stored from a query is detected again on a later call without a query |
| FrontTenant.BlankOverrideIgnored | front-end/src/utils/tenantUtils.ts:29-51 | a blank stored override falls through to the host name |
| FrontTenant.PortIgnored | front-end/src/utils/tenantUtils.ts:2 | the port does not affect the result |
| FrontTenant.ThreeLabelHost | front-end/src/utils/tenantUtils.ts:6-8 | `a.b.c` gives tenant `a` |
| FrontTenant.LocalhostSubdomain | front-end/src/utils/tenantUtils.ts:10-12 | `a.localhost:port` gives tenant `a` |
| FrontTenant.SingleLabelHost | front-end/src/utils/tenantUtils.ts:6-13 | a single-label host such as `localhost:5173` gives no tenant |
| KeymaticTenant.ExtractSubdomain | keymatic-client/src/utils/tenant.ts:1-23 | empty input and the three localhost names give null; any result is lower-case |
| KeymaticTenant.TenantSlug | keymatic-client/src/utils/tenant.ts:25-31 | outside a browser the slug is null; any slug is lower-case |
| KeymaticTenant.LocalhostTenantIsPrefix | keymatic-client/src/utils/tenant.ts:17-19 | for a `*.localhost` host the tenant is all labels but the last: tenant + ".localhost" is the lower-cased host |
| KeymaticTenant.SingleLabelHasNoTenant | keymatic-client/src/utils/tenant.ts:11-14 | a host without a dot has no tenant |
| KeymaticTenant.FirstLabelOtherwise | keymatic-client/src/utils/tenant.ts:21-22 | any other host gives its first label, the lower-cased text before the first dot |
| KeymaticTenant.UpperCaseLocalhost | keymatic-client/src/utils/tenant.ts:6-8 | "LOCALHOST" is recognised after lower-casing |
| KeycloakAuth.AuthProvider.constructor | front-end/src/auth/AuthProvider.tsx:34-42 | the provider starts unauthenticated, with no token, user or error, an empty tenant, no interval and both refs false |
| KeycloakAuth.AuthProvider.ClearRefreshTimer | front-end/src/auth/AuthProvider.tsx:44-49 | the interval is cleared and the ref set to null; no other state changes |
| KeycloakAuth.AuthProvider.ScheduleTokenRefresh | front-end/src/auth/AuthProvider.tsx:51-61 | the previous interval is cleared before the new one starts, so exactly one interval is live and the ref names it |
| KeycloakAuth.AuthProvider.RefreshTick | front-end/src/auth/AuthProvider.tsx:54-57 | a failed `updateToken(60)` requests one login redirect; session, tenant, error, init flags and timers are unchanged |
| KeycloakAuth.AuthProvider.UpdateTenantFromToken | front-end/src/auth/AuthProvider.tsx:63-87 | the tenant is the token's `tenant_id`, else the detected tenant, else ""; a non-empty tenant is stored as `tenantOverride`, an empty one removes it |
| KeycloakAuth.AuthProvider.BeginInit | front-end/src/auth/AuthProvider.tsx:91-105 | initialisation starts iff it is not already running and no processed callback code is present; then the latch is taken, the error cleared, the callback marked when a code is present, and `check-sso` is used exactly when there is a code |
| KeycloakAuth.AuthProvider.FinishInit | front-end/src/auth/AuthProvider.tsx:196-233 | with a token the session starts, the tenant is resolved and written to (or removed from) the stored override, and one refresh interval runs; without a token a login is requested iff not authenticated and no code; a thrown error is recorded with its message or the default; on those two paths user, tenant, storage and timers are unchanged; the latch is always released |
| KeycloakAuth.AuthProvider.OnAuthSuccess | front-end/src/auth/AuthProvider.tsx:111-117 | the callback is marked processed, the session is authenticated with the instance's token and claims, and the tenant is resolved from them and written to the stored override |
| KeycloakAuth.AuthProvider.OnAuthError | front-end/src/auth/AuthProvider.tsx:130-133 | the error becomes "Authentication error."; user, refresh timer, live timers and login requests are unchanged |
| KeycloakAuth.AuthProvider.OnTokenExpired | front-end/src/auth/AuthProvider.tsx:135-153 | a refreshed token replaces token, user and tenant, and the override follows the tenant; a refusal or an error requests a login and leaves the session as it was; the timers are unchanged |
| KeycloakAuth.AuthProvider.OnAuthRefreshSuccess | front-end/src/auth/AuthProvider.tsx:155-160 | token, user and tenant follow the refreshed instance, the override follows the tenant, and the timers are unchanged |
| KeycloakAuth.AuthProvider.OnAuthLogout | front-end/src/auth/AuthProvider.tsx:162-175 | the session is cleared, the tenant becomes "" and `tenantOverride` is removed from storage; no other key changes and the timers are unchanged |
| KeycloakAuth.AddAllMembers | front-end/src/auth/AuthProvider.tsx:27-29 | adding roles one by one gives exactly the old roles and the new ones |
| KeycloakAuth.HasRole | front-end/src/auth/AuthProvider.tsx:264-270 | without a user no role is held, and every realm role of the user is held |
| KeycloakAuth.HasRoleIff | front-end/src/auth/AuthProvider.tsx:264-270 | `hasRole(r)` holds iff there is a user and r is one of its realm roles or of its `react-client` client roles |
| KeycloakAuth.OtherClientRolesIgnored | front-end/src/auth/AuthProvider.tsx:28 | roles granted to another client do not count |
| KeycloakAuth.TokenTenantWins | front-end/src/auth/AuthProvider.tsx:65-73 | a truthy `tenant_id` claim wins over the location; without it and with nothing detected the tenant is "" |
| KeycloakAuth.CodeInFragment | front-end/src/auth/AuthProvider.tsx:98 | an authorisation code in the fragment is recognised as well as one in the query |
| LocalAuth.Base64UrlToBase64 | keymatic-client/src/auth/localAuth.ts:36 | the length is kept and no `-` or `_` is left |
| LocalAuth.RefreshToken | keymatic-client/src/auth/localAuth.ts:98-128 | a refused or failed refresh is the error "Failed to refresh token"; a successful one keeps the refresh token it was given and has a non-zero expiry |
| LocalAuth.RefreshDefaults | keymatic-client/src/auth/localAuth.ts:118-124 | the access token, expiry and type come from the snake-case field when truthy, else the camel-case one; the expiry defaults to 3600 and the type to "Bearer" |
| LocalAuth.Logout | keymatic-client/src/auth/localAuth.ts:133-139 | exactly `token`, `refreshToken`, `tokenExpiry`, `tenantId` and `user` are removed from storage |
| LocalAuth.EnsureValidToken | keymatic-client/src/auth/localAuth.ts:166-199 | the returned token and the new storage are those of the specification `EnsureValid` of the old storage |
| LocalAuth.ParseToken | keymatic-client/src/auth/localAuth.ts:33-48 | a token with no '.' has no payload segment and parses to null |
| LocalAuth.NoPayloadNoData | keymatic-client/src/auth/localAuth.ts:33-48 | a token without a dot has no payload segment and parses to null |
| LocalAuth.ParseReadsPayload | keymatic-client/src/auth/localAuth.ts:35-43 | only the second dot-separated segment, with the URL alphabet mapped back, is decoded |
| LocalAuth.IsTokenExpired | keymatic-client/src/auth/localAuth.ts:151-161 | a token with no '.' cannot be parsed and so counts as expired |
| LocalAuth.UnexpiredHasAMinuteLeft | keymatic-client/src/auth/localAuth.ts:151-161 | a token counts as unexpired only if it parses, has a truthy `exp`, and `exp*1000` is at least a minute after now; a parsed token without `exp` is expired |
| LocalAuth.ExpiryIsMonotone | keymatic-client/src/auth/localAuth.ts:158-160 | once expired, a token stays expired at every later time |
| LocalAuth.NoTokenNoChange | keymatic-client/src/auth/localAuth.ts:167-170 | without a stored token nothing is returned and storage is untouched |
| LocalAuth.FreshTokenReturned | keymatic-client/src/auth/localAuth.ts:172-174 | an unexpired stored token is returned as it is and storage is untouched |
| LocalAuth.FailureLogsOut | keymatic-client/src/auth/localAuth.ts:177-198 | an expired token with no refresh token, or a failed refresh, returns null and removes exactly the session keys |
| LocalAuth.RefreshStoresSession | keymatic-client/src/auth/localAuth.ts:184-193 | a successful refresh stores and returns the new token, keeps the refresh token, writes `tokenExpiry = now + expires_in*1000`, and changes no other key |
| LocalAuth.ReturnedTokenIsStored | keymatic-client/src/auth/localAuth.ts:166-199 | a truthy returned token is what storage now holds under `token` |
| LocalSession.SessionProvider.constructor | keymatic-client/src/auth/AuthProvider.tsx:22-26 | the provider starts loading and unauthenticated, with the tenant read from storage |
| LocalSession.SessionProvider.HandleLogout | keymatic-client/src/auth/AuthProvider.tsx:97-103 | storage is logged out and the session state cleared |
| LocalSession.SessionProvider.InitAuth | keymatic-client/src/auth/AuthProvider.tsx:30-66 | without a stored token nothing changes; a valid parseable token authenticates with the resolved tenant, which is persisted when non-null; otherwise storage is logged out and the user kept; loading always ends |
| LocalSession.SessionProvider.RefreshCheck | keymatic-client/src/auth/AuthProvider.tsx:71-92 | a failed validation logs out; an unchanged token changes nothing, user included; a new token is taken, the user becomes its parsed data when there is any, and the tenant changes, and is stored, only when the new token carries one |
| LocalSession.TenantPrecedence | keymatic-client/src/auth/AuthProvider.tsx:39-41 | the tenant is `tenant_id`, then `tenantId`, then `tenant`, then the host's `TENANT_SLUG`, then the stored `tenantId` |
| LocalSession.ResolvedTenantIsASource | keymatic-client/src/auth/AuthProvider.tsx:39-41 | a resolved tenant is non-empty and is one of the three sources |
| ApiClient.TenantIdFor | keymatic-client/src/services/api.ts:103-105 | the tenant header value is the stored `tenantId` when truthy, else the host's `TENANT_SLUG` when truthy, else null; it is never "" |
| ApiClient.ApiService.constructor | keymatic-client/src/services/api.ts:28-34 | the client reads the given storage and host slug and has not redirected |
| ApiClient.ApiService.AttachHeaders | keymatic-client/src/services/api.ts:37-50 | the request's headers gain `Authorization: Bearer <token>` and `X-Tenant-ID` from storage exactly when those are truthy; the retry mark is unchanged |
| ApiClient.ApiService.Dispatch | keymatic-client/src/services/api.ts:53-91 | the first request carries the interceptor's headers; a non-401, or a 401 on a retried request, is passed on with storage untouched; a first 401 validates the token once, retries once with the fresh bearer token, leaving storage as the validation left it, or redirects to `/login` and rejects with 401 when there is none |
| ApiClient.HeadersOnlyWhenPresent | keymatic-client/src/services/api.ts:41-47 | the interceptor sets the two headers exactly when it has values and leaves every other header as it was |
| ApiClient.StoredTenantWins | keymatic-client/src/services/api.ts:104 | a non-empty stored tenant wins over the host slug |
| FrontApi.RequestUrl | front-end/src/utils/api.ts:20 | endpoints starting with "http" are kept; others are prefixed with the tenant service URL; the URL always ends with the endpoint |
| FrontApi.ApiRequest | front-end/src/utils/api.ts:15-92 | the request goes to `RequestUrl(endpoint)` with the detected tenant (none without a window) and the token as headers; with a window a non-blank query tenant is written as the override and otherwise storage is unchanged; its result is the specified `Outcome` of what `fetch` did |
| FrontApi.BuildHeaders | front-end/src/utils/api.ts:22-35 | the headers are `RequestHeaders`: the caller's headers override the JSON content type, and `X-Tenant-ID` and a bearer `Authorization` are added exactly when the tenant and the token are truthy |
| FrontApi.ReadReply | front-end/src/utils/api.ts:37-91 | the result is `Outcome(fetched)`: a network failure is rethrown with its message or "Unknown error occurred", a non-2xx reply becomes an error with its status and status text, and a 2xx reply is read as JSON only when its content type names JSON |
| FrontApi.ReadErrorMessage | front-end/src/utils/api.ts:44-72 | the error message is `ErrorMessageFor(reply)`: the body's `message`, else its joined `errors` when that is not empty, else a string body, else "API request failed: " and the status text; a body that is not JSON keeps the default, since `text()` after `json()` finds the body consumed |
| FrontApi.MessagePrecedence | front-end/src/utils/api.ts:53-58 | a truthy body `message` wins; otherwise non-empty joined `errors`; otherwise "API request failed: <statusText>" |
| FrontApi.TextFallback | front-end/src/utils/api.ts:62-71 | a body that is not JSON, or is JSON `null`, keeps the default message "API request failed: <statusText>" |
| FrontApi.MessageEmptyOnlyForEmptyString | front-end/src/utils/api.ts:44-72 | the error message is empty iff the body is the JSON string "" |
| FrontApi.StatusKept | front-end/src/utils/api.ts:43-91 | an HTTP error keeps its status and status text; a network failure carries no status; success means an ok reply |
| FrontApi.HeaderOverrides | front-end/src/utils/api.ts:22-35 | caller headers override the JSON content type, while the detected tenant and the token override the caller's headers |
| CreateTenantForm.Sanitize | front-end/src/components/admin/CreateTenantForm.tsx:39-40 | lower-cases the name and maps every character outside [a-z0-9-] to '-', keeping the length |
| CreateTenantForm.Validate | front-end/src/components/admin/CreateTenantForm.tsx:47-53 | the form is refused iff the admin email is empty or the password is shorter than 8 characters |
| CreateTenantForm.CreateTenantFormState.constructor | front-end/src/components/admin/CreateTenantForm.tsx:15-28 | the form starts with its data, not loading, no error and no retry count |
| CreateTenantForm.CreateTenantFormState.AttemptCreateTenant | front-end/src/components/admin/CreateTenantForm.tsx:36-97 | the requests sent, the tenant created and the error shown are those of the specification `Run` from this attempt; the retry count ends at 0 |
| CreateTenantForm.CreateTenantFormState.HandleSubmit | front-end/src/components/admin/CreateTenantForm.tsx:31-107 | the run starts from attempt 0 with the error cleared and ends with loading false |
| CreateTenantForm.CollapseHead | front-end/src/components/admin/CreateTenantForm.tsx:41 | collapsing dashes never lengthens the text and keeps its first character |
| CreateTenantForm.CollapseShape | front-end/src/components/admin/CreateTenantForm.tsx:41 | after collapsing there is no run of '-' and the alphabet is kept |
| CreateTenantForm.StripEdgesShape | front-end/src/components/admin/CreateTenantForm.tsx:42 | removing one leading and one trailing '-' from a collapsed slug leaves no dash at either edge |
| CreateTenantForm.SlugFromNameShape | front-end/src/components/admin/CreateTenantForm.tsx:39-42 | a derived slug uses only [a-z0-9-], has no run of '-', and neither starts nor ends with '-' |
| CreateTenantForm.CollapseKeeps | front-end/src/components/admin/CreateTenantForm.tsx:41 | a text without a run of '-' is left as it is by the collapse |
| CreateTenantForm.SlugFromSlug | front-end/src/components/admin/CreateTenantForm.tsx:39-42 | a name that already is a well-formed slug is its own slug |
| CreateTenantForm.RetrySlugChars | front-end/src/components/admin/CreateTenantForm.tsx:45 | a retry slug `base-<timestamp>` keeps the slug alphabet, and only attempt 0 sends the base slug |
| CreateTenantForm.RunRequests | front-end/src/components/admin/CreateTenantForm.tsx:29-86 | at most three requests are sent, the k-th being the request of attempt k |
| CreateTenantForm.RunRetriesOnConflict | front-end/src/components/admin/CreateTenantForm.tsx:76-86 | every request but the last was answered by a conflict (409 or "already exists") |
| CreateTenantForm.RunCreatedIsLastAnswer | front-end/src/components/admin/CreateTenantForm.tsx:55-73 | the tenant handed to `onSuccess` is the answer to the last request |
| CreateTenantForm.ValidationNotConflict | front-end/src/components/admin/CreateTenantForm.tsx:48-92 | the two validation messages are never taken for a conflict and are shown as they are |
| CreateTenantForm.InvalidFormSendsNothing | front-end/src/components/admin/CreateTenantForm.tsx:47-53 | an invalid form sends no request and shows the validation message |
| CreateTenantForm.FailureEndsRun | front-end/src/components/admin/CreateTenantForm.tsx:87-95 | a non-conflict failure, or a conflict on the last allowed attempt, ends the run after one request with the final message |
| CreateTenantForm.EmailAlwaysGiven | front-end/src/components/admin/CreateTenantForm.tsx:48-63 | every request sent carries the form's admin email and a password of at least 8 characters, so the `admin@<slug>.com` fallback is never used |
| CreateTenantForm.SentSlugAccepted | front-end/src/components/admin/CreateTenantForm.tsx:39-45 | every non-empty slug the form sends matches the tenant service's slug pattern |
| TenantNaming.Underscored | tenant-service/src/main/java/com/kymatic/tenantservice/service/TenantProvisioningService.java:237-238 | lower-casing and '-' to '_' keep the length |
| TenantNaming.NameAsWritten | tenant-service/src/main/java/com/kymatic/tenantservice/service/TenantProvisioningService.java:237-256 | as written, a name is produced iff the slug is non-empty |
| TenantNaming.Truncated | tenant-service/src/main/java/com/kymatic/tenantservice/service/TenantProvisioningService.java:253-256 | the name is cut to its first 63 characters and left alone when it fits |
| TenantNaming.NameFromNonNullSlug | tenant-service/src/main/java/com/kymatic/tenantservice/service/TenantProvisioningService.java:237-256 | with the corrected prefix rule a name is produced iff the slug is non-empty, else "Invalid slug: results in empty database name" |
| TenantNaming.DatabaseNameFromSlug | tenant-service/src/main/java/com/kymatic/tenantservice/service/TenantProvisioningService.java:229-260 | with the prefix rule as written, a name exists iff the slug is present and not blank; it has 1 to 63 characters and does not start with a digit |
| TenantNaming.DropTrailingEmpty | tenant-service/src/main/java/com/kymatic/tenantservice/service/TenantProvisioningService.java:138 | Java's `split` drops exactly the trailing empty pieces |
| TenantNaming.ValidSlugDatabaseName | tenant-service/src/main/java/com/kymatic/tenantservice/service/TenantProvisioningService.java:234-250 | on a validated slug the name uses only [a-z0-9_] and starts with a letter or '_' |
| TenantNaming.DelegateDatabaseName | workflow-service/src/main/java/com/kymatic/workflow/delegate/DatabaseCreationDelegate.java:70-86 | the delegate's copy, without a blank check: a name exists iff the slug is non-empty, else "Invalid slug: results in empty database name"; it has 1 to 63 characters and does not start with a digit |
| TenantNaming.DelegateAgrees | workflow-service/src/main/java/com/kymatic/workflow/delegate/DatabaseCreationDelegate.java:70-86 | the workflow delegate computes the same name as the services for every non-blank slug |
| TenantNaming.EmptyNameUnreachable | tenant-service/src/main/java/com/kymatic/tenantservice/service/TenantProvisioningService.java:230-243 | the empty-name check never fires: the only failure is the blank-slug message |
| TenantNaming.UnderscoredInjective | tenant-service/src/main/java/com/kymatic/tenantservice/service/TenantProvisioningService.java:237-238 | '-' to '_' loses nothing on validated slugs |
| TenantNaming.DigitPrefixCollision | tenant-service/src/main/java/com/kymatic/tenantservice/service/TenantProvisioningService.java:247-250 | as written, the valid slugs "1a" and "t-1a" both get the database "t_1a", through `DatabaseNameFromSlug` itself |
| TenantNaming.ShortSlugsGetDistinctDatabases | tenant-service/src/main/java/com/kymatic/tenantservice/service/TenantProvisioningService.java:229-260 | with the corrected prefix rule `NameFromNonNullSlug`, distinct valid slugs of at most 61 characters get distinct names |
| TenantNaming.LongSlugsShareDatabase | tenant-service/src/main/java/com/kymatic/tenantservice/service/TenantProvisioningService.java:253-256 | valid slugs agreeing on their first 63 characters and starting with a letter share one database |
| TenantNaming.AdminEmailNormalised | tenant-service/src/main/java/com/kymatic/tenantservice/service/TenantProvisioningService.java:85-90 | a missing or blank admin e-mail becomes `admin@<slug>.local`; a given one is trimmed and lower-cased |
| TenantNaming.FirstNameOfPlainEmail | tenant-service/src/main/java/com/kymatic/tenantservice/service/TenantProvisioningService.java:134-143 | the first name is the capitalised local part of `local@domain` |
| TenantNaming.FirstNameDefaults | tenant-service/src/main/java/com/kymatic/tenantservice/service/TenantProvisioningService.java:135-143 | without '@' the first name is "Admin"; the e-mail "@" makes the lookup throw |
| MasterData.ValidateSlug | tenant-service/src/main/java/com/kymatic/tenantservice/service/TenantProvisioningService.java:213-217 | a slug is accepted iff it matches `^[a-z0-9-]+$`; otherwise 400 with the slug message |
| MasterData.Records | tenant-service/src/main/java/com/kymatic/tenantservice/service/TenantProvisioningService.java:274-279 | one record per saved version, in order, with the tenant and status |
| MasterData.Present | tenant-service/src/main/java/com/kymatic/tenantservice/service/TenantProvisioningService.java:203-204 | a run's versions as the list `recordMigrations` walks, none of them null |
| MasterData.MasterDatabase.RecordMigrations | tenant-service/src/main/java/com/kymatic/tenantservice/service/TenantProvisioningService.java:266-281 | the history gains exactly the records of `NewVersions`; the tenants are unchanged |
| MasterData.RecordedAfter | tenant-service/src/main/java/com/kymatic/tenantservice/service/TenantProvisioningService.java:266-281 | after a run, a version is recorded iff it was before or the run saved it |
| MasterData.NewVersionsSound | tenant-service/src/main/java/com/kymatic/tenantservice/service/TenantProvisioningService.java:267-273 | every saved version comes from the run, is neither null nor blank, was not recorded before, and is saved once |
| MasterData.NewVersionsComplete | tenant-service/src/main/java/com/kymatic/tenantservice/service/TenantProvisioningService.java:267-280 | every present, non-blank, not yet recorded version is saved |
| MasterData.RecordingTwiceSavesNothing | tenant-service/src/main/java/com/kymatic/tenantservice/service/TenantProvisioningService.java:271-273 | recording the same run again saves nothing more |
| MasterData.NothingNewWhenAllRecorded | tenant-service/src/main/java/com/kymatic/tenantservice/service/TenantProvisioningService.java:271-273 | when every version is already recorded nothing is saved |
| MasterData.ValidSlugHasName | tenant-service/src/main/java/com/kymatic/tenantservice/service/TenantProvisioningService.java:52-58 | a slug that passes validation always has a database name |
| Provisioning.TenantProvisioningService.constructor | tenant-service/src/main/java/com/kymatic/tenantservice/service/TenantProvisioningService.java:36-48 | the service works on the given master database, database server and user service, with no tenant-database profiles yet |
| Provisioning.TenantProvisioningService.CreateTenant | tenant-service/src/main/java/com/kymatic/tenantservice/service/TenantProvisioningService.java:50-80 | an invalid slug gives 400 and a slug in use 409, with no database created; an unparsable URL fails before creation; otherwise the database is created unless the existence check or CREATE fails, which gives that IllegalStateException; a migration failure or a fatal admin failure rolls the master database back; success saves the tenant under its new id with its database name and JDBC URL, records the new migration versions, creates the admin login when the e-mail is free and writes the admin profile to the tenant database; slugs stay unique |
| Provisioning.TenantProvisioningService.UpdateStatus | tenant-service/src/main/java/com/kymatic/tenantservice/service/TenantProvisioningService.java:190-196 | an unknown tenant gives 404 "Tenant not found: <id>"; otherwise only that tenant's status changes |
| Provisioning.TenantProvisioningService.RunMigrations | tenant-service/src/main/java/com/kymatic/tenantservice/service/TenantProvisioningService.java:198-206 | an unknown tenant gives 404; a migration failure is passed on with nothing recorded; otherwise the applied versions are returned and exactly the new ones recorded |
| Provisioning.TenantProvisioningService.CreateUserInTenantDatabase | tenant-service/src/main/java/com/kymatic/tenantservice/service/TenantProvisioningService.java:129-173 | the admin's profile is upserted under (database, user id) with the first name from the e-mail; a failing insert or a throwing name extraction is swallowed and changes nothing |
| Provisioning.TenantProvisioningService.CreateDefaultTenantAdmin | tenant-service/src/main/java/com/kymatic/tenantservice/service/TenantProvisioningService.java:82-127 | the admin login is created with the normalised e-mail when it is free; a duplicate is looked up instead; any other failure is fatal with "Failed to create default admin user for tenant <name>"; the tenant-database profile is written only when a user id is known |
| Provisioning.DuplicateMessageMentionsExists | tenant-service/src/main/java/com/kymatic/tenantservice/service/TenantUserService.java:36-38 | the user service's duplicate message is recognised by the "already exists" test |
| Onboarding.AdminUserFor | tenant-service/src/main/java/com/kymatic/tenantservice/service/TenantOnboardingService.java:90-110 | a given admin user is used as it is; otherwise the default user with password "TempPassword123!", names "Admin User", e-mail verified, and the request's non-blank `adminEmail` |
| Onboarding.EmailVerified | tenant-service/src/main/java/com/kymatic/tenantservice/dto/CreateTenantRequest.java:82-84 | the flag sent to Keycloak is true iff the request's `emailVerified` is present and true; null means false |
| Onboarding.CreateUserForTenant | tenant-service/src/main/java/com/kymatic/tenantservice/service/TenantOnboardingService.java:244-251 | the operation is disabled and always answers 501 |
| Onboarding.TenantOnboardingService.constructor | tenant-service/src/main/java/com/kymatic/tenantservice/service/TenantOnboardingService.java:54-66 | the service works on the given master database, database server and Keycloak realm |
| Onboarding.TenantOnboardingService.RunSteps | tenant-service/src/main/java/com/kymatic/tenantservice/service/TenantOnboardingService.java:123-214 | the steps run in order (group, database URL, database creation, migrations, record, admin user, verification, group membership) and stop at the first failure; the realm gains exactly the group and user created, the membership only on a complete run; the server gains the database only when URL and creation succeed; the master tables change only once the record is saved |
| Onboarding.TenantOnboardingService.CreateAdmin | tenant-service/src/main/java/com/kymatic/tenantservice/service/TenantOnboardingService.java:159-192 | the admin steps stop at the first failure as `AdminSteps` says; the user is created with `emailVerified` defaulting to false; the realm gains the user once it is created and the membership only when verification and assignment both succeed; its groups are untouched |
| Onboarding.TenantOnboardingService.PerformRollback | tenant-service/src/main/java/com/kymatic/tenantservice/service/TenantOnboardingService.java:256-298 | the compensations are attempted in the order record, user, group, each only for what exists and never for the "SKIPPED" group; a failing one leaves its object in place; the database is never dropped |
| Onboarding.TenantOnboardingService.CreateTenant | tenant-service/src/main/java/com/kymatic/tenantservice/service/TenantOnboardingService.java:83-236 | an invalid slug gives 400 and a slug in use 409 with realm and databases untouched; a complete run answers with the new tenant, group, admin id and e-mail, adds the membership, and records the run's new migration versions; an expected exception is rethrown with nothing compensated; any other failure is compensated and wrapped with the failed step, leaving the realm's group and user only where their deletion failed; the server keeps any database created; every failure leaves the master tables as they were |
| Onboarding.DetermineFailedStep | tenant-service/src/main/java/com/kymatic/tenantservice/service/TenantOnboardingService.java:303-316 | the step blamed is the first whose product is missing: no group id is organisation creation, then no tenant entity is database creation, then no user id is user creation; with all three present it is the organisation assignment |
| Onboarding.FailedStepByFailurePoint | tenant-service/src/main/java/com/kymatic/tenantservice/service/TenantOnboardingService.java:303-316 | the failed step follows where the steps stopped; a failing database URL, database creation or migration is the database step; a group created without an id is reported as the group step whatever failed later, and a failing record save is reported as user creation |
| Onboarding.RunSucceedsIffEveryStepDoes | tenant-service/src/main/java/com/kymatic/tenantservice/service/TenantOnboardingService.java:123-214 | the steps succeed iff the group, the database URL and creation, the migrations, the record, the admin user (created with its `emailVerified` or false), its verification and the assignment all do; a complete run has a saved record |
| Onboarding.CompensationOrder | tenant-service/src/main/java/com/kymatic/tenantservice/service/TenantOnboardingService.java:259-292 | at most three compensations, in the order record, user, group, and never for the placeholder group |
| Onboarding.CompensationsListCreated | tenant-service/src/main/java/com/kymatic/tenantservice/service/TenantOnboardingService.java:259-292 | a record, user or group deletion is listed exactly when that record was saved, that user created, or that group created and not the placeholder; nothing is listed when nothing was created |
| Onboarding.CreatedIsCompensated | tenant-service/src/main/java/com/kymatic/tenantservice/service/TenantOnboardingService.java:219-292 | everything created before an unexpected failure is compensated and nothing else is |
| Onboarding.DefaultAdminUser | tenant-service/src/main/java/com/kymatic/tenantservice/service/TenantOnboardingService.java:92-110 | without an admin user, the e-mail falls back to `admin@<slug>.local` when blank and is otherwise used untrimmed and in its original case |
| TenantDatabaseManager.BuildTenantJdbcUrl | tenant-service/src/main/java/com/kymatic/tenantservice/service/TenantDatabaseManager.java:136-145 | fails with "Unable to parse datasource URL: <url>" iff the URL has no '/'; otherwise keeps it through its last '/' and appends the database name |
| TenantDatabaseManager.AppliedVersions | tenant-service/src/main/java/com/kymatic/tenantservice/service/TenantDatabaseManager.java:50-100 | the reported versions keep the tool's order and length, a missing version becoming "baseline" |
| TenantDatabaseManager.DatabaseServer.CreateDatabaseIfNotExists | tenant-service/src/main/java/com/kymatic/tenantservice/service/TenantDatabaseManager.java:35-117 | the answer is `CreationOutcome`: a failing existence check or CREATE fails with its IllegalStateException message and changes nothing; otherwise the database exists afterwards and was created iff it did not exist before |
| TenantDatabaseManager.CreationOutcome | tenant-service/src/main/java/com/kymatic/tenantservice/service/TenantDatabaseManager.java:35-117 | creation succeeds iff the existence check does and the database exists or CREATE succeeds; it creates iff the database was missing; failures carry "Failed to check if database exists: " or "Failed to create tenant database " and the name |
| TenantDatabaseManager.TenantUrlShape | tenant-service/src/main/java/com/kymatic/tenantservice/service/TenantDatabaseManager.java:136-145 | the tenant URL keeps the data-source URL through its last '/' and the database name is its last path segment |
| TenantDatabaseManager.RetargetTenantUrl | tenant-service/src/main/java/com/kymatic/tenantservice/service/TenantDatabaseManager.java:136-145 | re-targeting a tenant URL at another database gives that database's URL: only the last segment is replaced |
| TenantDatabaseManager.BuildPostgresConnectionUrl | tenant-service/src/main/java/com/kymatic/tenantservice/service/TenantDatabaseManager.java:126-134 | fails iff the datasource URL has no '/'; otherwise the URL ends in "/postgres" |
| TenantDatabaseManager.AdminUrlIsPostgresTenantUrl | tenant-service/src/main/java/com/kymatic/tenantservice/service/TenantDatabaseManager.java:126-134 | the administrative URL is the tenant URL of the `postgres` database, and both fail together |
| TenantDatabaseManager.AppliedVersionsKeepsGiven | tenant-service/src/main/java/com/kymatic/tenantservice/service/TenantDatabaseManager.java:94 | reported versions are kept as they are and in order |
| Delegates.RecordCheck | workflow-service/src/main/java/com/kymatic/workflow/delegate/TenantRecordDelegate.java:51-82 | a wrong-typed variable fails its cast first; otherwise the record step passes iff name, slug, database name and connection string are present and non-blank and the slug is valid and unused; every check failure is an IllegalArgumentException |
| Delegates.CreateDatabase | workflow-service/src/main/java/com/kymatic/workflow/delegate/DatabaseCreationDelegate.java:36-68 | a wrong-typed slug fails its cast; a missing or invalid slug fails with its message; an unparsable base URL fails with "Unable to parse base URL: <url>"; each creates nothing; otherwise a failing existence check or CREATE fails with its message; else the database exists, and after a successful migration exactly the four variables `databaseName`, `databaseConnectionString`, `migrationsApplied` and `databaseCreated` are set; a failure sets no variable |
| Delegates.SaveTenantRecord | workflow-service/src/main/java/com/kymatic/workflow/delegate/TenantRecordDelegate.java:48-112 | the step fails with `RecordCheck`'s exception and changes nothing, or saves an active record under the new id and sets `tenantId` and `tenantRecordSaved`; slugs stay unique |
| Delegates.SavedRecordIsComplete | workflow-service/src/main/java/com/kymatic/workflow/delegate/TenantRecordDelegate.java:60-100 | a saved record has a valid, unused slug, non-blank required fields and status "active" |
| Delegates.RecordCheckOrder | workflow-service/src/main/java/com/kymatic/workflow/delegate/TenantRecordDelegate.java:61-77 | when the casts succeed, a missing name is reported first, and the slug's format before its uniqueness |
| TenantFilters.IsMasterDbOnlyEndpoint | tenant-service/src/main/java/com/kymatic/tenantservice/multitenancy/JwtTenantResolver.java:125-135 | a path is master-only iff it is present, non-empty and starts with one of the nine listed prefixes |
| TenantFilters.JwtRequestTenant | tenant-service/src/main/java/com/kymatic/tenantservice/multitenancy/JwtTenantResolver.java:72-105 | the tenant is the `tenant_id` claim, else the `X-Tenant-ID` header, else the `tenant` parameter, else the `tenantId` parameter, empty counting as absent; none is chosen iff all four are absent or empty |
| TenantFilters.TenantContext.Clear | tenant-service/src/main/java/com/kymatic/tenantservice/multitenancy/JwtTenantResolver.java:118 | the context holds no tenant |
| TenantFilters.TenantContext.SetTenantId | tenant-service/src/main/java/com/kymatic/tenantservice/multitenancy/JwtTenantResolver.java:109 | the context holds the given tenant |
| TenantFilters.JwtTenantFilter | tenant-service/src/main/java/com/kymatic/tenantservice/multitenancy/JwtTenantResolver.java:52-120 | on a master-only path the chain sees no tenant; otherwise it sees the chosen tenant, or, with none chosen, whatever an earlier filter left; the context is always cleared afterwards |
| TenantFilters.HeaderTenantFilter | tenant-service/src/main/java/com/kymatic/tenantservice/config/TenantFilter.java:44-71 | on a master-only path the chain sees no tenant; otherwise it sees a non-empty `X-Tenant-ID` header or what was there before; the context is always cleared afterwards |
| TenantFilters.StartsWithAnyIff | tenant-service/src/main/java/com/kymatic/tenantservice/multitenancy/JwtTenantResolver.java:129-134 | the loop answers true iff some pattern is a prefix of the path |
| TenantFilters.PrefixMatchIsRaw | tenant-service/src/main/java/com/kymatic/tenantservice/multitenancy/JwtTenantResolver.java:130 | the match is on raw prefixes: `/api/members`, sub-paths of listed prefixes and `/actuatorx` are master-only; `/api/tasks`, "" and null are not |
| TenantFilters.MasterOnlyIsPrefixClosed | tenant-service/src/main/java/com/kymatic/tenantservice/multitenancy/JwtTenantResolver.java:130 | every extension of a master-only path is master-only |
| TenantFilters.FiltersAgreeOnHeaderOnly | tenant-service/src/main/java/com/kymatic/tenantservice/multitenancy/JwtTenantResolver.java:90-94 | with only a header, the JWT filter picks the same tenant as the header filter |
| IdentifierResolver.FindBySlug | tenant-service/src/main/java/com/kymatic/tenantservice/service/TenantIdentifierResolver.java:65 | a tenant is found iff one has the slug; it is that stored tenant |
| IdentifierResolver.QueryTenant | tenant-service/src/main/java/com/kymatic/tenantservice/service/TenantIdentifierResolver.java:52-67 | blank identifiers fail with "Tenant identifier is required"; an identifier succeeds iff it parses as the id of a stored tenant or is a stored slug; otherwise "Tenant not found: <identifier>" |
| IdentifierResolver.TenantIdentifierResolver.constructor | tenant-service/src/main/java/com/kymatic/tenantservice/service/TenantIdentifierResolver.java:29-33 | the cache starts empty |
| IdentifierResolver.TenantIdentifierResolver.ResolveTenantEntity | tenant-service/src/main/java/com/kymatic/tenantservice/service/TenantIdentifierResolver.java:39-50 | a null identifier fails in the cache lookup; a cached entry is returned without a query; otherwise the query's answer is returned and only a success is cached, under the identifier as given; a cache that agrees with the table keeps agreeing |
| IdentifierResolver.TenantIdentifierResolver.ResolveTenantIdentifier | tenant-service/src/main/java/com/kymatic/tenantservice/service/TenantIdentifierResolver.java:35-49 | a null identifier fails; a cached identifier answers the cached tenant's id, even when stale, and keeps the cache; otherwise the answer is the query's tenant id or error and the cache gains the entry only on success; with a cache that agrees with the table, the answer is what a fresh query finds and the cache keeps agreeing |
| IdentifierResolver.CachedResolutionIsFresh | tenant-service/src/main/java/com/kymatic/tenantservice/service/TenantIdentifierResolver.java:41-49 | while the tenant table does not change, a cached entry equals what a fresh query would give |
| IdentifierResolver.SlugAndIdAgree | tenant-service/src/main/java/com/kymatic/tenantservice/service/TenantIdentifierResolver.java:57-66 | a tenant's id and its slug resolve to the same tenant |
| IdentifierResolver.UnknownIdFallsBackToSlug | tenant-service/src/main/java/com/kymatic/tenantservice/service/TenantIdentifierResolver.java:57-66 | an identifier that parses as an unknown id is still found by slug |
| RoutingDataSource.LookupKey | tenant-service/src/main/java/com/kymatic/tenantservice/config/TenantRoutingDataSource.java:61-81 | without a non-blank context tenant, or when resolution fails, the key is "master"; otherwise it is the resolved database name |
| RoutingDataSource.TenantRoutingDataSource.constructor | tenant-service/src/main/java/com/kymatic/tenantservice/config/TenantRoutingDataSource.java:40-59 | the routing source starts with the master URL and no tenant pools |
| RoutingDataSource.TenantRoutingDataSource.DetermineTargetDataSource | tenant-service/src/main/java/com/kymatic/tenantservice/config/TenantRoutingDataSource.java:83-99 | the master key gives the master pool; another key gives its cached pool or a new one for the tenant URL, which is cached; a master URL without '/' fails and caches nothing; cached pools are never replaced and every cached pool matches its name |
| RoutingDataSource.NoTenantMeansMaster | tenant-service/src/main/java/com/kymatic/tenantservice/config/TenantRoutingDataSource.java:66-80 | without a usable context tenant, or when its database cannot be resolved, every access goes to the master database |
| RoutingDataSource.DatabaseNamedMasterIsMaster | tenant-service/src/main/java/com/kymatic/tenantservice/config/TenantRoutingDataSource.java:87 | a tenant whose database is named "master" is routed to the master pool |
| RbacTables.RequireTenantId | tenant-service/src/main/java/com/kymatic/tenantservice/service/TenantScopeService.java:9-15 | the context tenant is returned iff it is present and not blank; otherwise IllegalStateException "Tenant context is not available" |
| Roles.RoleByKey | tenant-service/src/main/java/com/kymatic/tenantservice/service/RoleService.java:92-96 | a role is found iff the tenant has a live role with that key, and it is that stored role; otherwise "Role not found: <key>" |
| Roles.ListRoles | tenant-service/src/main/java/com/kymatic/tenantservice/service/RoleService.java:74-90 | exactly the tenant's live roles are listed, each with only keys of permissions that exist in the tenant; fails iff there is no tenant context |
| Roles.CreateRole | tenant-service/src/main/java/com/kymatic/tenantservice/service/RoleService.java:39-72 | no tenant context, a live role key in use, or a missing permission fails and changes nothing; otherwise the role is stored under its new id and exactly one mapping per found permission is appended; no other table changes |
| Roles.SaveMappings | tenant-service/src/main/java/com/kymatic/tenantservice/service/RoleService.java:64-69 | the loop appends exactly one mapping from the role to each found permission and changes nothing else |
| Roles.FoundCountMeansAllExist | tenant-service/src/main/java/com/kymatic/tenantservice/service/RoleService.java:46-52 | comparing the number found with the number asked for is the same as checking every requested key, since a tenant's permission keys are distinct |
| Roles.CreatedRoleIsListed | tenant-service/src/main/java/com/kymatic/tenantservice/service/RoleService.java:63-90 | right after creation the role is listed with exactly the requested permission keys |
| Roles.RoleLookupIsTenantScoped | tenant-service/src/main/java/com/kymatic/tenantservice/service/RoleService.java:93-95 | a role key finds the tenant's own role and never another tenant's |
| RoleAssignment.TenantUser | tenant-service/src/main/java/com/kymatic/tenantservice/service/RoleAssignmentService.java:62-66 | the user check passes iff the user exists and belongs to the tenant |
| RoleAssignment.AssignmentFor | tenant-service/src/main/java/com/kymatic/tenantservice/service/RoleAssignmentService.java:60-80 | the assignment checks pass iff there is a tenant context, the user is the tenant's, the role key names a live role of the tenant, and a requested site is the tenant's and not inactive; the key is (tenant, user, role id, site) |
| RoleAssignment.AssignRole | tenant-service/src/main/java/com/kymatic/tenantservice/service/RoleAssignmentService.java:59-91 | a failed check changes nothing; otherwise the assignment for its key is created or overwritten, active and with the requested expiry; no other table changes |
| RoleAssignment.GrantFor | tenant-service/src/main/java/com/kymatic/tenantservice/service/RoleAssignmentService.java:94-109 | the grant checks pass iff there is a tenant context, the user is the tenant's, and the site is the tenant's and not inactive |
| RoleAssignment.GrantSiteAccess | tenant-service/src/main/java/com/kymatic/tenantservice/service/RoleAssignmentService.java:93-120 | a failed check changes nothing; otherwise the grant for (tenant, user, site) is created or overwritten, active, with the requested level and expiry |
| RoleAssignment.GetUserPermissions | tenant-service/src/main/java/com/kymatic/tenantservice/service/RoleAssignmentService.java:122-149 | fails on a missing context or a foreign user; otherwise returns the user and site asked for and, sorted without duplicates, exactly the keys the user's applicable active roles grant through permissions of the tenant |
| RoleAssignment.CollectKeys | tenant-service/src/main/java/com/kymatic/tenantservice/service/RoleAssignmentService.java:137-146 | the nested loops collect exactly the keys of the tenant's permissions mapped to the applicable roles |
| RoleAssignment.RoleKeys | tenant-service/src/main/java/com/kymatic/tenantservice/service/RoleAssignmentService.java:139-145 | the inner loop collects exactly the keys of one role's mappings to the tenant's permissions |
| RoleAssignment.KeysViaUnion | tenant-service/src/main/java/com/kymatic/tenantservice/service/RoleAssignmentService.java:138-146 | the keys of a union of roles are the union of their keys |
| RoleAssignment.GlobalAssignmentGrantsEverywhere | tenant-service/src/main/java/com/kymatic/tenantservice/service/RoleAssignmentService.java:132-133 | a role assigned without a site grants its permissions at every site and at none |
| RoleAssignment.SiteAssignmentOnlyAtItsSite | tenant-service/src/main/java/com/kymatic/tenantservice/service/RoleAssignmentService.java:133 | a site assignment counts only at its own site |
| StringOrder.SortedList | tenant-service/src/main/java/com/kymatic/tenantservice/service/RoleAssignmentService.java:148 | the result is strictly increasing and holds exactly the elements of the set |
| StringOrder.LeastExists | tenant-service/src/main/java/com/kymatic/tenantservice/service/RoleAssignmentService.java:148 | every non-empty finite set of strings has a least element |
| Sites.TenantSite | tenant-service/src/main/java/com/kymatic/tenantservice/service/SiteService.java:56-60 | a site is found iff it exists and belongs to the tenant; otherwise "Site not found: <id>" |
| Sites.ListSites | tenant-service/src/main/java/com/kymatic/tenantservice/service/SiteService.java:48-54 | a site is listed iff it belongs to the context's tenant and is not deleted; fails iff there is no tenant context |
| Sites.CreateSite | tenant-service/src/main/java/com/kymatic/tenantservice/service/SiteService.java:23-46 | no tenant context or a site code in use fails and changes nothing; otherwise the new active site is stored under its id; no other table changes |
| Sites.CreatedSiteIsListed | tenant-service/src/main/java/com/kymatic/tenantservice/service/SiteService.java:23-60 | a created site keeps site codes unique, is listed for its tenant, is found by id and is active |
| Sites.OtherTenantsSiteNotFound | tenant-service/src/main/java/com/kymatic/tenantservice/service/SiteService.java:57-59 | another tenant's site is never found |
| Tasks.TaskStore.constructor | tenant-service/src/main/java/com/kymatic/tenantservice/service/tenant/TenantTaskService.java:20-22 | the store starts with no task |
| Tasks.TaskStore.CreateTask | tenant-service/src/main/java/com/kymatic/tenantservice/service/tenant/TenantTaskService.java:24-42 | with no tenant in the context the call fails with "Tenant ID is required" and nothing is stored; otherwise the new task carries the fresh id, the context tenant and the request's fields, and is the only change to the store |
| Tasks.TaskStore.GetTask | tenant-service/src/main/java/com/kymatic/tenantservice/service/tenant/TenantTaskService.java:51-55 | succeeds iff the id is stored, with that task; else "Task not found" for that id |
| Tasks.TaskStore.UpdateTask | tenant-service/src/main/java/com/kymatic/tenantservice/service/tenant/TenantTaskService.java:69-95 | an unknown id fails with nothing changed; a known one is replaced by that entry patched with the request's non-null fields, and no other task changes |
| Tasks.TaskStore.DeleteTask | tenant-service/src/main/java/com/kymatic/tenantservice/service/tenant/TenantTaskService.java:97-103 | an unknown id fails with nothing removed; a known one is removed and nothing else |
| Tasks.PatchKeepsWhatIsNotGiven | tenant-service/src/main/java/com/kymatic/tenantservice/service/tenant/TenantTaskService.java:74-91 | a patch keeps the id and tenant and every field the request leaves null, and takes a given title |
| Tasks.PatchIdempotent | tenant-service/src/main/java/com/kymatic/tenantservice/service/tenant/TenantTaskService.java:74-91 | applying a patch twice equals applying it once; an all-null patch changes nothing |
| Tasks.MissingTenantIsForbidden | tenant-service/src/main/java/com/kymatic/tenantservice/service/tenant/TenantTaskService.java:27-29 | the missing-tenant failure is answered 403 by the exception handler |
| Authentication.UserByEmail | tenant-service/src/main/java/com/kymatic/tenantservice/controller/AuthController.java:64-65 | with e-mails unique per tenant, a user is found iff one with that tenant and e-mail is stored, and it is that stored user |
| Authentication.LoginReply | tenant-service/src/main/java/com/kymatic/tenantservice/controller/AuthController.java:49-126 | a success names a stored, active user of the resolved tenant with the given e-mail whose hash matches the password; every failure is 400, 401 or 500 |
| Authentication.Login | tenant-service/src/main/java/com/kymatic/tenantservice/controller/AuthController.java:49-126 | the reply is LoginReply's on the old table; only a success changes the table, setting that user's last login and nothing else; e-mails stay unique |
| Authentication.RefreshReply | tenant-service/src/main/java/com/kymatic/tenantservice/controller/AuthController.java:128-174 | a success names a stored active user and its tenant; a failure is 400 only for a missing or blank token, else 401 |
| Authentication.UnknownUserLooksLikeWrongPassword | tenant-service/src/main/java/com/kymatic/tenantservice/controller/AuthController.java:64-85 | an unknown e-mail and a wrong password for an active user both get 401 "Invalid credentials" |
| Authentication.BodyTenantWins | tenant-service/src/main/java/com/kymatic/tenantservice/controller/AuthController.java:55-59 | the body's tenant decides regardless of the header, and a blank one is 400 "Tenant ID is required" |
| Authentication.RightPasswordLogsIn | tenant-service/src/main/java/com/kymatic/tenantservice/controller/AuthController.java:61-89 | an active stored user of the resolved tenant with the matching password logs in as that user |
| Authentication.InactiveUserIsLockedOut | tenant-service/src/main/java/com/kymatic/tenantservice/controller/AuthController.java:74-78 | when no user is active, every login and every refresh fails |
| TenantUsers.TenantUserService.constructor | tenant-service/src/main/java/com/kymatic/tenantservice/service/TenantUserService.java:22-30 | the service starts over the given user table |
| TenantUsers.TenantUserService.CreateTenantUser | tenant-service/src/main/java/com/kymatic/tenantservice/service/TenantUserService.java:32-50 | a resolver failure propagates and a taken e-mail in the resolved tenant fails, both with nothing stored; otherwise the user with the encoded password is added under the new id; e-mail uniqueness per tenant is kept |
| TenantUsers.TenantUserService.GetTenantUser | tenant-service/src/main/java/com/kymatic/tenantservice/service/TenantUserService.java:59-63 | the stored user for a known id, else "User not found" with that id |
| TenantUsers.TenantUserService.GetTenantUserByEmail | tenant-service/src/main/java/com/kymatic/tenantservice/service/TenantUserService.java:65-70 | a resolver failure propagates; otherwise it succeeds iff the resolved tenant has a user with that e-mail, and returns that stored user |
| TenantUsers.TenantUserService.GetUsersByTenant | tenant-service/src/main/java/com/kymatic/tenantservice/service/TenantUserService.java:52-57 | a resolver failure propagates; otherwise exactly the stored users of the resolved tenant |
| TenantUsers.TenantUserService.UpdateTenantUser | tenant-service/src/main/java/com/kymatic/tenantservice/service/TenantUserService.java:72-99 | unknown id, or a changed e-mail already taken in the user's tenant, fails with nothing changed; a success replaces only that user by the updated one, whose active flag is the request's or true when omitted; e-mail uniqueness is kept |
| TenantUsers.TenantUserService.DeleteTenantUser | tenant-service/src/main/java/com/kymatic/tenantservice/service/TenantUserService.java:101-107 | a known id is removed and nothing else; an unknown one fails with nothing removed |
| TenantUsers.EmptyUpdateReactivates | tenant-service/src/main/java/com/kymatic/tenantservice/service/TenantUserService.java:77-95 | an update with every field null changes only the active flag, which `isActive()` reads as true: an inactive user is reactivated |
| TenantUsers.UpdateKeepsIdentity | tenant-service/src/main/java/com/kymatic/tenantservice/service/TenantUserService.java:72-95 | an update keeps id, tenant and last login; an absent or empty password keeps the hash, a non-empty one is encoded |
| TenantUsers.UpdateIdempotent | tenant-service/src/main/java/com/kymatic/tenantservice/service/TenantUserService.java:77-95 | without a new password, applying an update twice equals applying it once |
| Exceptions.ErrorMap | tenant-service/src/main/java/com/kymatic/tenantservice/exception/GlobalExceptionHandler.java:27-32 | every reported field is a key of the error map, and every key is a reported field |
| Exceptions.Handle | tenant-service/src/main/java/com/kymatic/tenantservice/exception/GlobalExceptionHandler.java:25-131 | the response carries the status the handler assigns to the exception's kind |
| Exceptions.BodyStatusMatches | tenant-service/src/main/java/com/kymatic/tenantservice/exception/GlobalExceptionHandler.java:25-131 | every response body has a "status" equal to the HTTP status and a "message" |
| Exceptions.ClientErrors | tenant-service/src/main/java/com/kymatic/tenantservice/exception/GlobalExceptionHandler.java:25-88 | validation and bad arguments are 400; an illegal state is 403 iff its message mentions "Tenant ID", else 400; duplicates are 409 |
| Exceptions.ServerErrors | tenant-service/src/main/java/com/kymatic/tenantservice/exception/GlobalExceptionHandler.java:90-131 | a status exception keeps its status and reason; onboarding, Keycloak and unexpected failures are 500, onboarding naming its failed step |
| Exceptions.LastFieldErrorWins | tenant-service/src/main/java/com/kymatic/tenantservice/exception/GlobalExceptionHandler.java:28-32 | a field reported several times keeps its last message |
| KeycloakRetry.IsRetryableAssignmentError | tenant-service/src/main/java/com/kymatic/tenantservice/client/KeycloakClientWrapper.java:1342-1371 | 400 is always retryable; any other status outside 5xx is retried only when a body carries error text (a JSON `errorMessage` or a non-JSON body) |
| KeycloakRetry.MentionsMissingUserThreePhrases | tenant-service/src/main/java/com/kymatic/tenantservice/client/KeycloakClientWrapper.java:1353-1357 | a text names a missing user iff its lower-case form contains "user does not exist", "not found" or "invalid user" |
| KeycloakRetry.BadRequestAlwaysRetryable | tenant-service/src/main/java/com/kymatic/tenantservice/client/KeycloakClientWrapper.java:1344-1346 | status 400 is retried whatever the body |
| KeycloakRetry.WithoutLetterNNoPhrase | tenant-service/src/main/java/com/kymatic/tenantservice/client/KeycloakClientWrapper.java:1353-1365 | a text without the letter n never names a missing user |
| KeycloakRetry.ServerErrorWithOtherMessageNotRetried | tenant-service/src/main/java/com/kymatic/tenantservice/client/KeycloakClientWrapper.java:1349-1358 | a JSON errorMessage decides: a 503 whose message names no missing user is not retried |
| KeycloakRetry.ConflictWithMissingUserRetried | tenant-service/src/main/java/com/kymatic/tenantservice/client/KeycloakClientWrapper.java:1349-1358 | a 409 whose errorMessage says "user not found" is retried |
| KeycloakRetry.WithoutErrorTextOnlyServerErrorsRetry | tenant-service/src/main/java/com/kymatic/tenantservice/client/KeycloakClientWrapper.java:1342-1371 | with no body, or JSON without errorMessage, a status is retried iff it is 400 or 5xx |
| KeycloakRetry.Backoff | tenant-service/src/main/java/com/kymatic/tenantservice/client/KeycloakClientWrapper.java:1247 | each wait is between 2 and 10 seconds, and is 2 seconds times the attempt number or the 10-second cap |
| KeycloakRetry.BackoffGrowsToCap | tenant-service/src/main/java/com/kymatic/tenantservice/client/KeycloakClientWrapper.java:1246-1247 | waits never shrink, are 2, 4, 6, 8 seconds on the first four attempts and 10 seconds from the fifth on |
| KeycloakRetry.FullScheduleTotal | tenant-service/src/main/java/com/kymatic/tenantservice/client/KeycloakClientWrapper.java:1205-1206 | the fourteen waits of a full run add up to 120 seconds |
| KeycloakRetry.AssignStep | tenant-service/src/main/java/com/kymatic/tenantservice/client/KeycloakClientWrapper.java:1228-1284 | a pass retries only before the last attempt, and stops assigned iff it got a 2xx answer |
| KeycloakRetry.AssignUserToOrganization | tenant-service/src/main/java/com/kymatic/tenantservice/client/KeycloakClientWrapper.java:1173-1301 | the loop's run equals the run Assignment specifies, and always returns normally |
| KeycloakRetry.AssignFromShape | tenant-service/src/main/java/com/kymatic/tenantservice/client/KeycloakClientWrapper.java:1208-1285 | from any attempt, a run makes between one and the remaining attempts, with one capped-backoff wait between consecutive attempts |
| KeycloakRetry.AssignedIffLastSucceeded | tenant-service/src/main/java/com/kymatic/tenantservice/client/KeycloakClientWrapper.java:1228-1262 | a run ends assigned iff its last attempt got a 2xx answer |
| KeycloakRetry.AssignmentBounds | tenant-service/src/main/java/com/kymatic/tenantservice/client/KeycloakClientWrapper.java:1173-1301 | at most fifteen attempts, waits 2, 4, 6, 8 then 10 seconds totalling at most two minutes, and no attempt iff the user was not confirmed up front |
| KeycloakRetry.UnverifiedUserIsSkipped | tenant-service/src/main/java/com/kymatic/tenantservice/client/KeycloakClientWrapper.java:1180-1185 | an unconfirmed user is never posted and the call returns without failing |
| KeycloakRetry.ImmediatePass | tenant-service/src/main/java/com/kymatic/tenantservice/client/KeycloakClientWrapper.java:399-442 | a pass adds the member iff the POST returned 201 or 204 and membership was confirmed; it breaks iff the POST returned 404 or 403 |
| KeycloakRetry.AddUserToOrganizationImmediate | tenant-service/src/main/java/com/kymatic/tenantservice/client/KeycloakClientWrapper.java:372-455 | the loop's run equals the run ImmediateFrom specifies |
| KeycloakRetry.ImmediateFromShape | tenant-service/src/main/java/com/kymatic/tenantservice/client/KeycloakClientWrapper.java:388-447 | between one and five passes; success iff the last pass added a confirmed member; stopping early only on 404 or 403; every failure a Keycloak error whose message starts with the five-attempt prefix |
| KeycloakRetry.ImmediateDelays | tenant-service/src/main/java/com/kymatic/tenantservice/client/KeycloakClientWrapper.java:391-395 | the run waits once between consecutive passes, and the wait before pass k+1 (counting from 1) is 5000 times k milliseconds |
| KeycloakRetry.ForbiddenStopsAtOnce | tenant-service/src/main/java/com/kymatic/tenantservice/client/KeycloakClientWrapper.java:435-447 | a 403 on the first pass ends the loop after one pass, with the five-attempt message |
| KeycloakRetry.OrgIdFromBody | tenant-service/src/main/java/com/kymatic/tenantservice/client/KeycloakClientWrapper.java:460-470 | the body's id iff it is a JSON object with an id field, else null |
| KeycloakRetry.LastSegment | tenant-service/src/main/java/com/kymatic/tenantservice/client/KeycloakClientWrapper.java:345-347 | the segment after the last slash: it holds no slash and ends the header |
| KeycloakRetry.LastSegmentOfPath | tenant-service/src/main/java/com/kymatic/tenantservice/client/KeycloakClientWrapper.java:345-347 | a Location of the form base/id gives id back |
| KeycloakRetry.CreateOrganization | tenant-service/src/main/java/com/kymatic/tenantservice/client/KeycloakClientWrapper.java:312-366 | an OrganizationAlreadyExists error iff the POST answered 409; success iff it answered 201 |
| KeycloakRetry.CreatedOrgId | tenant-service/src/main/java/com/kymatic/tenantservice/client/KeycloakClientWrapper.java:343-350 | on 201 the id is the last segment of a non-empty Location header, else the body's id, else null |
| KeycloakRetry.CreationFailuresStatus | tenant-service/src/main/java/com/kymatic/tenantservice/client/KeycloakClientWrapper.java:351-364 | a 409 is answered 409; any other non-201 is a Keycloak error whose message carries the creation prefix twice |
| TenantController.GetTenantById | tenant-service/src/main/java/com/kymatic/tenantservice/controller/TenantController.java:170-178 | found iff the id is stored, with that tenant; else 404 |
| TenantController.GetTenantBySlug | tenant-service/src/main/java/com/kymatic/tenantservice/controller/TenantController.java:187-193 | with slugs unique, found iff a tenant has that slug, and it is that stored tenant |
| TenantController.LookupsAgree | tenant-service/src/main/java/com/kymatic/tenantservice/controller/TenantController.java:170-193 | a stored tenant is found alike by id and by slug; a lookup by id is 404 iff the id is not stored |
| TenantController.ReportedMigrations | tenant-service/src/main/java/com/kymatic/tenantservice/controller/TenantController.java:245-248 | exactly the history records of the tenant whose version is in the applied set |
| TenantController.RunMigrations | tenant-service/src/main/java/com/kymatic/tenantservice/controller/TenantController.java:239-251 | an unknown tenant is 404 and a failed run propagates; a success records the newly applied versions and reports exactly the tenant's records with a non-blank applied version |
| TenantController.ReportMatchesRun | tenant-service/src/main/java/com/kymatic/tenantservice/controller/TenantController.java:240-248 | after a run, its report holds a record for a version iff the run applied it and it is not blank |
| TenantController.AssignUser | tenant-service/src/main/java/com/kymatic/tenantservice/controller/TenantController.java:302-369 | 200 iff the slug is not blank, the e-mail is not blank and has an @, and the wrapper returned true; a blank slug, then a bad e-mail, answer 400 first; success is true iff the status is 200 |
| TenantController.AssignStatusFollowsWrapper | tenant-service/src/main/java/com/kymatic/tenantservice/controller/TenantController.java:326-368 | with valid input the wrapper decides: true 200, false 400, an exception 500 |
| TenantController.InvalidInputIgnoresWrapper | tenant-service/src/main/java/com/kymatic/tenantservice/controller/TenantController.java:309-324 | invalid input is answered 400 whatever the wrapper would do |

## Left out

- Network, Keycloak, JDBC, Flyway and HikariCP calls are not performed. Their answers are parameters or oracle functions of the operations that use them, and pool settings are not modelled.
- `Thread.sleep`, `setTimeout`, `setInterval` and `Date.now` are not performed. Waits are returned as lists of delays, the interval is one stored handle, and the current time is a parameter.
- The background `scheduleDelayedAssignment` thread is not modelled; it is concurrency.
- Transactions are not modelled. A failing step leaves the state as the model's method leaves it, and the onboarding compensation is modelled explicitly. In particular, `Provisioning.TenantProvisioningService.CreateDefaultTenantAdmin` returns normally on the "already exists" path, although the exception thrown inside the transactional `createTenantUser` would mark the shared transaction rollback-only and make the outer commit fail; for a freshly created tenant no user can already exist, so that path is not reached from `CreateTenant`.
- Token signing and verification (`JwtTokenUtil`), Spring Security configuration and password hashing are not modelled. Validation, decoding and `matches`/`encode` are parameters.
- `atob`, `decodeURIComponent` and `JSON.parse` in token parsing are one `decode` parameter, and `UUID.fromString` is a `parseUuid` parameter.
- White space is six ASCII characters (space, tab, line feed, carriage return, vertical tab, form feed) for every `trim` and blank test. Not modelled: Java's `trim()` also strips the other control characters up to U+0020; Java's `isBlank` also counts U+001C to U+001F and the Unicode space separators; JavaScript's `trim` also strips U+00A0, U+FEFF and the Unicode spaces. Case conversion is ASCII only.
- Regular expressions are modelled by the character classes they accept (the UUID pattern, the slug pattern `^[a-z0-9-]+$`, the slug-derivation replacements), not by a regex engine.
- `TenantContext` is not part of this model. Its per-thread value is a field of the `TenantFilters.TenantContext` class, set and cleared by the filters as they call it.
- React rendering, state setters' asynchrony and effect scheduling are not modelled. A suspension point inside an async function (the Keycloak `init` await) splits the operation into two methods.
- Spring's own argument handling is not modelled: a missing request parameter or a malformed path UUID is rejected before the controller runs.
- Bean validation of request bodies (`@Valid` with `@NotBlank`/`@Email`) is not modelled: `TenantUsers` models the service methods for every request, including updates without e-mail, password or role that the controller would refuse.
- The JSON bodies of `AuthController` are reduced to a status and an optional message. An `IllegalArgumentException` without a message makes `Map.of` throw, and that answer is not modelled.
- Listing endpoints that only return a repository query (`getAllTasks`, `getTasksByProject`, `getTasksByAssignee`, `listMigrations`) are not modelled; `listMigrations` is not modelled either. The source reads the records with `findByTenantIdOrderByAppliedAtDesc` (TenantProvisioningService.java:210), newest first. `TenantController.RunMigrations` reports them in the order they were stored, oldest first, so records of different runs come out in the reverse of the source's order.
- `localAuth.login` is not modelled: it only posts the credentials and stores the answer, the same storing `refreshToken` does.
- The `KeycloakRetry.AddUserToOrganizationImmediate` model starts at the first pass: an admin-token failure before the loop is outside it.
- `KeycloakRetry.AssignUserToOrganization` models the loop from the comprehensive user check on; what the check itself does is a parameter. The fixed 3-second indexing wait between the check and the first attempt is not in the returned delays, which list only the waits between attempts; `KeycloakRetry.AssignmentBounds` bounds those alone.
- The workflow service's duplicates of included logic are not modelled: its `TenantDatabaseManager` and `KeycloakClientWrapper`, the api-service `TenantResolver` and the reactive JWT resolver. Its `DatabaseCreationService` is modelled only as `Delegates.CreateDatabase` calls it: URL parsing and database creation, with a migration run as a parameter.
- `PermissionService`, `UserService`, `ProjectService` and `TenantDatabaseResolver` are not modelled. Of `TenantScopeService`, only `requireTenantId` is.
- Every service model names databases with the prefix rule as written (`TenantNaming.NameAsWritten`). The corrected rule of the finding below, `TenantNaming.NameFromNonNullSlug`, is stated and proved on its own and used by nothing else.
- The database server's answers are a `ServerFaults` parameter: whether the existence check fails and whether `CREATE DATABASE` fails. The SQL exception behind a failure is not modelled, only the message the service wraps it in.
- A process variable of the wrong type makes the workflow steps fail their cast. The model reports that as an unexpected exception without a message (`Delegates.CastFailure`); the `ClassCastException` message the runtime composes is not modelled.
- What Keycloak does with the admin user's `emailVerified` flag is part of the `createUser` outcome parameter of `Onboarding`; the model only fixes the flag that is sent.
- `StringOrder.StrLe` compares Unicode code points. Java's `compareTo` compares UTF-16 code units, which order characters above U+FFFF differently from some characters between U+E000 and U+FFFF; such keys are not modelled.

## Findings

| source | as written | input that shows it | evidently intended | confidence | as-written member | corrected member |
|---|---|---|---|---|---|---|
| tenant-service/src/main/java/com/kymatic/tenantservice/service/TenantProvisioningService.java:247-250 | a name starting with a digit gets the prefix `t_`; a name that already starts with `t_` does not | the valid slugs `1a` and `t-1a` both get the database `t_1a` (the same rule is copied in `TenantOnboardingService.java` and `DatabaseCreationDelegate.java`) | distinct short valid slugs get distinct databases | not executed | TenantNaming.DigitPrefixCollision | TenantNaming.ShortSlugsGetDistinctDatabases |
