/** The administration form that creates a tenant
    (`front-end/src/components/admin/CreateTenantForm.tsx`): slug derivation, client-side
    validation, and the bounded retry on a conflicting slug. */
module CreateTenantForm {
  import opened Common
  import FrontApi
  import TenantNaming

  const MaxRetryAttempts := 2
  const EmailRequiredMessage := "Admin email is required"
  const PasswordTooShortMessage := "Admin password must be at least 8 characters"
  const FailedMessage := "Failed to create tenant"

  /** The form's state value. */
  datatype FormData = FormData(tenantName: string, slug: string, subscriptionTier: string, maxUsers: int,
                               maxStorageGb: int, adminEmail: string, adminPassword: string,
                               adminFirstName: string, adminLastName: string)

  /** The body posted to the tenant service. */
  datatype CreateRequest = CreateRequest(tenantName: string, slug: string, subscriptionTier: string, maxUsers: int,
                                         maxStorageGb: int, email: string, password: string,
                                         firstName: string, lastName: string)

  datatype TenantInfo = TenantInfo(tenantId: string, slug: string)

  /** What one submission did: the requests sent in order, the tenant handed to `onSuccess`,
      and the error shown afterwards. */
  datatype Attempted = Attempted(requests: seq<CreateRequest>, created: Option<TenantInfo>, error: Option<FormError>)

  // ------------------------------------------------------------ slug derivation

  predicate IsSlugChar(c: char) { IsLowerAlnum(c) || c == '-' }

  predicate SlugChars(s: string) { forall i :: 0 <= i < |s| ==> IsSlugChar(s[i]) }

  predicate NoDoubleDash(s: string) { forall i :: 0 <= i < |s| - 1 ==> !(s[i] == '-' && s[i + 1] == '-') }

  predicate NoEdgeDash(s: string) { s == "" || (s[0] != '-' && s[|s| - 1] != '-') }

  /** Lower-case, then replace every character outside [a-z0-9-] by '-'. */
  function Sanitize(s: string): (r: string)
    ensures |r| == |s| && SlugChars(r)
  {
    seq(|s|, i requires 0 <= i < |s| => if IsSlugChar(LowerChar(s[i])) then LowerChar(s[i]) else '-')
  }

  /** Replace each run of '-' by a single '-'. */
  function Collapse(s: string): string {
    if |s| <= 1 then s
    else if s[0] == '-' && s[1] == '-' then Collapse(s[1..])
    else [s[0]] + Collapse(s[1..])
  }

  /** Remove one leading and one trailing '-'. */
  function StripEdges(s: string): string {
    var a := if |s| > 0 && s[0] == '-' then s[1..] else s;
    if |a| > 0 && a[|a| - 1] == '-' then a[..|a| - 1] else a
  }

  function SlugFromName(name: string): string {
    StripEdges(Collapse(Sanitize(name)))
  }

  /** An explicit slug wins over one derived from the name. */
  function BaseSlug(form: FormData): string {
    if form.slug != "" then form.slug else SlugFromName(form.tenantName)
  }

  /** Only retries carry the '-<timestamp>' suffix. */
  function AttemptSlug(base: string, attempt: nat, now: int): string {
    if attempt > 0 then base + "-" + IntToString(now) else base
  }

  function Validate(form: FormData): (r: Option<string>)
    ensures r.None? <==> form.adminEmail != "" && |form.adminPassword| >= 8
  {
    if form.adminEmail == "" then Some(EmailRequiredMessage)
    else if form.adminPassword == "" || |form.adminPassword| < 8 then Some(PasswordTooShortMessage)
    else None
  }

  function RequestFor(form: FormData, slug: string): CreateRequest {
    CreateRequest(form.tenantName, slug, form.subscriptionTier, form.maxUsers, form.maxStorageGb,
                  EmailOrDefault(form.adminEmail, slug),
                  form.adminPassword, form.adminFirstName, form.adminLastName)
  }

  /** `adminEmail || \`admin@${slug}.com\``. */
  function EmailOrDefault(adminEmail: string, slug: string): string {
    if adminEmail != "" then adminEmail else "admin@" + slug + ".com"
  }

  // ------------------------------------------------------------ the retry loop

  predicate IsConflict(e: FrontApi.ApiError) {
    e.status == Some(409) || Contains(e.message, "already exists")
  }

  /** The error line the form shows; `Message` renders it. */
  datatype FormError = Retrying(attempt: nat) | AlreadyExists | Failed(message: string)

  function Message(tenantName: string, e: FormError): string {
    match e
    case Retrying(attempt) =>
      "Tenant name \"" + tenantName + "\" is already in use. Trying with a unique identifier... (Attempt "
        + IntToString(attempt + 1) + "/" + IntToString(MaxRetryAttempts) + ")"
    case AlreadyExists =>
      "Tenant \"" + tenantName + "\" already exists. Please choose a different name or slug, or try again in a moment."
    case Failed(message) => message
  }

  /** The error shown when no retry follows. */
  function FinalError(e: FrontApi.ApiError): FormError {
    if IsConflict(e) then AlreadyExists
    else if e.message != "" then Failed(e.message)
    else Failed(FailedMessage)
  }

  /** Attempt number `attempt` and the ones it leads to; `respond` is the tenant service and
      `clock(k)` the time read by attempt `k`. `error0` is the error shown before the attempt.
      A validation error is thrown inside the same `try` as the request; it is never a conflict
      (`ValidationNotConflict`), so it ends the run showing its own message. */
  function Run(form: FormData, attempt: nat, respond: CreateRequest -> Result<TenantInfo, FrontApi.ApiError>,
               clock: nat -> int, error0: Option<FormError>): Attempted
    requires attempt <= MaxRetryAttempts
    decreases MaxRetryAttempts - attempt
  {
    if Validate(form).Some? then Attempted([], None, Some(Failed(Validate(form).value)))
    else
      var request := AttemptRequest(form, attempt, clock);
      match respond(request)
      case Ok(tenant) => Attempted([request], Some(tenant), error0)
      case Err(e) =>
        if attempt < MaxRetryAttempts && IsConflict(e) then
          var rest := Run(form, attempt + 1, respond, clock, Some(Retrying(attempt)));
          Attempted([request] + rest.requests, rest.created, rest.error)
        else Attempted([request], None, Some(FinalError(e)))
  }

  /** One attempt of `Run`: what an invalid form, an answer, a conflict to retry and a final
      failure each lead to. */
  lemma RunUnfold(form: FormData, attempt: nat, respond: CreateRequest -> Result<TenantInfo, FrontApi.ApiError>,
                  clock: nat -> int, error0: Option<FormError>)
    requires attempt <= MaxRetryAttempts
    ensures var r := Run(form, attempt, respond, clock, error0);
            var request := AttemptRequest(form, attempt, clock);
            && (Validate(form).Some? ==> r == Attempted([], None, Some(Failed(Validate(form).value))))
            && (Validate(form).None? && respond(request).Ok? ==> r == Attempted([request], Some(respond(request).value), error0))
            && (Validate(form).None? && respond(request).Err? && attempt < MaxRetryAttempts && IsConflict(respond(request).error) ==>
                  var rest := Run(form, attempt + 1, respond, clock, Some(Retrying(attempt)));
                  r == Attempted([request] + rest.requests, rest.created, rest.error))
            && (Validate(form).None? && respond(request).Err? && !(attempt < MaxRetryAttempts && IsConflict(respond(request).error)) ==>
                  r == Attempted([request], None, Some(FinalError(respond(request).error))))
  {
  }

  /** The request attempt number `attempt` sends, if the form is valid. */
  function AttemptRequest(form: FormData, attempt: nat, clock: nat -> int): CreateRequest {
    RequestFor(form, AttemptSlug(BaseSlug(form), attempt, clock(attempt)))
  }

  /** The form component's state. */
  class CreateTenantFormState {
    var formData: FormData
    var loading: bool
    var error: Option<FormError>
    var retryAttempts: int

    constructor(formData: FormData)
      ensures this.formData == formData && !loading && error.None? && retryAttempts == 0
    {
      this.formData := formData;
      loading := false;
      error := None;
      retryAttempts := 0;
    }

    /** `attemptCreateTenant(attempt)`. */
    method AttemptCreateTenant(attempt: nat, respond: CreateRequest -> Result<TenantInfo, FrontApi.ApiError>, clock: nat -> int)
      returns (requests: seq<CreateRequest>, created: Option<TenantInfo>)
      requires attempt <= MaxRetryAttempts
      modifies this
      decreases MaxRetryAttempts - attempt
      ensures Attempted(requests, created, error) == Run(formData, attempt, respond, clock, old(error))
      ensures retryAttempts == 0
      ensures formData == old(formData) && loading == old(loading)
    {
      RunUnfold(formData, attempt, respond, clock, error);
      var baseSlug := if formData.slug != "" then formData.slug else SlugFromName(formData.tenantName);
      var slug := if attempt > 0 then baseSlug + "-" + IntToString(clock(attempt)) else baseSlug;
      assert RequestFor(formData, slug) == AttemptRequest(formData, attempt, clock);
      if formData.adminEmail == "" || formData.adminPassword == "" || |formData.adminPassword| < 8 {
        // the validation error is caught by the same handler, which shows its message
        error := Some(Failed(if formData.adminEmail == "" then EmailRequiredMessage else PasswordTooShortMessage));
        retryAttempts := 0;
        return [], None;
      }
      var request := RequestFor(formData, slug);
      requests := [request];
      match respond(request) {
        case Ok(tenant) =>
          retryAttempts := 0;
          created := Some(tenant);
        case Err(e) =>
          var isConflictError := e.status == Some(409) || Contains(e.message, "already exists");
          assert isConflictError == IsConflict(e);
          if attempt < MaxRetryAttempts && isConflictError {
            error := Some(Retrying(attempt));
            retryAttempts := attempt + 1;
            var more;
            more, created := AttemptCreateTenant(attempt + 1, respond, clock);
            requests := requests + more;
          } else {
            error := Some(FinalError(e));
            retryAttempts := 0;
            created := None;
          }
      }
    }

    /** `handleSubmit`: the loading flag is raised for the whole run and the error cleared first. */
    method HandleSubmit(respond: CreateRequest -> Result<TenantInfo, FrontApi.ApiError>, clock: nat -> int)
      returns (requests: seq<CreateRequest>, created: Option<TenantInfo>)
      modifies this
      ensures Attempted(requests, created, error) == Run(formData, 0, respond, clock, None)
      ensures !loading && retryAttempts == 0 && formData == old(formData)
    {
      loading := true;
      error := None;
      requests, created := AttemptCreateTenant(0, respond, clock);
      loading := false;
    }
  }

  // ----------------------------------------------------------------- lemmas

  lemma {:induction false} CollapseHead(s: string)
    ensures |Collapse(s)| <= |s|
    ensures |s| > 0 ==> |Collapse(s)| > 0 && Collapse(s)[0] == s[0]
  {
    if |s| > 1 {
      CollapseHead(s[1..]);
    }
  }

  lemma {:induction false} CollapseShape(s: string)
    requires SlugChars(s)
    ensures SlugChars(Collapse(s)) && NoDoubleDash(Collapse(s))
  {
    if |s| > 1 {
      CollapseShape(s[1..]);
      CollapseHead(s[1..]);
    }
  }

  lemma StripEdgesShape(s: string)
    requires SlugChars(s) && NoDoubleDash(s)
    ensures SlugChars(StripEdges(s)) && NoDoubleDash(StripEdges(s)) && NoEdgeDash(StripEdges(s))
  {
    var a := if |s| > 0 && s[0] == '-' then s[1..] else s;
    assert SlugChars(a) && NoDoubleDash(a);
  }

  /** A derived slug uses only [a-z0-9-], has no run of '-', and neither starts nor ends with '-'. */
  lemma SlugFromNameShape(name: string)
    ensures var s := SlugFromName(name); SlugChars(s) && NoDoubleDash(s) && NoEdgeDash(s)
  {
    CollapseShape(Sanitize(name));
    StripEdgesShape(Collapse(Sanitize(name)));
  }

  /** Collapsing leaves a text without runs of '-' as it is. */
  lemma {:induction false} CollapseKeeps(s: string)
    requires NoDoubleDash(s)
    ensures Collapse(s) == s
  {
    if |s| > 1 {
      CollapseKeeps(s[1..]);
    }
  }

  /** A name that is already a well-formed slug is kept as it is. */
  lemma SlugFromSlug(name: string)
    requires SlugChars(name) && NoDoubleDash(name) && NoEdgeDash(name)
    ensures SlugFromName(name) == name
  {
    SanitizeKeeps(name);
    CollapseKeeps(name);
    assert StripEdges(name) == name;
  }

  /** Sanitizing leaves a text of [a-z0-9-] as it is. */
  lemma SanitizeKeeps(s: string)
    requires SlugChars(s)
    ensures Sanitize(s) == s
  {
    forall i | 0 <= i < |s|
      ensures Sanitize(s)[i] == s[i]
    {
      assert LowerChar(s[i]) == s[i];
    }
  }

  lemma {:induction false} NatDigits(n: nat)
    ensures |NatToString(n)| > 0 && forall i :: 0 <= i < |NatToString(n)| ==> IsDigit(NatToString(n)[i])
  {
    if n >= 10 {
      NatDigits(n / 10);
    }
  }

  /** A retry slug keeps the slug alphabet when the base does (timestamps are non-negative). */
  lemma RetrySlugChars(base: string, attempt: nat, now: nat)
    requires SlugChars(base)
    ensures SlugChars(AttemptSlug(base, attempt, now))
    ensures attempt == 0 <==> AttemptSlug(base, attempt, now) == base
  {
    NatDigits(now);
  }

  /** At most three requests in all, the k-th being the request of attempt k. */
  lemma {:induction false} RunRequests(form: FormData, attempt: nat, respond: CreateRequest -> Result<TenantInfo, FrontApi.ApiError>,
                                       clock: nat -> int, error0: Option<FormError>)
    requires attempt <= MaxRetryAttempts
    decreases MaxRetryAttempts - attempt
    ensures var r := Run(form, attempt, respond, clock, error0);
            |r.requests| <= MaxRetryAttempts + 1 - attempt
            && forall k :: 0 <= k < |r.requests| ==> r.requests[k] == AttemptRequest(form, attempt + k, clock)
  {
    var r := Run(form, attempt, respond, clock, error0);
    var outcome := respond(AttemptRequest(form, attempt, clock));
    RunUnfold(form, attempt, respond, clock, error0);
    if Validate(form).None? && outcome.Err? && attempt < MaxRetryAttempts && IsConflict(outcome.error) {
      var message := Some(Retrying(attempt));
      var rest := Run(form, attempt + 1, respond, clock, message);
      RunRequests(form, attempt + 1, respond, clock, message);
      assert r.requests == [AttemptRequest(form, attempt, clock)] + rest.requests;
      forall k | 1 <= k < |r.requests|
        ensures r.requests[k] == rest.requests[k - 1]
      {
      }
    }
  }

  /** Every request but the last was answered by a conflict. */
  lemma {:induction false} RunRetriesOnConflict(form: FormData, attempt: nat, respond: CreateRequest -> Result<TenantInfo, FrontApi.ApiError>,
                                                clock: nat -> int, error0: Option<FormError>)
    requires attempt <= MaxRetryAttempts
    decreases MaxRetryAttempts - attempt
    ensures var r := Run(form, attempt, respond, clock, error0);
            forall k :: 0 <= k < |r.requests| - 1 ==> respond(r.requests[k]).Err? && IsConflict(respond(r.requests[k]).error)
  {
    var r := Run(form, attempt, respond, clock, error0);
    var outcome := respond(AttemptRequest(form, attempt, clock));
    RunUnfold(form, attempt, respond, clock, error0);
    if Validate(form).None? && outcome.Err? && attempt < MaxRetryAttempts && IsConflict(outcome.error) {
      var message := Some(Retrying(attempt));
      var rest := Run(form, attempt + 1, respond, clock, message);
      RunRetriesOnConflict(form, attempt + 1, respond, clock, message);
      assert r.requests == [AttemptRequest(form, attempt, clock)] + rest.requests;
      forall k | 0 <= k < |r.requests| - 1
        ensures respond(r.requests[k]).Err? && IsConflict(respond(r.requests[k]).error)
      {
        if k > 0 {
          assert r.requests[k] == rest.requests[k - 1];
        }
      }
    }
  }

  /** The tenant handed to `onSuccess` is the answer to the last request. */
  lemma {:induction false} RunCreatedIsLastAnswer(form: FormData, attempt: nat, respond: CreateRequest -> Result<TenantInfo, FrontApi.ApiError>,
                                                  clock: nat -> int, error0: Option<FormError>)
    requires attempt <= MaxRetryAttempts
    decreases MaxRetryAttempts - attempt
    ensures var r := Run(form, attempt, respond, clock, error0);
            r.created.Some? ==> |r.requests| > 0 && respond(r.requests[|r.requests| - 1]) == Ok(r.created.value)
  {
    var r := Run(form, attempt, respond, clock, error0);
    var outcome := respond(AttemptRequest(form, attempt, clock));
    RunUnfold(form, attempt, respond, clock, error0);
    if Validate(form).None? && outcome.Err? && attempt < MaxRetryAttempts && IsConflict(outcome.error) {
      var message := Some(Retrying(attempt));
      var rest := Run(form, attempt + 1, respond, clock, message);
      RunCreatedIsLastAnswer(form, attempt + 1, respond, clock, message);
    }
  }

  /** A text lacking a character of `sub` does not contain `sub`. */
  lemma {:induction false} MissingCharNotContained(s: string, sub: string, c: char)
    requires c in sub && c !in s
    ensures !Contains(s, sub)
  {
    if |s| > 0 {
      MissingCharNotContained(s[1..], sub, c);
    }
  }

  /** The validation messages are never taken for a conflict, so the catch shows them as they are. */
  lemma ValidationNotConflict(msg: string)
    requires msg == EmailRequiredMessage || msg == PasswordTooShortMessage
    ensures !IsConflict(FrontApi.ApiError(msg, None, None))
    ensures FinalError(FrontApi.ApiError(msg, None, None)) == Failed(msg)
  {
    ValidationMessagesLackX(msg);
    MissingCharNotContained(msg, "already exists", 'x');
  }

  /** Neither validation message has the letter 'x' that "already exists" has. */
  lemma ValidationMessagesLackX(msg: string)
    requires msg == EmailRequiredMessage || msg == PasswordTooShortMessage
    ensures 'x' !in msg && 'x' in "already exists"
  {
    assert "already exists"[9] == 'x';
  }

  /** An invalid form sends nothing and shows the validation message. */
  lemma InvalidFormSendsNothing(form: FormData, attempt: nat, respond: CreateRequest -> Result<TenantInfo, FrontApi.ApiError>,
                                clock: nat -> int, error0: Option<FormError>)
    requires attempt <= MaxRetryAttempts && Validate(form).Some?
    ensures Run(form, attempt, respond, clock, error0) == Attempted([], None, Some(Failed(Validate(form).value)))
  {
  }

  /** A failure that is not a conflict ends the run at once with the server's message (or the
      fallback); a conflict on the last allowed attempt ends it with the conflict message. */
  lemma FailureEndsRun(form: FormData, attempt: nat, respond: CreateRequest -> Result<TenantInfo, FrontApi.ApiError>,
                       clock: nat -> int, error0: Option<FormError>)
    requires attempt <= MaxRetryAttempts && Validate(form).None?
    requires var e := respond(AttemptRequest(form, attempt, clock));
             e.Err? && (!IsConflict(e.error) || attempt == MaxRetryAttempts)
    ensures var e := respond(AttemptRequest(form, attempt, clock)).error;
            var r := Run(form, attempt, respond, clock, error0);
            |r.requests| == 1 && r.created.None? && r.error == Some(FinalError(e))
            && (!IsConflict(e) && e.message != "" ==> r.error == Some(Failed(e.message)))
  {
  }

  /** The admin email fallback is never used: the form refuses to send without an email. */
  lemma EmailAlwaysGiven(form: FormData, attempt: nat, respond: CreateRequest -> Result<TenantInfo, FrontApi.ApiError>,
                         clock: nat -> int, error0: Option<FormError>)
    requires attempt <= MaxRetryAttempts
    ensures var r := Run(form, attempt, respond, clock, error0);
            forall i :: 0 <= i < |r.requests| ==> r.requests[i].email == form.adminEmail && |r.requests[i].password| >= 8
  {
    RunRequests(form, attempt, respond, clock, error0);
    if Validate(form).Some? {
      InvalidFormSendsNothing(form, attempt, respond, clock, error0);
    }
  }

  /** Every non-empty slug the form sends, derived or with a retry suffix, passes the tenant
      service's slug pattern. */
  lemma SentSlugAccepted(name: string, attempt: nat, now: nat)
    requires SlugFromName(name) != ""
    ensures TenantNaming.MatchesSlugPattern(AttemptSlug(SlugFromName(name), attempt, now))
  {
    SlugFromNameShape(name);
    RetrySlugChars(SlugFromName(name), attempt, now);
  }
}
