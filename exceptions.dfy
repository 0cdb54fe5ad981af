/** The tenant service's exceptions and how `GlobalExceptionHandler` turns each into an HTTP
    status and a JSON body. */
module Exceptions {
  import opened Common

  datatype OnboardingStep =
    | KeycloakOrgCreation | DatabaseCreation | DatabaseMigration | UserCreation | UserOrgAssignment | RoleAssignment

  function StepName(step: OnboardingStep): string {
    match step
    case KeycloakOrgCreation => "KEYCLOAK_ORG_CREATION"
    case DatabaseCreation => "DATABASE_CREATION"
    case DatabaseMigration => "DATABASE_MIGRATION"
    case UserCreation => "USER_CREATION"
    case UserOrgAssignment => "USER_ORG_ASSIGNMENT"
    case RoleAssignment => "ROLE_ASSIGNMENT"
  }

  /** A thrown exception, by the handler that catches it. Messages are optional, as Java's
      `getMessage()` may be null. */
  datatype ServiceException =
    | Validation(fieldErrors: seq<FieldError>)
    | IllegalArgument(message: Option<string>)
    | IllegalState(message: Option<string>)
    | OrganizationAlreadyExists(message: Option<string>)
    | UserAlreadyExists(message: Option<string>)
    | Keycloak(message: Option<string>)
    | ResponseStatus(status: int, reason: Option<string>)
    | TenantOnboarding(tenantAlias: string, failedStep: OnboardingStep, detail: string)
    | Unexpected(message: Option<string>)

  datatype FieldError = FieldError(field: string, message: string)

  datatype BodyValue = Text(text: Option<string>) | Number(n: int) | Fields(fields: map<string, string>)

  datatype Response = Response(status: int, body: map<string, BodyValue>)

  /** Java string concatenation renders null as "null". */
  function Str(o: Option<string>): string {
    if o.Some? then o.value else "null"
  }

  /** The message a `TenantOnboardingException` is built with. */
  function OnboardingMessage(tenantAlias: string, step: OnboardingStep, detail: string): string {
    "Tenant onboarding failed at step '" + StepName(step) + "' for tenant '" + tenantAlias + "': " + detail
  }

  /** `getMessage()` of the exceptions a service catches and inspects. A status exception's
      message is reduced to its reason, and a validation failure carries none of its own. */
  function MessageOf(ex: ServiceException): Option<string> {
    match ex
    case Validation(_) => None
    case IllegalArgument(m) => m
    case IllegalState(m) => m
    case OrganizationAlreadyExists(m) => m
    case UserAlreadyExists(m) => m
    case Keycloak(m) => m
    case ResponseStatus(_, reason) => reason
    case TenantOnboarding(alias, step, detail) => Some(OnboardingMessage(alias, step, detail))
    case Unexpected(m) => m
  }

  /** The field → message map, later errors on a field replacing earlier ones. */
  function ErrorMap(errors: seq<FieldError>): (m: map<string, string>)
    ensures forall e :: e in errors ==> e.field in m
    ensures forall f :: f in m ==> exists e :: e in errors && e.field == f
  {
    if errors == [] then map[]
    else
      var last := errors[|errors| - 1];
      ErrorMap(errors[..|errors| - 1])[last.field := last.message]
  }

  /** The status each handler answers with. */
  function StatusOf(ex: ServiceException): int {
    match ex
    case Validation(_) => 400
    case IllegalArgument(_) => 400
    case IllegalState(m) => if m.Some? && Contains(m.value, "Tenant ID") then 403 else 400
    case OrganizationAlreadyExists(_) => 409
    case UserAlreadyExists(_) => 409
    case Keycloak(_) => 500
    case ResponseStatus(status, _) => status
    case TenantOnboarding(_, _, _) => 500
    case Unexpected(_) => 500
  }

  /** The handler's response. */
  function Handle(ex: ServiceException): (r: Response)
    ensures r.status == StatusOf(ex)
  {
    match ex
    case Validation(errors) =>
      Response(400, map["message" := Text(Some("Validation failed")), "errors" := Fields(ErrorMap(errors)), "status" := Number(400)])
    case IllegalArgument(m) => Response(400, map["message" := Text(m), "status" := Number(400)])
    case IllegalState(m) =>
      var status := if m.Some? && Contains(m.value, "Tenant ID") then 403 else 400;
      Response(status, map["message" := Text(m), "status" := Number(status)])
    case OrganizationAlreadyExists(m) => Response(409, map["message" := Text(m), "status" := Number(409)])
    case UserAlreadyExists(m) => Response(409, map["message" := Text(m), "status" := Number(409)])
    case Keycloak(m) =>
      Response(500, map["message" := Text(Some("Keycloak operation failed: " + Str(m))), "status" := Number(500)])
    case ResponseStatus(status, reason) => Response(status, map["message" := Text(reason), "status" := Number(status)])
    case TenantOnboarding(alias, step, detail) =>
      Response(500, map["message" := Text(Some(OnboardingMessage(alias, step, detail))), "tenantAlias" := Text(Some(alias)),
                        "failedStep" := Text(Some(StepName(step))), "status" := Number(500)])
    case Unexpected(m) =>
      Response(500, map["message" := Text(Some("An unexpected error occurred: " + Str(m))), "status" := Number(500)])
  }

  // ----------------------------------------------------------------- lemmas

  /** Every body carries a "status" field equal to the HTTP status, and a "message" field. */
  lemma BodyStatusMatches(ex: ServiceException)
    ensures "status" in Handle(ex).body && Handle(ex).body["status"] == Number(Handle(ex).status)
    ensures "message" in Handle(ex).body
  {
  }

  /** Client errors: bad arguments and validation give 400; an illegal state gives 403 exactly
      when its message mentions "Tenant ID", else 400; duplicates give 409. */
  lemma ClientErrors(ex: ServiceException)
    ensures ex.Validation? || ex.IllegalArgument? ==> Handle(ex).status == 400
    ensures ex.IllegalState? ==>
              (Handle(ex).status == 403 <==> ex.message.Some? && Contains(ex.message.value, "Tenant ID"))
              && (Handle(ex).status == 400 || Handle(ex).status == 403)
    ensures ex.OrganizationAlreadyExists? || ex.UserAlreadyExists? ==> Handle(ex).status == 409
  {
  }

  /** A status exception keeps its own status and reason; onboarding, Keycloak and unexpected
      failures give 500. */
  lemma ServerErrors(ex: ServiceException)
    ensures ex.ResponseStatus? ==> Handle(ex).status == ex.status && Handle(ex).body["message"] == Text(ex.reason)
    ensures ex.TenantOnboarding? || ex.Keycloak? || ex.Unexpected? ==> Handle(ex).status == 500
    ensures ex.TenantOnboarding? ==> Handle(ex).body["failedStep"] == Text(Some(StepName(ex.failedStep)))
  {
  }

  /** A field reported several times keeps its last message. */
  lemma {:induction false} LastFieldErrorWins(errors: seq<FieldError>, k: nat)
    requires k < |errors|
    requires forall j :: k < j < |errors| ==> errors[j].field != errors[k].field
    ensures ErrorMap(errors)[errors[k].field] == errors[k].message
  {
    if k < |errors| - 1 {
      LastFieldErrorWins(errors[..|errors| - 1], k);
    }
  }
}
