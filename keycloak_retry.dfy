/** The Keycloak client's organization calls (`KeycloakClientWrapper`): creating an
    organization and reading its id back, the immediate member add made right after
    creation, and the long assignment retry loop with its retryability test and
    capped backoff. HTTP calls, token fetches and `Thread.sleep` are not performed:
    each attempt's outcome is a parameter, and the waits are returned as a list. */
module KeycloakRetry {
  import opened Common
  import opened Exceptions

  // ------------------------------------------------------------------ responses

  /** What Jackson's `readTree` makes of a response body: a JSON object (its fields
      read with `asText()`) or text that is not JSON. */
  datatype Parsed = JsonObject(fields: map<string, string>) | NotJson

  /** A Keycloak answer: status, body (absent for `null`) and the body as parsed. */
  datatype HttpResponse = HttpResponse(status: int, body: Option<string>, parsed: Parsed)

  // ---------------------------------------------------------- retryable errors

  /** The phrase test applied to an error text after lower-casing it. */
  predicate MentionsMissingUser(text: string) {
    var lower := ToLower(text);
    Contains(lower, "user does not exist") || Contains(lower, "user not found")
      || Contains(lower, "not found") || Contains(lower, "invalid user")
  }

  /** `isRetryableAssignmentError`: 400 always; otherwise a body's error text decides
      (the `errorMessage` field of a JSON body, the whole body when it is not JSON); a
      JSON body without `errorMessage`, or no body, leaves it to the 5xx test. */
  predicate IsRetryableAssignmentError(status: int, body: Option<string>, parsed: Parsed)
    ensures status == 400 ==> IsRetryableAssignmentError(status, body, parsed)
    ensures IsRetryableAssignmentError(status, body, parsed) && status != 400 && !(500 <= status < 600) ==>
              body.Some? && !(parsed.JsonObject? && "errorMessage" !in parsed.fields)
  {
    if status == 400 then true
    else if body.Some? && parsed.JsonObject? && "errorMessage" in parsed.fields then
      MentionsMissingUser(parsed.fields["errorMessage"])
    else if body.Some? && parsed.NotJson? then MentionsMissingUser(body.value)
    else 500 <= status < 600
  }

  predicate IsRetryable(r: HttpResponse) {
    IsRetryableAssignmentError(r.status, r.body, r.parsed)
  }

  /** An occurrence of `a + b` contains an occurrence of `b`. */
  lemma {:induction false} ContainsSuffix(s: string, a: string, b: string)
    requires Contains(s, a + b)
    ensures Contains(s, b)
  {
    if a + b <= s {
      assert s[|a|..|a| + |b|] == (a + b)[|a|..];
      ContainsAt(s, b, |a|);
    } else {
      ContainsSuffix(s[1..], a, b);
      ContainsTail(s, b);
    }
  }

  /** An occurrence in the tail is an occurrence. */
  lemma ContainsTail(s: string, b: string)
    requires |s| > 0 && Contains(s[1..], b)
    ensures Contains(s, b)
  {
  }

  /** "user not found" is subsumed by "not found": three phrases decide the test. */
  lemma MentionsMissingUserThreePhrases(text: string)
    ensures MentionsMissingUser(text) <==>
      (Contains(ToLower(text), "user does not exist") || Contains(ToLower(text), "not found")
        || Contains(ToLower(text), "invalid user"))
  {
    var lower := ToLower(text);
    if Contains(lower, "user not found") {
      assert "user not found" == "user " + "not found";
      ContainsSuffix(lower, "user ", "not found");
    }
  }

  /** Status 400 is retryable whatever the body says. */
  lemma BadRequestAlwaysRetryable(body: Option<string>, parsed: Parsed)
    ensures IsRetryableAssignmentError(400, body, parsed)
  {
  }

  /** Every phrase has an 'n': an error text without one is never a missing user. */
  lemma WithoutLetterNNoPhrase(text: string)
    requires 'n' !in ToLower(text)
    ensures !MentionsMissingUser(text)
  {
    var lower := ToLower(text);
    NotContainsChar(lower, "not found", 'n', 0);
    NotContainsChar(lower, "user not found", 'n', 5);
    NotContainsChar(lower, "user does not exist", 'n', 10);
    NotContainsChar(lower, "invalid user", 'n', 1);
  }

  /** A JSON `errorMessage` overrides the status: a 503 whose message names no missing
      user is not retried. */
  lemma ServerErrorWithOtherMessageNotRetried(message: string)
    requires message == "server error"
    ensures !IsRetryableAssignmentError(503, Some("{}"), JsonObject(map["errorMessage" := message]))
  {
    LowerUnchanged(message);
    WithoutLetterNNoPhrase(message);
  }

  /** ... and a 409 whose message says "user not found" is. */
  lemma ConflictWithMissingUserRetried(message: string)
    requires message == "user not found"
    ensures IsRetryableAssignmentError(409, Some("{}"), JsonObject(map["errorMessage" := message]))
  {
    LowerUnchanged(message);
    ContainsAt(message, "not found", 5);
  }

  /** Lower-casing leaves a text without capitals as it is. */
  lemma LowerUnchanged(s: string)
    requires IsLowerCase(s)
    ensures ToLower(s) == s
  {
  }

  /** With no body, or a JSON body without `errorMessage`, exactly the 5xx statuses
      (and 400) are retried. */
  lemma WithoutErrorTextOnlyServerErrorsRetry(status: int, body: Option<string>, parsed: Parsed)
    requires body.None? || (parsed.JsonObject? && "errorMessage" !in parsed.fields)
    ensures IsRetryableAssignmentError(status, body, parsed) <==> (status == 400 || 500 <= status < 600)
  {
  }

  /** A needle holding a character that never occurs in the text is not contained in it. */
  lemma {:induction false} NotContainsChar(s: string, sub: string, c: char, k: nat)
    requires k < |sub| && sub[k] == c && c !in s
    ensures !Contains(s, sub)
  {
    if |s| > 0 {
      NotContainsChar(s[1..], sub, c, k);
    }
  }

  // ------------------------------------------------------------------- backoff

  const MaxAssignAttempts := 15
  const BaseDelayMs := 2000
  const MaxDelayMs := 10000

  /** `Math.min(baseDelayMs * (attempt + 1), 10000)`: the wait after a failed attempt. */
  function Backoff(attempt: nat): (d: nat)
    ensures BaseDelayMs <= d <= MaxDelayMs
    ensures d == BaseDelayMs * (attempt + 1) || d == MaxDelayMs
  {
    if BaseDelayMs * (attempt + 1) < MaxDelayMs then BaseDelayMs * (attempt + 1) else MaxDelayMs
  }

  /** Waits grow with the attempt number and reach the cap from the fifth attempt on. */
  lemma BackoffGrowsToCap(i: nat, j: nat)
    requires i <= j
    ensures Backoff(i) <= Backoff(j)
    ensures j >= 4 ==> Backoff(j) == MaxDelayMs
    ensures i < 4 ==> Backoff(i) == BaseDelayMs * (i + 1)
  {
  }

  /** Sum of a list of waits. */
  function Total(delays: seq<nat>): nat {
    if delays == [] then 0 else delays[0] + Total(delays[1..])
  }

  /** The sum of the first `n` waits, `Backoff(from) + ... + Backoff(from + n - 1)`. */
  function BackoffTotal(from: nat, n: nat): nat
    decreases n
  {
    if n == 0 then 0 else Backoff(from) + BackoffTotal(from + 1, n - 1)
  }

  /** The schedule of waits from attempt `from` on adds up to `BackoffTotal`. */
  lemma {:induction false} TotalOfSchedule(delays: seq<nat>, from: nat)
    requires forall i :: 0 <= i < |delays| ==> delays[i] == Backoff(from + i)
    ensures Total(delays) == BackoffTotal(from, |delays|)
  {
    if delays != [] {
      TotalOfSchedule(delays[1..], from + 1);
    }
  }

  /** More waits never add up to less. */
  lemma {:induction false} BackoffTotalGrows(from: nat, n: nat, m: nat)
    requires n <= m
    ensures BackoffTotal(from, n) <= BackoffTotal(from, m)
    decreases m
  {
    if n > 0 {
      BackoffTotalGrows(from + 1, n - 1, m - 1);
    } else if m > 0 {
      BackoffTotalGrows(from + 1, 0, m - 1);
    }
  }

  /** At most fourteen waits, 2 + 4 + 6 + 8 + 10 * 10 seconds. */
  lemma FullScheduleTotal()
    ensures BackoffTotal(0, MaxAssignAttempts - 1) == 120000
  {
    assert BackoffTotal(4, 10) == 100000 by { CappedTotal(4, 10); }
  }

  lemma {:induction false} CappedTotal(from: nat, n: nat)
    requires from >= 4
    ensures BackoffTotal(from, n) == MaxDelayMs * n
    decreases n
  {
    if n > 0 {
      CappedTotal(from + 1, n - 1);
    }
  }

  // ------------------------------------------------------ assignment retry loop

  /** The result of `verifyUserExistsComprehensively`: found, not found, or it threw. */
  datatype Check = Confirmed | Denied | CheckFailed

  /** What one pass of the assignment loop ran into: an HTTP answer, a
      `KeycloakException` (e.g. from refreshing the admin token), or any other exception. */
  datatype AttemptOutcome =
    | Answered(response: HttpResponse)
    | KeycloakFailure
    | OtherFailure

  /** How one attempt ends: the loop stops (with or without an assignment) or waits and
      tries again. */
  datatype Step = Stop(done: bool) | Retry

  predicate Succeeded(r: HttpResponse) {
    200 <= r.status < 300
  }

  /** One pass of the loop body at `attempt`, given the re-check made before a retry. */
  function AssignStep(attempt: nat, outcome: AttemptOutcome, recheck: Check): (s: Step)
    ensures s.Retry? ==> attempt < MaxAssignAttempts - 1
    ensures s == Stop(true) <==> outcome.Answered? && Succeeded(outcome.response)
  {
    match outcome
    case Answered(r) =>
      if Succeeded(r) then Stop(true)
      else if IsRetryable(r) && attempt < MaxAssignAttempts - 1 then
        // a user that vanished is a KeycloakException, rethrown and then swallowed;
        // a re-check that throws is retried like any other exception
        if recheck == Denied then Stop(false) else Retry
      else Stop(false)
    case KeycloakFailure => Stop(false)
    case OtherFailure => if attempt < MaxAssignAttempts - 1 then Retry else Stop(false)
  }

  /** What the caller can observe of `assignUserToOrganization`: whether the user ended
      up assigned, how many passes the loop made (a pass whose admin-token refresh fails sends
      no POST), and the waits between them. */
  datatype AssignRun = AssignRun(joined: bool, attempts: nat, delays: seq<nat>)

  /** The loop from `attempt` on. */
  function AssignFrom(attempt: nat, outcome: nat -> AttemptOutcome, recheck: nat -> Check): AssignRun
    requires attempt < MaxAssignAttempts
    decreases MaxAssignAttempts - attempt
  {
    match AssignStep(attempt, outcome(attempt), recheck(attempt))
    case Stop(done) => AssignRun(done, 1, [])
    case Retry =>
      var rest := AssignFrom(attempt + 1, outcome, recheck);
      AssignRun(rest.joined, rest.attempts + 1, [Backoff(attempt)] + rest.delays)
  }

  /** The whole call: no attempt at all unless the user is first confirmed to exist. */
  function Assignment(initial: Check, outcome: nat -> AttemptOutcome, recheck: nat -> Check): AssignRun {
    if initial != Confirmed then AssignRun(false, 0, []) else AssignFrom(0, outcome, recheck)
  }

  /** `assignUserToOrganization`. The run it returns has no failure case: every way the
      Java method can leave its loop (success, a non-retryable status, the last attempt,
      a vanished user, any exception) ends in a normal return, and the fall-through after
      the loop is never reached. */
  method AssignUserToOrganization(initial: Check, outcome: nat -> AttemptOutcome, recheck: nat -> Check)
    returns (run: AssignRun)
    ensures run == Assignment(initial, outcome, recheck)
  {
    if initial != Confirmed {
      return AssignRun(false, 0, []);
    }
    ghost var whole := AssignFrom(0, outcome, recheck);
    var attempt := 0;
    var delays: seq<nat> := [];
    while true
      invariant 0 <= attempt < MaxAssignAttempts
      invariant |delays| == attempt
      invariant whole == After(delays, AssignFrom(attempt, outcome, recheck))
      decreases MaxAssignAttempts - attempt
    {
      var step := AssignStep(attempt, outcome(attempt), recheck(attempt));
      if step.Stop? {
        AfterStop(delays, attempt, outcome, recheck);
        return AssignRun(step.done, attempt + 1, delays);
      }
      AfterRetry(delays, attempt, outcome, recheck);
      delays := delays + [Backoff(attempt)];
      attempt := attempt + 1;
    }
  }

  /** A run preceded by the waits of the attempts made before it. */
  function After(delays: seq<nat>, run: AssignRun): AssignRun {
    AssignRun(run.joined, |delays| + run.attempts, delays + run.delays)
  }

  /** An attempt that stops the loop ends the run after it. */
  lemma AfterStop(delays: seq<nat>, attempt: nat, outcome: nat -> AttemptOutcome, recheck: nat -> Check)
    requires attempt < MaxAssignAttempts
    requires AssignStep(attempt, outcome(attempt), recheck(attempt)).Stop?
    ensures After(delays, AssignFrom(attempt, outcome, recheck))
      == AssignRun(AssignStep(attempt, outcome(attempt), recheck(attempt)).done, |delays| + 1, delays)
  {
    assert delays + [] == delays;
  }

  /** An attempt that retries moves its wait from the rest of the run to the waits before it. */
  lemma AfterRetry(delays: seq<nat>, attempt: nat, outcome: nat -> AttemptOutcome, recheck: nat -> Check)
    requires attempt < MaxAssignAttempts
    requires AssignStep(attempt, outcome(attempt), recheck(attempt)).Retry?
    ensures attempt + 1 < MaxAssignAttempts
    ensures After(delays, AssignFrom(attempt, outcome, recheck))
      == After(delays + [Backoff(attempt)], AssignFrom(attempt + 1, outcome, recheck))
  {
    var rest := AssignFrom(attempt + 1, outcome, recheck);
    assert delays + ([Backoff(attempt)] + rest.delays) == (delays + [Backoff(attempt)]) + rest.delays;
  }

  /** The run from `attempt` on: at least one and at most the remaining attempts, one wait
      between consecutive attempts, each the capped backoff for its attempt. */
  lemma {:induction false} AssignFromShape(attempt: nat, outcome: nat -> AttemptOutcome, recheck: nat -> Check)
    requires attempt < MaxAssignAttempts
    ensures var run := AssignFrom(attempt, outcome, recheck);
      1 <= run.attempts <= MaxAssignAttempts - attempt
      && |run.delays| == run.attempts - 1
      && (forall i :: 0 <= i < |run.delays| ==> run.delays[i] == Backoff(attempt + i))
    decreases MaxAssignAttempts - attempt
  {
    if AssignStep(attempt, outcome(attempt), recheck(attempt)).Retry? {
      AssignFromShape(attempt + 1, outcome, recheck);
    }
  }

  /** The run ends assigned exactly when its last attempt got a 2xx answer. */
  lemma {:induction false} AssignedIffLastSucceeded(attempt: nat, outcome: nat -> AttemptOutcome, recheck: nat -> Check)
    requires attempt < MaxAssignAttempts
    ensures var run := AssignFrom(attempt, outcome, recheck);
      run.attempts >= 1
      && (run.joined <==>
        var last := outcome(attempt + run.attempts - 1); last.Answered? && Succeeded(last.response))
    decreases MaxAssignAttempts - attempt
  {
    var step := AssignStep(attempt, outcome(attempt), recheck(attempt));
    AssignFromUnfold(attempt, outcome, recheck);
    if step.Retry? {
      AssignedIffLastSucceeded(attempt + 1, outcome, recheck);
    }
  }

  /** One step of `AssignFrom`: a stop ends the run, a retry adds one attempt and its wait. */
  lemma AssignFromUnfold(attempt: nat, outcome: nat -> AttemptOutcome, recheck: nat -> Check)
    requires attempt < MaxAssignAttempts
    ensures var step := AssignStep(attempt, outcome(attempt), recheck(attempt));
      (step.Stop? ==> AssignFrom(attempt, outcome, recheck) == AssignRun(step.done, 1, []))
      && (step.Retry? ==>
            attempt + 1 < MaxAssignAttempts
            && AssignFrom(attempt, outcome, recheck).joined == AssignFrom(attempt + 1, outcome, recheck).joined
            && AssignFrom(attempt, outcome, recheck).attempts == AssignFrom(attempt + 1, outcome, recheck).attempts + 1)
  {
  }

  /** The whole call makes at most fifteen attempts and waits at most two minutes between
      them, with the waits 2, 4, 6, 8 and then 10 seconds. */
  lemma AssignmentBounds(initial: Check, outcome: nat -> AttemptOutcome, recheck: nat -> Check)
    ensures var run := Assignment(initial, outcome, recheck);
      run.attempts <= MaxAssignAttempts
      && (forall i :: 0 <= i < |run.delays| ==> run.delays[i] == Backoff(i))
      && Total(run.delays) <= 120000
      && (run.attempts == 0 <==> initial != Confirmed)
  {
    var run := Assignment(initial, outcome, recheck);
    if initial == Confirmed {
      AssignFromShape(0, outcome, recheck);
      assert forall i :: 0 <= i < |run.delays| ==> run.delays[i] == Backoff(0 + i);
      TotalOfSchedule(run.delays, 0);
      BackoffTotalGrows(0, |run.delays|, MaxAssignAttempts - 1);
      FullScheduleTotal();
    }
  }

  /** A user that could not be confirmed up front is never posted, and the call still
      returns normally. */
  lemma UnverifiedUserIsSkipped(initial: Check, outcome: nat -> AttemptOutcome, recheck: nat -> Check)
    requires initial != Confirmed
    ensures Assignment(initial, outcome, recheck) == AssignRun(false, 0, [])
  {
  }

  // ---------------------------------------------------------- immediate add loop

  const MaxImmediateAttempts := 5
  const ImmediateFailurePrefix := "Failed to add user to organization after 5 attempts with extended delays: "
  const VerificationFailedMessage := "Assignment API succeeded but verification failed"

  function UserGoneMessage(userId: string): string {
    "User no longer exists: " + userId
  }

  function AddStatusMessage(r: HttpResponse): string {
    "Failed to add user to organization - status: " + IntToString(r.status) + ", response: " + Str(r.body)
  }

  /** What one pass of `addUserToOrganizationImmediate` ran into: the user check said the
      user is gone, the POST answered (with the result of the membership check made
      after a 201/204), or something threw with the given message. */
  datatype ImmediateOutcome =
    | UserGone
    | Posted(response: HttpResponse, membershipConfirmed: bool)
    | Raised(message: Option<string>)

  /** How one pass ends: added, on to the next attempt, or out of the loop (404/403),
      the last two with the message of the exception kept as `lastException`. */
  datatype ImmediateStep = Added | Next(lastMessage: string) | Break(lastMessage: string)

  predicate Created(r: HttpResponse) {
    r.status == 204 || r.status == 201
  }

  function ImmediatePass(userId: string, outcome: ImmediateOutcome): (s: ImmediateStep)
    ensures s.Added? <==> outcome.Posted? && Created(outcome.response) && outcome.membershipConfirmed
    ensures s.Break? <==> outcome.Posted? && (outcome.response.status == 404 || outcome.response.status == 403)
  {
    match outcome
    case UserGone => Next(UserGoneMessage(userId))
    case Posted(r, confirmed) =>
      if Created(r) then (if confirmed then Added else Next(VerificationFailedMessage))
      else if r.status == 404 || r.status == 403 then Break(AddStatusMessage(r))
      else Next(AddStatusMessage(r))
    case Raised(m) => Next(Str(m))
  }

  /** What the caller observes: the exception the method throws, if any, how many passes
      ran, and the waits before the second and later passes. */
  datatype ImmediateRun = ImmediateRun(failure: Option<ServiceException>, attempts: nat, delays: seq<nat>)

  function ImmediateFrom(attempt: nat, userId: string, outcome: nat -> ImmediateOutcome): ImmediateRun
    requires attempt < MaxImmediateAttempts
    decreases MaxImmediateAttempts - attempt
  {
    var wait := if attempt > 0 then [5000 * attempt] else [];
    match ImmediatePass(userId, outcome(attempt))
    case Added => ImmediateRun(None, 1, wait)
    case Break(m) => ImmediateRun(Some(Keycloak(Some(ImmediateFailurePrefix + m))), 1, wait)
    case Next(m) =>
      if attempt == MaxImmediateAttempts - 1 then ImmediateRun(Some(Keycloak(Some(ImmediateFailurePrefix + m))), 1, wait)
      else
        var rest := ImmediateFrom(attempt + 1, userId, outcome);
        ImmediateRun(rest.failure, rest.attempts + 1, wait + rest.delays)
  }

  /** `addUserToOrganizationImmediate`, from its first pass on. */
  method AddUserToOrganizationImmediate(userId: string, outcome: nat -> ImmediateOutcome) returns (run: ImmediateRun)
    ensures run == ImmediateFrom(0, userId, outcome)
  {
    ghost var whole := ImmediateFrom(0, userId, outcome);
    var attempt := 0;
    var delays: seq<nat> := [];
    while true
      invariant 0 <= attempt < MaxImmediateAttempts
      invariant attempt == 0 ==> delays == []
      invariant whole == ImmediateAfter(attempt, delays, ImmediateFrom(attempt, userId, outcome))
      decreases MaxImmediateAttempts - attempt
    {
      var wait := if attempt > 0 then [5000 * attempt] else [];
      var pass := ImmediatePass(userId, outcome(attempt));
      if pass.Added? {
        ImmediateStop(attempt, delays, userId, outcome);
        return ImmediateRun(None, attempt + 1, delays + wait);
      }
      if pass.Break? || attempt == MaxImmediateAttempts - 1 {
        ImmediateStop(attempt, delays, userId, outcome);
        return ImmediateRun(Some(Keycloak(Some(ImmediateFailurePrefix + pass.lastMessage))), attempt + 1, delays + wait);
      }
      ImmediateNext(attempt, delays, userId, outcome);
      delays := delays + wait;
      attempt := attempt + 1;
    }
  }

  /** A run from pass `attempt` on, preceded by the passes and waits before it. */
  function ImmediateAfter(attempt: nat, delays: seq<nat>, run: ImmediateRun): ImmediateRun {
    ImmediateRun(run.failure, attempt + run.attempts, delays + run.delays)
  }

  /** A pass that ends the loop ends the run: added, stopped by 404/403, or the last one. */
  lemma ImmediateStop(attempt: nat, delays: seq<nat>, userId: string, outcome: nat -> ImmediateOutcome)
    requires attempt < MaxImmediateAttempts
    requires var pass := ImmediatePass(userId, outcome(attempt));
      pass.Added? || pass.Break? || attempt == MaxImmediateAttempts - 1
    ensures var pass := ImmediatePass(userId, outcome(attempt));
      var wait := if attempt > 0 then [5000 * attempt] else [];
      ImmediateAfter(attempt, delays, ImmediateFrom(attempt, userId, outcome))
        == ImmediateRun(if pass.Added? then None else Some(Keycloak(Some(ImmediateFailurePrefix + pass.lastMessage))),
                        attempt + 1, delays + wait)
  {
  }

  /** A pass that goes on moves its wait from the rest of the run to the waits before it. */
  lemma ImmediateNext(attempt: nat, delays: seq<nat>, userId: string, outcome: nat -> ImmediateOutcome)
    requires attempt < MaxImmediateAttempts - 1
    requires ImmediatePass(userId, outcome(attempt)).Next?
    ensures var wait := if attempt > 0 then [5000 * attempt] else [];
      ImmediateAfter(attempt, delays, ImmediateFrom(attempt, userId, outcome))
        == ImmediateAfter(attempt + 1, delays + wait, ImmediateFrom(attempt + 1, userId, outcome))
  {
    var wait := if attempt > 0 then [5000 * attempt] else [];
    var rest := ImmediateFrom(attempt + 1, userId, outcome);
    assert delays + (wait + rest.delays) == (delays + wait) + rest.delays;
  }

  /** From `attempt` on: between one and the remaining passes; success exactly when the
      last pass added a confirmed member; an early stop only on 404 or 403; and every
      failure is a `KeycloakException` whose message claims five attempts. */
  lemma {:induction false} ImmediateFromShape(attempt: nat, userId: string, outcome: nat -> ImmediateOutcome)
    requires attempt < MaxImmediateAttempts
    ensures var run := ImmediateFrom(attempt, userId, outcome);
      var last := outcome(attempt + run.attempts - 1);
      1 <= run.attempts <= MaxImmediateAttempts - attempt
      && (run.failure.None? <==> last.Posted? && Created(last.response) && last.membershipConfirmed)
      && (attempt + run.attempts < MaxImmediateAttempts && run.failure.Some? ==>
            last.Posted? && (last.response.status == 404 || last.response.status == 403))
      && (run.failure.Some? ==>
            (run.failure.value.Keycloak? && run.failure.value.message.Some?
              && ImmediateFailurePrefix <= run.failure.value.message.value))
    decreases MaxImmediateAttempts - attempt
  {
    var pass := ImmediatePass(userId, outcome(attempt));
    if pass.Next? && attempt < MaxImmediateAttempts - 1 {
      ImmediateFromShape(attempt + 1, userId, outcome);
    }
  }

  /** Every pass after the first waits before it runs: pass `k` waits `5000 * k` milliseconds,
      so 5, 10, 15 and 20 seconds. */
  lemma ImmediateDelays(userId: string, outcome: nat -> ImmediateOutcome)
    ensures var run := ImmediateFrom(0, userId, outcome);
      |run.delays| == run.attempts - 1
      && forall i :: 0 <= i < |run.delays| ==> run.delays[i] == 5000 * (i + 1)
  {
    if ImmediatePass(userId, outcome(0)).Next? {
      LaterDelays(1, userId, outcome);
    }
  }

  /** From pass `attempt` > 0 on, each pass waits `5000 * attempt` first. */
  lemma {:induction false} LaterDelays(attempt: nat, userId: string, outcome: nat -> ImmediateOutcome)
    requires 0 < attempt < MaxImmediateAttempts
    ensures var run := ImmediateFrom(attempt, userId, outcome);
      |run.delays| == run.attempts
      && forall i :: 0 <= i < |run.delays| ==> run.delays[i] == 5000 * (attempt + i)
    decreases MaxImmediateAttempts - attempt
  {
    if ImmediatePass(userId, outcome(attempt)).Next? && attempt < MaxImmediateAttempts - 1 {
      LaterDelays(attempt + 1, userId, outcome);
    }
  }

  /** A 403 on the first pass ends the loop at once, though the message says five attempts. */
  lemma ForbiddenStopsAtOnce(userId: string, outcome: nat -> ImmediateOutcome, r: HttpResponse)
    requires r.status == 403 && outcome(0) == Posted(r, false)
    ensures ImmediateFrom(0, userId, outcome)
      == ImmediateRun(Some(Keycloak(Some(ImmediateFailurePrefix + AddStatusMessage(r)))), 1, [])
  {
  }

  // ------------------------------------------------------ organization creation

  /** `extractOrgIdFromResponse`: the body's `id` field, or null. */
  function OrgIdFromBody(parsed: Parsed): (id: Option<string>)
    ensures id.Some? <==> parsed.JsonObject? && "id" in parsed.fields
    ensures id.Some? ==> id.value == parsed.fields["id"]
  {
    if parsed.JsonObject? && "id" in parsed.fields then Some(parsed.fields["id"]) else None
  }

  /** `location.substring(location.lastIndexOf('/') + 1)`. */
  function LastSegment(location: string): (segment: string)
    ensures '/' !in segment
    ensures EndsWith(location, segment)
  {
    var i := LastIndexOf(location, '/');
    AfterLastIndex(location, '/', i);
    location[i + 1..]
  }

  /** The text after the last occurrence of `c` holds no `c` and ends the string. */
  lemma AfterLastIndex(s: string, c: char, i: int)
    requires -1 <= i < |s|
    requires forall j :: i < j < |s| ==> s[j] != c
    ensures c !in s[i + 1..]
    ensures EndsWith(s, s[i + 1..])
  {
    var rest := s[i + 1..];
    forall k | 0 <= k < |rest|
      ensures rest[k] != c
    {
      assert rest[k] == s[i + 1 + k];
    }
  }

  /** A Location header built as `base/id` gives `id` back. */
  lemma LastSegmentOfPath(base: string, id: string)
    requires '/' !in id
    ensures LastSegment(base + "/" + id) == id
  {
    var location := base + "/" + id;
    var i := LastIndexOf(location, '/');
    assert location[|base|] == '/';
    assert forall j :: |base| < j < |location| ==> location[j] == id[j - |base| - 1];
    assert i == |base|;
    assert location[|base| + 1..] == id;
  }

  /** The answer to the organization POST: status, `Location` header, body and parsed body. */
  datatype OrgResponse = OrgResponse(status: int, location: Option<string>, body: Option<string>, parsed: Parsed)

  const OrgCreationPrefix := "Failed to create organization: "

  function OrgExistsMessage(alias: string): string {
    "Organization with alias '" + alias + "' already exists in Keycloak"
  }

  function OrgStatusMessage(r: OrgResponse): string {
    "Failed to create organization. Status: " + IntToString(r.status) + ", Response: " + Str(r.body)
  }

  /** `createOrganizationInternal`: `sent` is the POST's answer, or the message of the
      exception thrown on the way (token, I/O). 201 gives the id from the Location header,
      falling back to the body (and to null); 409 is `OrganizationAlreadyExistsException`;
      anything else is a `KeycloakException` that the method's own catch wraps once more. */
  function CreateOrganization(alias: string, sent: Result<OrgResponse, Option<string>>): (r: Result<Option<string>, ServiceException>)
    ensures r.Err? && r.error.OrganizationAlreadyExists? <==> sent.Ok? && sent.value.status == 409
    ensures r.Ok? <==> sent.Ok? && sent.value.status == 201
  {
    if sent.Err? then Err(Keycloak(Some(OrgCreationPrefix + Str(sent.error))))
    else
      var resp := sent.value;
      if resp.status == 201 then
        var location := if resp.location.Some? then resp.location.value else "";
        Ok(if location == "" then OrgIdFromBody(resp.parsed) else Some(LastSegment(location)))
      else if resp.status == 409 then Err(OrganizationAlreadyExists(Some(OrgExistsMessage(alias))))
      else Err(Keycloak(Some(OrgCreationPrefix + OrgStatusMessage(resp))))
  }

  /** The id of a created organization is the last segment of a non-empty Location
      header, otherwise the body's `id`, otherwise absent. */
  lemma CreatedOrgId(alias: string, resp: OrgResponse)
    requires resp.status == 201
    ensures var r := CreateOrganization(alias, Ok(resp));
      r.Ok?
      && (resp.location.Some? && resp.location.value != "" ==> r.value == Some(LastSegment(resp.location.value)))
      && (resp.location.None? || resp.location.value == "" ==> r.value == OrgIdFromBody(resp.parsed))
  {
  }

  /** An unexpected status reaches the caller as a 500-class `KeycloakException` whose
      message carries the creation prefix twice; a conflict maps to 409. */
  lemma CreationFailuresStatus(alias: string, resp: OrgResponse)
    requires resp.status != 201
    ensures var r := CreateOrganization(alias, Ok(resp));
      r.Err?
      && (resp.status == 409 ==> StatusOf(r.error) == 409)
      && (resp.status != 409 ==> r.error == Keycloak(Some(OrgCreationPrefix + OrgStatusMessage(resp))))
  {
  }
}
