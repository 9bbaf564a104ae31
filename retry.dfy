/** Retry with exponential backoff (lib/retry.js): the attempt loop, its
    defaults and the three named policies. The operation is a script giving
    the outcome of each numbered call; instead of sleeping, the loop reports
    the delays it would wait and the `onRetry` notifications it would make. */
module Retry {
  import opened Wrappers
  import opened Errors
  import Text

  /** The outcome of one call of the operation. */
  datatype Attempt<T> = Succeeded(value: T) | Failed(error: Error)

  /** The options a caller passes; `None` is an option left unset. */
  datatype Options = Options(
    maxAttempts: Option<nat>,
    baseDelay: Option<nat>,
    maxDelay: Option<nat>,
    backoffFactor: Option<nat>,
    retryCondition: Option<Error -> bool>)

  /** The options with every default filled in. */
  datatype Config = Config(
    maxAttempts: nat,
    baseDelay: nat,
    maxDelay: nat,
    backoffFactor: nat,
    retryCondition: Error -> bool)

  function AlwaysRetry(e: Error): bool { true }

  const NoOptions: Options := Options(None, None, None, None, None)

  /** The defaults apply to exactly the options left unset. */
  function Resolve(o: Options): (c: Config)
    ensures c.maxAttempts == (if o.maxAttempts.Some? then o.maxAttempts.value else 3)
    ensures c.baseDelay == (if o.baseDelay.Some? then o.baseDelay.value else 1000)
    ensures c.maxDelay == (if o.maxDelay.Some? then o.maxDelay.value else 10000)
    ensures c.backoffFactor == (if o.backoffFactor.Some? then o.backoffFactor.value else 2)
    ensures c.retryCondition == (if o.retryCondition.Some? then o.retryCondition.value else AlwaysRetry)
  {
    Config(o.maxAttempts.GetOr(3), o.baseDelay.GetOr(1000), o.maxDelay.GetOr(10000),
           o.backoffFactor.GetOr(2), o.retryCondition.GetOr(AlwaysRetry))
  }

  function Pow(b: nat, e: nat): nat
    decreases e
  {
    if e == 0 then 1 else b * Pow(b, e - 1)
  }

  function Min(a: nat, b: nat): nat { if a <= b then a else b }

  /** The wait after failed attempt `attempt` (counted from 1). */
  function Delay(c: Config, attempt: nat): nat
    requires attempt >= 1
  {
    Min(c.baseDelay * Pow(c.backoffFactor, attempt - 1), c.maxDelay)
  }

  predicate IsNetworkCode(e: Error) {
    e.code == StrCode("ECONNRESET") || e.code == StrCode("ETIMEDOUT")
  }

  /** The database policy retries connection failures and timeouts. */
  predicate DatabaseRetries(e: Error) {
    IsNetworkCode(e) || Text.Contains(e.message, "connection") || Text.Contains(e.message, "timeout")
  }

  /** The triage policy retries an error without a status and a server error. */
  predicate TriageRetries(e: Error) {
    !HasStatus(e) || e.status.value >= 500
  }

  /** The external-service policy retries network failures and server errors. */
  predicate ExternalRetries(e: Error) {
    IsNetworkCode(e) || (HasStatus(e) && e.status.value >= 500)
  }

  const DatabaseOptions: Options := Options(Some(3), Some(500), None, None, Some(DatabaseRetries))
  const TriageOptions: Options := Options(Some(2), Some(1000), None, None, Some(TriageRetries))
  const ExternalOptions: Options := Options(Some(3), Some(2000), Some(8000), None, Some(ExternalRetries))

  /** How a run ends: with the operation's result, or by rethrowing. `Threw(None)`
      is the undefined value thrown when the loop never runs. */
  datatype Outcome<T> = Returned(value: T) | Threw(error: Option<Error>)

  /** A run: its outcome, the number of calls, the delays waited between calls
      and the (attempt, error) pairs passed to `onRetry`. */
  datatype Run<T> = Run(outcome: Outcome<T>, calls: nat, delays: seq<nat>, retried: seq<(nat, Error)>)

  /** The run from attempt `attempt` on. */
  function RunFrom<T>(c: Config, op: nat -> Attempt<T>, attempt: nat): Run<T>
    requires attempt >= 1
    decreases c.maxAttempts + 1 - attempt
  {
    if attempt > c.maxAttempts then Run(Threw(None), 0, [], [])
    else match op(attempt)
      case Succeeded(v) => Run(Returned(v), 1, [], [])
      case Failed(e) =>
        if attempt == c.maxAttempts || !c.retryCondition(e) then Run(Threw(Some(e)), 1, [], [])
        else
          var rest := RunFrom(c, op, attempt + 1);
          Run(rest.outcome, rest.calls + 1, [Delay(c, attempt)] + rest.delays, [(attempt, e)] + rest.retried)
  }

  /** withRetry. */
  method WithRetry<T>(c: Config, op: nat -> Attempt<T>) returns (r: Run<T>)
    ensures r == RunFrom(c, op, 1)
  {
    var lastError: Option<Error> := None;
    var calls := 0;
    var delays: seq<nat> := [];
    var retried: seq<(nat, Error)> := [];
    var attempt := 1;
    while attempt <= c.maxAttempts
      invariant 1 <= attempt && calls == attempt - 1
      invariant attempt > 1 ==> attempt <= c.maxAttempts
      invariant attempt == 1 ==> lastError == None && delays == [] && retried == []
      invariant Accounts(c, op, attempt, calls, delays, retried)
      decreases c.maxAttempts + 1 - attempt
    {
      var result := op(attempt);
      calls := calls + 1;
      if result.Succeeded? {
        return Run(Returned(result.value), calls, delays, retried);
      }
      var error := result.error;
      lastError := Some(error);
      if attempt == c.maxAttempts || !c.retryCondition(error) {
        return Run(Threw(Some(error)), calls, delays, retried);
      }
      var delay := Delay(c, attempt);
      RemainderStep(c, op, attempt, calls - 1, delays, retried);
      retried := retried + [(attempt, error)];
      delays := delays + [delay];
      attempt := attempt + 1;
    }
    r := Run(Threw(lastError), calls, delays, retried);
  }

  /** The run from 1 is the part done before `attempt` followed by the run
      from `attempt`. */
  ghost predicate Accounts<T>(c: Config, op: nat -> Attempt<T>, attempt: nat, calls: nat, delays: seq<nat>,
                              retried: seq<(nat, Error)>)
    requires attempt >= 1
  {
    var rest := RunFrom(c, op, attempt);
    RunFrom(c, op, 1) == Run(rest.outcome, calls + rest.calls, delays + rest.delays, retried + rest.retried)
  }

  /** A retried failure at `attempt` moves one call, its delay and its
      notification from the remainder to the part done. */
  lemma RemainderStep<T>(c: Config, op: nat -> Attempt<T>, attempt: nat, calls: nat, delays: seq<nat>,
                         retried: seq<(nat, Error)>)
    requires 1 <= attempt < c.maxAttempts && op(attempt).Failed? && c.retryCondition(op(attempt).error)
    requires Accounts(c, op, attempt, calls, delays, retried)
    ensures Accounts(c, op, attempt + 1, calls + 1, delays + [Delay(c, attempt)],
                     retried + [(attempt, op(attempt).error)])
  {
    var rest := RunFrom(c, op, attempt + 1);
    var d := Delay(c, attempt);
    var e := (attempt, op(attempt).error);
    assert delays + [d] + rest.delays == delays + ([d] + rest.delays);
    assert retried + [e] + rest.retried == retried + ([e] + rest.retried);
  }

  /** Call `k` failed with an error the policy accepts for a retry. */
  predicate RetriedAt<T>(c: Config, op: nat -> Attempt<T>, k: nat) {
    op(k).Failed? && c.retryCondition(op(k).error)
  }

  /** What a run from `attempt` on does: every call before its last failed with
      a retryable error before the last attempt and was followed by its delay
      and its notification; the last call either succeeded, with its value
      returned unchanged, or failed at the last attempt or with an error the
      policy rejects, and that very error is rethrown. */
  lemma {:induction false} RunFromShape<T>(c: Config, op: nat -> Attempt<T>, attempt: nat)
    requires 1 <= attempt <= c.maxAttempts
    ensures var r := RunFrom(c, op, attempt);
            var last := attempt + r.calls - 1;
            1 <= r.calls <= c.maxAttempts + 1 - attempt &&
            |r.delays| == r.calls - 1 && |r.retried| == r.calls - 1 &&
            (forall k :: attempt <= k < last ==>
               RetriedAt(c, op, k) && k < c.maxAttempts &&
               r.delays[k - attempt] == Delay(c, k) && r.retried[k - attempt] == (k, op(k).error)) &&
            (op(last).Succeeded? ==> r.outcome == Returned(op(last).value)) &&
            (op(last).Failed? ==> r.outcome == Threw(Some(op(last).error)) &&
                                  (last == c.maxAttempts || !c.retryCondition(op(last).error)))
    decreases c.maxAttempts + 1 - attempt
  {
    var r := RunFrom(c, op, attempt);
    match op(attempt)
    case Succeeded(v) =>
    case Failed(e) =>
      if attempt == c.maxAttempts || !c.retryCondition(e) {
      } else {
        RunFromShape(c, op, attempt + 1);
        var rest := RunFrom(c, op, attempt + 1);
        assert r.calls == rest.calls + 1;
        var last := attempt + r.calls - 1;
        assert last == (attempt + 1) + rest.calls - 1;
        forall k | attempt <= k < last
          ensures RetriedAt(c, op, k) && k < c.maxAttempts &&
                  r.delays[k - attempt] == Delay(c, k) && r.retried[k - attempt] == (k, op(k).error)
        {
          if k > attempt {
            assert r.delays[k - attempt] == rest.delays[k - (attempt + 1)];
            assert r.retried[k - attempt] == rest.retried[k - (attempt + 1)];
          }
        }
      }
  }

  /** The whole run: at most maxAttempts calls, no call at all when maxAttempts
      is zero, one delay and one notification per retried failure, the delay
      after failed attempt k being min(baseDelay * factor^(k-1), maxDelay), and
      the first success returned unchanged or the last error rethrown. */
  lemma RunShape<T>(c: Config, op: nat -> Attempt<T>)
    ensures var r := RunFrom(c, op, 1);
            r.calls <= c.maxAttempts &&
            (c.maxAttempts == 0 <==> r.calls == 0) &&
            (c.maxAttempts == 0 ==> r == Run(Threw(None), 0, [], [])) &&
            (c.maxAttempts > 0 ==>
               |r.delays| == r.calls - 1 && |r.retried| == r.calls - 1 &&
               (forall k :: 1 <= k < r.calls ==>
                  RetriedAt(c, op, k) && r.delays[k - 1] == Delay(c, k) && r.retried[k - 1] == (k, op(k).error)) &&
               (op(r.calls).Succeeded? ==> r.outcome == Returned(op(r.calls).value)) &&
               (op(r.calls).Failed? ==> r.outcome == Threw(Some(op(r.calls).error)) &&
                                        (r.calls == c.maxAttempts || !c.retryCondition(op(r.calls).error))))
  {
    if c.maxAttempts > 0 {
      RunFromShape(c, op, 1);
    }
  }

  /** The first call that succeeds ends the run with its value, provided every
      earlier call failed with a retryable error. */
  lemma {:induction false} FirstSuccessReturned<T>(c: Config, op: nat -> Attempt<T>, j: nat)
    requires 1 <= j <= c.maxAttempts && op(j).Succeeded?
    requires forall k :: 1 <= k < j ==> op(k).Failed? && c.retryCondition(op(k).error)
    ensures RunFrom(c, op, 1).outcome == Returned(op(j).value)
    ensures RunFrom(c, op, 1).calls == j
  {
    RunShape(c, op);
  }

  /** A failure the policy rejects is rethrown at once: no further call, no
      delay after it. */
  lemma {:induction false} RejectedFailureStops<T>(c: Config, op: nat -> Attempt<T>, j: nat)
    requires 1 <= j <= c.maxAttempts && op(j).Failed? && !c.retryCondition(op(j).error)
    requires forall k :: 1 <= k < j ==> op(k).Failed? && c.retryCondition(op(k).error)
    ensures RunFrom(c, op, 1).outcome == Threw(Some(op(j).error))
    ensures RunFrom(c, op, 1).calls == j && |RunFrom(c, op, 1).delays| == j - 1
  {
    RunShape(c, op);
  }

  /** When every call fails with a retryable error there are exactly
      maxAttempts calls and maxAttempts - 1 delays, and the error of the last
      call is rethrown itself. */
  lemma {:induction false} AllFail<T>(c: Config, op: nat -> Attempt<T>)
    requires c.maxAttempts >= 1
    requires forall k :: 1 <= k <= c.maxAttempts ==> op(k).Failed? && c.retryCondition(op(k).error)
    ensures RunFrom(c, op, 1).calls == c.maxAttempts
    ensures |RunFrom(c, op, 1).delays| == c.maxAttempts - 1
    ensures RunFrom(c, op, 1).outcome == Threw(Some(op(c.maxAttempts).error))
  {
    RunShape(c, op);
  }

  /** The defaults: 3 attempts, 1000 ms base, 10000 ms cap, factor 2, every
      error retried. */
  lemma Defaults()
    ensures Resolve(NoOptions) == Config(3, 1000, 10000, 2, AlwaysRetry)
  {
  }

  /** Each named policy sets its own fields and keeps the defaults for the rest. */
  lemma NamedPolicies()
    ensures Resolve(DatabaseOptions) == Config(3, 500, 10000, 2, DatabaseRetries)
    ensures Resolve(TriageOptions) == Config(2, 1000, 10000, 2, TriageRetries)
    ensures Resolve(ExternalOptions) == Config(3, 2000, 8000, 2, ExternalRetries)
  {
  }

  /** The 404 the services throw for a missing row is never retried by the
      triage and external policies. */
  lemma NotFoundNotRetried(message: string)
    ensures !TriageRetries(NotFound(message))
    ensures !ExternalRetries(NotFound(message))
  {
  }
}
