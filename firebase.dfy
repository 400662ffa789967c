/**
 * The Firebase messaging client's retry policy: a call is repeated after
 * a timeout, sleeping minBackoff times the square of the attempt number,
 * until it succeeds, fails otherwise, or the attempt or backoff bound is
 * passed. Durations are in ms.
 */
module Firebase {
  import opened Wrappers

  const MinBackoffMs := 100
  const MaxBackoffMs := 60000

  /** An error of a call; `timeout` is what net.Error.Timeout reports (false for any other error). */
  datatype Error = Error(timeout: bool, message: string)

  datatype CallOutcome = Succeeded | Failed(err: Error)

  /** The sleep after the given number of consecutive timeouts. */
  function Backoff(attempt: nat): nat {
    MinBackoffMs * (attempt * attempt)
  }

  /** From the 25th timeout on the backoff passes MaxBackoffMs; up to the 24th it does not. */
  lemma BackoffBound(attempt: nat)
    ensures attempt <= 24 ==> Backoff(attempt) <= MaxBackoffMs
    ensures attempt >= 25 ==> Backoff(attempt) > MaxBackoffMs
  {
    if attempt >= 25 {
      assert attempt * attempt >= 25 * attempt;
    } else {
      assert attempt * attempt <= 24 * attempt;
    }
  }

  /** What retry did: how many calls it made, what it returned and how long it slept before each retry. */
  datatype RetryRecord = RetryRecord(calls: nat, result: Option<Error>, sleeps: seq<nat>)

  /**
   * retry from the state where `attempt` timeouts have been seen; call
   * number k (from 0) gives outcomes(k).
   */
  function RetryFrom(outcomes: nat -> CallOutcome, attempts: int, attempt: nat): (r: RetryRecord)
    requires attempt <= 24
    ensures attempt < r.calls
    decreases 24 - attempt
  {
    match outcomes(attempt)
    case Succeeded => RetryRecord(attempt + 1, None, [])
    case Failed(err) =>
      if !err.timeout then RetryRecord(attempt + 1, Some(err), [])
      else
        var next := attempt + 1;
        var backoff := Backoff(next);
        if next > attempts || backoff > MaxBackoffMs then RetryRecord(next, Some(err), [])
        else
          BackoffBound(next);
          var rest := RetryFrom(outcomes, attempts, next);
          RetryRecord(rest.calls, rest.result, [backoff] + rest.sleeps)
  }

  /** What retry does from `attempt` timeouts on. */
  lemma {:induction false} RetryFromFacts(outcomes: nat -> CallOutcome, attempts: int, attempt: nat)
    requires attempt <= 24
    ensures var r := RetryFrom(outcomes, attempts, attempt);
      && |r.sleeps| == r.calls - 1 - attempt
      && (r.result.None? <==> outcomes(r.calls - 1) == Succeeded)
      && (r.result.Some? ==> outcomes(r.calls - 1) == Failed(r.result.value))
      && (forall k :: attempt <= k < r.calls - 1 ==> outcomes(k).Failed? && outcomes(k).err.timeout)
      && (forall j :: 0 <= j < |r.sleeps| ==> r.sleeps[j] == Backoff(attempt + j + 1))
      && r.calls - 1 <= 24
      && (r.calls - 1 <= attempts || r.calls == attempt + 1)
    decreases 24 - attempt
  {
    var next := attempt + 1;
    if outcomes(attempt).Failed? && outcomes(attempt).err.timeout && next <= attempts && Backoff(next) <= MaxBackoffMs {
      BackoffBound(next);
      RetryFromFacts(outcomes, attempts, next);
      var rest := RetryFrom(outcomes, attempts, next);
      var r := RetryFrom(outcomes, attempts, attempt);
      assert r.sleeps == [Backoff(next)] + rest.sleeps;
      assert forall j :: 1 <= j < |r.sleeps| ==> r.sleeps[j] == rest.sleeps[j - 1];
    }
  }

  /** retry(fn, attempts). */
  function Retry(outcomes: nat -> CallOutcome, attempts: int): RetryRecord {
    RetryFrom(outcomes, attempts, 0)
  }

  /**
   * The promises of retry: a success or a non-timeout error ends it at
   * once; every earlier call timed out and was followed by a sleep of
   * minBackoff·k²; it calls at most min(attempts, 24) + 1 times.
   */
  lemma RetryPolicy(outcomes: nat -> CallOutcome, attempts: int)
    ensures var r := Retry(outcomes, attempts);
      && 1 <= r.calls
      && (r.calls <= 25)
      && (r.calls <= (if attempts < 0 then 0 else attempts) + 1)
      && (forall k :: 0 <= k < r.calls - 1 ==> outcomes(k).Failed? && outcomes(k).err.timeout)
      && |r.sleeps| == r.calls - 1
      && (forall k :: 0 <= k < |r.sleeps| ==> r.sleeps[k] == MinBackoffMs * ((k + 1) * (k + 1)))
      && (outcomes(0) == Succeeded ==> r == RetryRecord(1, None, []))
      && (outcomes(0).Failed? && !outcomes(0).err.timeout ==> r == RetryRecord(1, Some(outcomes(0).err), []))
  {
    RetryFromFacts(outcomes, attempts, 0);
  }

  /** When a timeout gives up, it is because the attempt or the backoff bound was passed. */
  lemma {:induction false} GiveUpOnlyAtBound(outcomes: nat -> CallOutcome, attempts: int, attempt: nat)
    requires attempt <= 24
    ensures var r := RetryFrom(outcomes, attempts, attempt);
      r.result.Some? && r.result.value.timeout ==> r.calls > attempts || Backoff(r.calls) > MaxBackoffMs
    decreases 24 - attempt
  {
    var next := attempt + 1;
    if outcomes(attempt).Failed? && outcomes(attempt).err.timeout && next <= attempts && Backoff(next) <= MaxBackoffMs {
      BackoffBound(next);
      GiveUpOnlyAtBound(outcomes, attempts, next);
    }
  }

  /** Prepends the sleeps already taken to what the rest of retry does. */
  function AfterSleeps(slept: seq<nat>, rest: RetryRecord): RetryRecord {
    RetryRecord(rest.calls, rest.result, slept + rest.sleeps)
  }

  /** One retry after a timeout the bounds let through. */
  lemma RetryStep(outcomes: nat -> CallOutcome, attempts: int, attempt: nat)
    requires attempt < 24
    requires outcomes(attempt).Failed? && outcomes(attempt).err.timeout
    requires attempt + 1 <= attempts && Backoff(attempt + 1) <= MaxBackoffMs
    ensures RetryFrom(outcomes, attempts, attempt) == AfterSleeps([Backoff(attempt + 1)], RetryFrom(outcomes, attempts, attempt + 1))
  {
  }

  /** The loop of retry, sleeping through the ghost `slept`. */
  method RetryLoop(outcomes: nat -> CallOutcome, attempts: int) returns (err: Option<Error>, calls: nat, ghost slept: seq<nat>)
    ensures err == Retry(outcomes, attempts).result && calls == Retry(outcomes, attempts).calls
    ensures slept == Retry(outcomes, attempts).sleeps
  {
    var attempt: nat := 0;
    slept := [];
    while true
      invariant attempt <= 24
      invariant Retry(outcomes, attempts) == AfterSleeps(slept, RetryFrom(outcomes, attempts, attempt))
      decreases 24 - attempt
    {
      var outcome := outcomes(attempt);
      if outcome == Succeeded {
        return None, attempt + 1, slept;
      }
      if !outcome.err.timeout {
        return Some(outcome.err), attempt + 1, slept;
      }
      attempt := attempt + 1;
      var backoff := Backoff(attempt);
      if attempt > attempts || backoff > MaxBackoffMs {
        return Some(outcome.err), attempt, slept;
      }
      BackoffBound(attempt);
      RetryStep(outcomes, attempts, attempt - 1);
      assert slept + ([backoff] + RetryFrom(outcomes, attempts, attempt).sleeps)
        == (slept + [backoff]) + RetryFrom(outcomes, attempts, attempt).sleeps;
      slept := slept + [backoff];
    }
  }

  /** What one SendEach / SendEachForMulticast call gives: an error, or one response per message. */
  datatype BatchResult = TransportError(err: Error) | Responses(responses: seq<Option<Error>>)

  /** The first message error of a batch, if any. */
  function FirstError(responses: seq<Option<Error>>): (e: Option<Error>)
    ensures e.None? <==> forall k :: 0 <= k < |responses| ==> responses[k].None?
    ensures e.Some? ==> exists k :: (0 <= k < |responses| && responses[k] == e
      && forall j :: 0 <= j < k ==> responses[j].None?)
    decreases |responses|
  {
    if responses == [] then None
    else if responses[0].Some? then responses[0]
    else
      var rest := FirstError(responses[1..]);
      assert forall k :: 1 <= k < |responses| ==> responses[k] == responses[1..][k - 1];
      if rest.Some? then
        var k :| 0 <= k < |responses[1..]| && responses[1..][k] == rest && forall j :: 0 <= j < k ==> responses[1..][j].None?;
        assert responses[k + 1] == rest && forall j :: 0 <= j < k + 1 ==> responses[j].None?;
        rest
      else rest
  }

  /** The first error in a batch's per-message responses. */
  method FirstResponseError(responses: seq<Option<Error>>) returns (err: Option<Error>)
    ensures err == FirstError(responses)
  {
    for i := 0 to |responses|
      invariant forall j :: 0 <= j < i ==> responses[j].None?
    {
      if responses[i].Some? {
        return responses[i];
      }
    }
    return None;
  }

  /** The callback handed to retry: a batch fails on a transport error or on any message's error. */
  function AttemptOutcome(b: BatchResult): CallOutcome {
    match b
    case TransportError(err) => Failed(err)
    case Responses(responses) =>
      var e := FirstError(responses);
      if e.Some? then Failed(e.value) else Succeeded
  }

  /** The outcomes retry sees when attempt k of a send gives sends(k). */
  function Attempts(sends: nat -> BatchResult): nat -> CallOutcome {
    (k: nat) => AttemptOutcome(sends(k))
  }

  /**
   * SendWithRetry and SendEachForMulticast, which differ only in the
   * message they send; attempt k of the send gives sends(k). On failure the
   * response is nil.
   */
  method SendEachWithRetry(sends: nat -> BatchResult, retryAttempts: int) returns (resp: Option<seq<Option<Error>>>, err: Option<Error>)
    ensures var r := Retry(Attempts(sends), retryAttempts);
      && err == r.result
      && (err.Some? ==> resp.None?)
      && (err.None? ==> resp.Some? && sends(r.calls - 1) == Responses(resp.value))
    ensures resp.Some? ==> forall k :: 0 <= k < |resp.value| ==> resp.value[k].None?
  {
    var outcomes := Attempts(sends);
    var calls;
    ghost var slept;
    err, calls, slept := RetryLoop(outcomes, retryAttempts);
    if err.Some? {
      return None, err;
    }
    RetryFromFacts(outcomes, retryAttempts, 0);
    assert AttemptOutcome(sends(calls - 1)) == Succeeded;
    resp := Some(sends(calls - 1).responses);
  }
}
