/**
  `call_groq_with_retry`: up to three attempts at the same request; after an
  `InternalServerError` on attempt `n` (other than the last) it sleeps `2**n`
  seconds and tries again, on the last attempt it re-raises; any other
  exception propagates at once. Sleeps are recorded as durations in seconds.
 */
module RetryPolicy {
  import opened Llm

  const MaxAttempts: nat := 3

  function Pow2(n: nat): nat {
    if n == 0 then 1 else 2 * Pow2(n - 1)
  }

  /** The sleeps after failed attempts 1 .. n: 2, 4, ..., 2^n seconds. */
  function Backoff(n: nat): (r: seq<nat>)
    ensures |r| == n
    ensures forall k :: 0 <= k < n ==> r[k] == Pow2(k + 1)
  {
    if n == 0 then [] else Backoff(n - 1) + [Pow2(n)]
  }

  /** The outcome the caller sees, the number of calls made, the sleeps made. */
  datatype Attempted = Attempted(outcome: Outcome, calls: nat, sleeps: seq<nat>)

  /** The loop from attempt `attempt` on; call `start + k` is attempt `k + 1`. */
  function RetryFrom(up: Upstream, start: nat, req: Request, attempt: nat): (r: Attempted)
    requires 1 <= attempt <= MaxAttempts
    ensures attempt <= r.calls <= MaxAttempts
    ensures r.outcome == up(start + r.calls - 1, req)
    ensures forall c :: start + attempt - 1 <= c < start + r.calls - 1 ==> up(c, req).InternalServerError?
    ensures r.outcome.InternalServerError? ==> r.calls == MaxAttempts
    ensures r.sleeps == Backoff(r.calls - 1)[attempt - 1..]
    decreases MaxAttempts - attempt
  {
    var o := up(start + attempt - 1, req);
    if o.InternalServerError? && attempt < MaxAttempts then
      var rest := RetryFrom(up, start, req, attempt + 1);
      Attempted(rest.outcome, rest.calls, [Pow2(attempt)] + rest.sleeps)
    else
      Attempted(o, attempt, [])
  }

  /**
    The whole policy: at most three calls; the outcome is that of the last
    call, every earlier call failed with an `InternalServerError`, a server
    error reaches the caller only from the third call, and the sleeps are
    2, 4, ... seconds, one fewer than the calls.
   */
  function Retry(up: Upstream, start: nat, req: Request): (r: Attempted)
    ensures 1 <= r.calls <= MaxAttempts
    ensures r.outcome == up(start + r.calls - 1, req)
    ensures forall c :: start <= c < start + r.calls - 1 ==> up(c, req).InternalServerError?
    ensures r.outcome.InternalServerError? ==> r.calls == MaxAttempts
    ensures r.sleeps == Backoff(r.calls - 1)
  {
    RetryFrom(up, start, req, 1)
  }

  /** `call_groq_with_retry(model, temperature, messages)`, starting at call `start`. */
  method CallWithRetry(up: Upstream, start: nat, req: Request) returns (r: Attempted)
    ensures r == Retry(up, start, req)
  {
    var attempt := 1;
    var sleeps: seq<nat> := [];
    while true
      invariant 1 <= attempt <= MaxAttempts
      invariant sleeps == Backoff(attempt - 1)
      invariant Retry(up, start, req) == AfterSleeps(sleeps, RetryFrom(up, start, req, attempt))
      decreases MaxAttempts - attempt
    {
      var o := up(start + attempt - 1, req);
      if !o.InternalServerError? || attempt == MaxAttempts {
        return Attempted(o, attempt, sleeps);
      }
      RetryStep(up, start, req, attempt, sleeps);
      sleeps := sleeps + [Pow2(attempt)];
      attempt := attempt + 1;
    }
  }

  /** `r` with the sleeps `before` made ahead of it. */
  function AfterSleeps(before: seq<nat>, r: Attempted): Attempted {
    Attempted(r.outcome, r.calls, before + r.sleeps)
  }

  lemma RetryStep(up: Upstream, start: nat, req: Request, attempt: nat, before: seq<nat>)
    requires 1 <= attempt < MaxAttempts
    requires up(start + attempt - 1, req).InternalServerError?
    ensures AfterSleeps(before, RetryFrom(up, start, req, attempt))
         == AfterSleeps(before + [Pow2(attempt)], RetryFrom(up, start, req, attempt + 1))
  {
    var rest := RetryFrom(up, start, req, attempt + 1);
    assert before + ([Pow2(attempt)] + rest.sleeps) == before + [Pow2(attempt)] + rest.sleeps;
  }

  /** A first call that does not fail with a server error is the only call. */
  lemma NoRetryWithoutServerError(up: Upstream, start: nat, req: Request)
    requires !up(start, req).InternalServerError?
    ensures Retry(up, start, req) == Attempted(up(start, req), 1, [])
  {
  }

  /** Three server errors in a row, at calls `start`, `start + 1` and `start + 2`. */
  predicate ThreeServerErrors(up: Upstream, start: nat, req: Request) {
    && up(start, req).InternalServerError?
    && up(start + 1, req).InternalServerError?
    && up(start + 2, req).InternalServerError?
  }

  /** After three server errors the third is raised, having slept 2 then 4 seconds. */
  lemma ExhaustedRetry(up: Upstream, start: nat, req: Request)
    requires ThreeServerErrors(up, start, req)
    ensures Retry(up, start, req) == Attempted(up(start + 2, req), 3, [2, 4])
  {
    var r := Retry(up, start, req);
    assert r.calls == 3;
    assert Backoff(2) == [2, 4];
  }

  /** The policy gives up with a server error exactly after three server errors in a row. */
  lemma GivesUpIffThreeServerErrors(up: Upstream, start: nat, req: Request)
    ensures Retry(up, start, req).outcome.InternalServerError? <==> ThreeServerErrors(up, start, req)
  {
    var r := Retry(up, start, req);
    if r.outcome.InternalServerError? {
      assert r.calls == 3;
      assert up(start + 1, req).InternalServerError?;
    }
    if ThreeServerErrors(up, start, req) {
      ExhaustedRetry(up, start, req);
    }
  }
}
