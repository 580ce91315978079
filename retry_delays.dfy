/**
 * The progressive delay between download retries (test_retry_delays.js): attempt `a` waits
 * `(a - 1) * 5` seconds, and a timer is set only for a positive delay. The driver runs attempts
 * 1 to 3 in turn.
 *
 * The timer itself is not modelled: a wait is the number of milliseconds it is set for.
 */
module RetryDelays {
  import opened Wrappers

  /** The number of attempts the driver makes. */
  const Attempts: int := 3

  /** `(attemptNumber - 1) * 5`: the delay in seconds before attempt `a`. */
  function DelaySeconds(a: int): (r: int)
    ensures a >= 1 ==> r >= 0
    ensures r % 5 == 0
  {
    (a - 1) * 5
  }

  /** The attempt a delay belongs to: the inverse of `DelaySeconds`. */
  function AttemptFor(delay: int): (a: int)
    requires delay % 5 == 0
  {
    delay / 5 + 1
  }

  /** `simulateRetryDelay(a)`: the milliseconds of the timer set, or `None` for an immediate resolve. */
  function Wait(a: int): (r: Option<int>)
    ensures r.Some? <==> DelaySeconds(a) > 0
    ensures r.Some? ==> r.value == DelaySeconds(a) * 1000
  {
    var delay := DelaySeconds(a);
    if delay > 0 then Some(delay * 1000) else None
  }

  /** Each delay names its attempt back. */
  lemma AttemptForDelay(a: int)
    ensures AttemptFor(DelaySeconds(a)) == a
  {
    assert DelaySeconds(a) == 5 * (a - 1);
  }

  /** A later attempt waits strictly longer. */
  lemma DelayGrows(a: int, b: int)
    requires a < b
    ensures DelaySeconds(a) < DelaySeconds(b)
  {
  }

  /** Only the first attempt (or an earlier number) resolves without a timer. */
  lemma ImmediateOnlyFirst(a: int)
    ensures Wait(a).None? <==> a <= 1
  {
  }

  /**
   * `testRetryDelays()`: the attempts visited, in order, and the wait before each; they are
   * attempts 1, 2 and 3, waiting nothing, five seconds and ten seconds.
   */
  method TestRetryDelays() returns (visited: seq<int>, waits: seq<Option<int>>)
    ensures visited == [1, 2, 3]
    ensures |waits| == |visited| && forall k :: 0 <= k < |visited| ==> waits[k] == Wait(visited[k])
    ensures waits == [None, Some(5000), Some(10000)]
  {
    visited, waits := [], [];
    var attempt := 1;
    while attempt <= Attempts
      invariant 1 <= attempt <= Attempts + 1
      invariant |visited| == attempt - 1
      invariant forall k :: 0 <= k < |visited| ==> visited[k] == k + 1
      invariant |waits| == |visited| && forall k :: 0 <= k < |visited| ==> waits[k] == Wait(visited[k])
    {
      visited := visited + [attempt];
      waits := waits + [Wait(attempt)];
      attempt := attempt + 1;
    }
  }
}
