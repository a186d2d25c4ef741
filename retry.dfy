/** The XenAPI session's "call a plugin, retrying transient failures" loop.
    The budget is `num_retries + 1` attempts. Before every attempt but the
    first the loop sleeps, starting at half a second and doubling. Each
    attempt takes the next endpoint of the shuffled pool (cycled) and logs
    `attempt/attempts` with the chosen host. The first success is returned
    at once, a failure that is not transient is raised unchanged, and when
    the budget is spent a "retries exceeded" error is raised instead of the
    last transient failure.

    The plugin itself is not modelled: `respond(k)` is what it does on the
    k-th call (0-based). Sleeps are recorded in milliseconds. */
module Retry {
  import opened Endpoints
  import opened Failures

  /** One call of the plugin: plugin and function name, the endpoint the
      callback picked for it, and the fixed parameters of the operation. */
  datatype PluginCall<P> = PluginCall(plugin: string, fn: string, endpoint: Endpoint, params: P)

  /** The debug line written before each call. */
  datatype AttemptLog = AttemptLog(plugin: string, fn: string, attempt: nat, attempts: nat, callbackResult: string)

  /** How the loop ends: the plugin's return value, a failure that is not
      transient (raised unchanged), or the budget spent. */
  datatype RetryResult = Done(payload: string) | Fatal(failure: Failure) | RetriesExceeded(numRetries: nat)

  /** Everything the loop does that can be observed. */
  datatype Trace<P> = Trace(calls: seq<PluginCall<P>>, log: seq<AttemptLog>, sleeps: seq<nat>, result: RetryResult)

  /** Milliseconds slept before the second attempt. */
  const FirstSleepMs: nat := 500

  /** The sleep before retry number i + 1: the delay doubles each time. */
  function BackoffMs(i: nat): (r: nat)
    ensures r >= FirstSleepMs
  {
    if i == 0 then FirstSleepMs else 2 * BackoffMs(i - 1)
  }

  function Pow2(i: nat): nat {
    if i == 0 then 1 else 2 * Pow2(i - 1)
  }

  /** The schedule in closed form: 0.5 s times 2^i. */
  lemma {:induction false} BackoffClosedForm(i: nat)
    ensures BackoffMs(i) == FirstSleepMs * Pow2(i)
  {
    if i > 0 {
      BackoffClosedForm(i - 1);
    }
  }

  /** The delays strictly grow. */
  lemma {:induction false} BackoffIncreasing(i: nat, j: nat)
    requires i < j
    ensures BackoffMs(i) < BackoffMs(j)
    decreases j
  {
    if i < j - 1 {
      BackoffIncreasing(i, j - 1);
    }
  }

  /** The loop goes on after this outcome: a transient failure. */
  predicate Continues(o: Outcome) {
    o.Raised? && IsRetryable(o.failure)
  }

  /** The first attempt at or after `from` (0-based) that ends the loop,
      or `budget` when every one of them would be retried. */
  function FirstStop(respond: nat -> Outcome, from: nat, budget: nat): (r: nat)
    requires from <= budget
    ensures from <= r <= budget
    ensures forall k :: from <= k < r ==> Continues(respond(k))
    ensures r < budget ==> !Continues(respond(r))
    decreases budget - from
  {
    if from == budget then budget
    else if !Continues(respond(from)) then from
    else FirstStop(respond, from + 1, budget)
  }

  /** The number of calls made: up to and including the first attempt that
      ends the loop, and never more than the budget. */
  function CallsMade(respond: nat -> Outcome, budget: nat): nat {
    var n := FirstStop(respond, 0, budget);
    if n < budget then n + 1 else budget
  }

  /** The first m calls: attempt k goes to position k of the cycled order. */
  function Calls<P>(plugin: string, fn: string, order: seq<Endpoint>, params: P, m: nat): (r: seq<PluginCall<P>>)
    requires |order| > 0
    ensures |r| == m
  {
    seq(m, k requires 0 <= k < m => PluginCall(plugin, fn, order[k % |order|], params))
  }

  /** The first m debug lines, attempts numbered from 1 out of `attempts`. */
  function Logs(plugin: string, fn: string, order: seq<Endpoint>, attempts: nat, m: nat): (r: seq<AttemptLog>)
    requires |order| > 0
    ensures |r| == m
  {
    seq(m, k requires 0 <= k < m => AttemptLog(plugin, fn, k + 1, attempts, order[k % |order|].host))
  }

  /** The first m sleeps of the schedule. */
  function Sleeps(m: nat): (r: seq<nat>)
    ensures |r| == m
  {
    seq(m, k requires 0 <= k < m => BackoffMs(k))
  }

  lemma CallsSnoc<P>(plugin: string, fn: string, order: seq<Endpoint>, params: P, m: nat)
    requires |order| > 0
    ensures Calls(plugin, fn, order, params, m + 1)
         == Calls(plugin, fn, order, params, m) + [PluginCall(plugin, fn, order[m % |order|], params)]
  {
  }

  lemma LogsSnoc(plugin: string, fn: string, order: seq<Endpoint>, attempts: nat, m: nat)
    requires |order| > 0
    ensures Logs(plugin, fn, order, attempts, m + 1)
         == Logs(plugin, fn, order, attempts, m) + [AttemptLog(plugin, fn, m + 1, attempts, order[m % |order|].host)]
  {
  }

  lemma SleepsSnoc(m: nat)
    ensures Sleeps(m + 1) == Sleeps(m) + [BackoffMs(m)]
  {
  }

  /** What the loop does, stated declaratively. */
  function RetryTrace<P>(plugin: string, fn: string, numRetries: nat, order: seq<Endpoint>,
                         params: P, respond: nat -> Outcome): Trace<P>
    requires |order| > 0
  {
    var budget := numRetries + 1;
    var n := FirstStop(respond, 0, budget);
    var made := CallsMade(respond, budget);
    Trace(
      Calls(plugin, fn, order, params, made),
      Logs(plugin, fn, order, budget, made),
      Sleeps(made - 1),
      if n == budget then RetriesExceeded(numRetries)
      else match respond(n)
           case Returned(p) => Done(p)
           case Raised(f) => Fatal(f))
  }

  /** The loop itself: sleep (not before the first attempt), pick the next
      endpoint, log, call; return on success, re-raise a failure that is not
      transient, and give up once `num_retries + 1` attempts have failed. */
  method CallPluginWithRetry<P>(plugin: string, fn: string, numRetries: nat, order: seq<Endpoint>,
                                params: P, respond: nat -> Outcome)
    returns (calls: seq<PluginCall<P>>, log: seq<AttemptLog>, sleeps: seq<nat>, result: RetryResult)
    requires |order| > 0
    ensures Trace(calls, log, sleeps, result) == RetryTrace(plugin, fn, numRetries, order, params, respond)
  {
    var attempts := numRetries + 1;
    var servers := new ServerCycle(order);
    var sleepTime := FirstSleepMs;
    calls, log, sleeps := [], [], [];
    var attempt := 1;
    while attempt <= attempts
      invariant 1 <= attempt <= attempts + 1
      invariant servers.Valid() && servers.order == order && servers.cursor == (attempt - 1) % |order|
      invariant calls == Calls(plugin, fn, order, params, attempt - 1)
      invariant log == Logs(plugin, fn, order, attempts, attempt - 1)
      invariant sleeps == Sleeps(if attempt == 1 then 0 else attempt - 2)
      invariant sleepTime == BackoffMs(|sleeps|)
      invariant FirstStop(respond, 0, attempts) == FirstStop(respond, attempt - 1, attempts)
    {
      if attempt > 1 {
        SleepsSnoc(attempt - 2);
        sleeps := sleeps + [sleepTime];
        sleepTime := 2 * sleepTime;
      }
      NextIndex(attempt - 1, |order|);
      var endpoint := servers.Next();
      LogsSnoc(plugin, fn, order, attempts, attempt - 1);
      log := log + [AttemptLog(plugin, fn, attempt, attempts, endpoint.host)];
      CallsSnoc(plugin, fn, order, params, attempt - 1);
      calls := calls + [PluginCall(plugin, fn, endpoint, params)];
      var outcome := respond(attempt - 1);
      match outcome {
        case Returned(payload) =>
          result := Done(payload);
          return;
        case Raised(failure) =>
          if !IsRetryable(failure) {
            result := Fatal(failure);
            return;
          }
      }
      attempt := attempt + 1;
    }
    result := RetriesExceeded(numRetries);
  }

  /** At least one call and at most `num_retries + 1`; one log line per
      call; one sleep between each two calls and none after the last. */
  lemma AttemptBudget<P>(plugin: string, fn: string, numRetries: nat, order: seq<Endpoint>,
                         params: P, respond: nat -> Outcome)
    requires |order| > 0
    ensures var t := RetryTrace(plugin, fn, numRetries, order, params, respond);
      && 1 <= |t.calls| <= numRetries + 1
      && |t.log| == |t.calls|
      && |t.sleeps| == |t.calls| - 1
  {
  }

  /** Every attempt re-sends the same plugin function and the same fixed
      parameters; only the endpoint changes. The log numbers attempts from
      1 up, out of `num_retries + 1`, naming the host the call went to. */
  lemma CallsShareParams<P>(plugin: string, fn: string, numRetries: nat, order: seq<Endpoint>,
                            params: P, respond: nat -> Outcome, k: nat)
    requires |order| > 0
    requires k < |RetryTrace(plugin, fn, numRetries, order, params, respond).calls|
    ensures var t := RetryTrace(plugin, fn, numRetries, order, params, respond);
      && t.calls[k].plugin == plugin && t.calls[k].fn == fn && t.calls[k].params == params
      && t.log[k].attempt == k + 1 && t.log[k].attempts == numRetries + 1
      && t.log[k].callbackResult == t.calls[k].endpoint.host
  {
  }

  /** The sleeps are 0.5 s, 1 s, 2 s, ...: the first is 500 ms and each is
      twice the one before. */
  lemma SleepsDouble<P>(plugin: string, fn: string, numRetries: nat, order: seq<Endpoint>,
                        params: P, respond: nat -> Outcome)
    requires |order| > 0
    ensures var s := RetryTrace(plugin, fn, numRetries, order, params, respond).sleeps;
      && (|s| > 0 ==> s[0] == 500)
      && (forall k :: 0 <= k < |s| - 1 ==> s[k + 1] == 2 * s[k])
      && (forall k :: 0 <= k < |s| ==> s[k] == FirstSleepMs * Pow2(k))
  {
    var s := RetryTrace(plugin, fn, numRetries, order, params, respond).sleeps;
    forall k | 0 <= k < |s| ensures s[k] == FirstSleepMs * Pow2(k) {
      BackoffClosedForm(k);
    }
  }

  /** The budget runs out exactly when every one of the `num_retries + 1`
      attempts failed transiently; then all of them were made, the sleeps
      are the whole schedule, and the result is "retries exceeded", not the
      last failure. */
  lemma ExhaustedIff<P>(plugin: string, fn: string, numRetries: nat, order: seq<Endpoint>,
                        params: P, respond: nat -> Outcome)
    requires |order| > 0
    ensures var t := RetryTrace(plugin, fn, numRetries, order, params, respond);
      t.result.RetriesExceeded? <==> forall k :: 0 <= k <= numRetries ==> Continues(respond(k))
    ensures var t := RetryTrace(plugin, fn, numRetries, order, params, respond);
      t.result.RetriesExceeded? ==>
        && t.result.numRetries == numRetries
        && t.calls == Calls(plugin, fn, order, params, numRetries + 1)
        && t.log == Logs(plugin, fn, order, numRetries + 1, numRetries + 1)
        && t.sleeps == Sleeps(numRetries)
  {
  }

  /** The loop ends at the first attempt that is not a transient failure:
      a success returns its value, anything else is raised as it came,
      and no later attempt is made. */
  lemma StopsAtFirstNonTransient<P>(plugin: string, fn: string, numRetries: nat, order: seq<Endpoint>,
                                    params: P, respond: nat -> Outcome, n: nat)
    requires |order| > 0
    requires n <= numRetries
    requires forall k :: 0 <= k < n ==> Continues(respond(k))
    requires !Continues(respond(n))
    ensures var t := RetryTrace(plugin, fn, numRetries, order, params, respond);
      && t.calls == Calls(plugin, fn, order, params, n + 1)
      && t.log == Logs(plugin, fn, order, numRetries + 1, n + 1)
      && t.sleeps == Sleeps(n)
      && (respond(n).Returned? ==> t.result == Done(respond(n).payload))
      && (respond(n).Raised? ==> t.result == Fatal(respond(n).failure))
  {
  }

  /** A failure is only ever raised unchanged when it is not transient. */
  lemma FatalIsNotTransient<P>(plugin: string, fn: string, numRetries: nat, order: seq<Endpoint>,
                               params: P, respond: nat -> Outcome)
    requires |order| > 0
    ensures var t := RetryTrace(plugin, fn, numRetries, order, params, respond);
      t.result.Fatal? ==> !IsRetryable(t.result.failure)
  {
  }

  /** Attempts walk the shuffled pool in order and start over after the
      last endpoint; attempts less than a pool's length apart use different
      positions of the pool. */
  lemma EndpointsCycle<P>(plugin: string, fn: string, numRetries: nat, pool: seq<Endpoint>,
                          perm: seq<nat>, params: P, respond: nat -> Outcome, k1: nat, k2: nat)
    requires |pool| > 0 && IsPermutation(perm, |pool|)
    requires k1 < k2 < |RetryTrace(plugin, fn, numRetries, Shuffle(pool, perm), params, respond).calls|
    ensures var t := RetryTrace(plugin, fn, numRetries, Shuffle(pool, perm), params, respond);
      && t.calls[k1].endpoint == pool[perm[k1 % |pool|]]
      && t.calls[k2].endpoint == pool[perm[k2 % |pool|]]
      && (k2 < k1 + |pool| ==> perm[k1 % |pool|] != perm[k2 % |pool|])
  {
    if k2 < k1 + |pool| {
      NoRepeatWithinPass(perm, |pool|, k1, k2);
    }
  }
}
