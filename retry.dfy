/**
 * The `retry(target_exception, tries, delay_s, backoff)` decorator. Its `f_retry`
 * wrapper appears three times in the repository, each copy the same text, and is
 * modelled here once.
 *
 * The retried function is represented by its answers: `attempt(k)` is what the
 * k-th call (counting from 0) returned or raised. `catches(e)` says whether `e`
 * is an instance of `target_exception`. Sleeping is recorded as the list of
 * delays passed to `time.sleep`, in order. A call that blocks for good ends the
 * wrapper's activity just as a return does, without a result.
 */
module Retry {

  /**
   * What one call of a Python function did: returned a value, raised an exception,
   * or never came back (it blocks for as long as what it started keeps running).
   */
  datatype Outcome<+T, +E> = Returned(value: T) | Raised(error: E) | Blocked

  /** What a call of the wrapper did: its outcome, how many times it called `f`, and its sleeps. */
  datatype Run<+T, +E> = Run(result: Outcome<T, E>, calls: nat, sleeps: seq<int>)

  /** `b ** n` on integers. */
  function Pow(b: int, n: nat): int {
    if n == 0 then 1 else b * Pow(b, n - 1)
  }

  /** The number of calls the wrapper will make at most: `max(tries, 1)`. */
  function MaxCalls(tries: int): (n: nat)
    ensures n >= 1
  {
    if tries > 1 then tries else 1
  }

  /** Whether the k-th call raised an exception the wrapper catches. */
  predicate CaughtFailure<T, E>(attempt: nat -> Outcome<T, E>, catches: E -> bool, k: nat) {
    attempt(k).Raised? && catches(attempt(k).error)
  }

  /**
   * The loop of `f_retry` from the state `mtries, mdelay` with `k` calls already made:
   * while `mtries > 1` call `f`; a return (or a call that never comes back) ends
   * the wrapper, an uncaught exception propagates, a caught one sleeps `mdelay`,
   * decrements `mtries` and multiplies `mdelay` by `backoff`; once `mtries <= 1`
   * the last call's outcome is the wrapper's.
   */
  function Loop<T, E>(mtries: int, mdelay: int, backoff: int, k: nat,
                      attempt: nat -> Outcome<T, E>, catches: E -> bool): Run<T, E>
    decreases if mtries > 1 then mtries else 0
  {
    if mtries > 1 && CaughtFailure(attempt, catches, k) then
      var rest := Loop(mtries - 1, mdelay * backoff, backoff, k + 1, attempt, catches);
      Run(rest.result, rest.calls, [mdelay] + rest.sleeps)
    else
      Run(attempt(k), k + 1, [])
  }

  /** The whole wrapper: `mtries, mdelay = tries, delay_s`, then the loop. */
  function Spec<T, E>(tries: int, delay: int, backoff: int,
                      attempt: nat -> Outcome<T, E>, catches: E -> bool): Run<T, E>
  {
    Loop(tries, delay, backoff, 0, attempt, catches)
  }

  /** `f_retry`, as the loop the source runs. */
  method FRetry<T, E>(tries: int, delay: int, backoff: int,
                      attempt: nat -> Outcome<T, E>, catches: E -> bool)
    returns (result: Outcome<T, E>, calls: nat, sleeps: seq<int>)
    ensures Run(result, calls, sleeps) == Spec(tries, delay, backoff, attempt, catches)
  {
    var mtries, mdelay := tries, delay;
    calls, sleeps := 0, [];
    while mtries > 1
      invariant Spec(tries, delay, backoff, attempt, catches)
             == (var rest := Loop(mtries, mdelay, backoff, calls, attempt, catches);
                 Run(rest.result, rest.calls, sleeps + rest.sleeps))
      decreases mtries
    {
      var answer := attempt(calls);
      calls := calls + 1;
      match answer
      case Returned(v) =>
        return Returned(v), calls, sleeps;
      case Blocked =>
        // the call never came back, so the wrapper makes no further call or sleep
        return Blocked, calls, sleeps;
      case Raised(e) =>
        if !catches(e) {
          return Raised(e), calls, sleeps;
        }
        sleeps := sleeps + [mdelay];
        mtries := mtries - 1;
        mdelay := mdelay * backoff;
    }
    result := attempt(calls);
    calls := calls + 1;
  }

  /** What the loop started at call `k` does, in terms of the calls it makes. */
  lemma {:induction false} LoopFacts<T, E>(mtries: int, mdelay: int, backoff: int, k: nat,
                                           attempt: nat -> Outcome<T, E>, catches: E -> bool)
    ensures var r := Loop(mtries, mdelay, backoff, k, attempt, catches);
      && k + 1 <= r.calls <= k + MaxCalls(mtries)
      && r.result == attempt(r.calls - 1)
      && (forall j :: k <= j < r.calls - 1 ==> CaughtFailure(attempt, catches, j))
      && (r.calls < k + MaxCalls(mtries) ==> !CaughtFailure(attempt, catches, r.calls - 1))
      && |r.sleeps| == r.calls - 1 - k
      && (forall i :: 0 <= i < |r.sleeps| ==> r.sleeps[i] == mdelay * Pow(backoff, i))
    decreases if mtries > 1 then mtries else 0
  {
    if mtries > 1 && CaughtFailure(attempt, catches, k) {
      LoopFacts(mtries - 1, mdelay * backoff, backoff, k + 1, attempt, catches);
      var rest := Loop(mtries - 1, mdelay * backoff, backoff, k + 1, attempt, catches);
      var r := Loop(mtries, mdelay, backoff, k, attempt, catches);
      assert r.sleeps == [mdelay] + rest.sleeps;
      forall i | 0 <= i < |r.sleeps| ensures r.sleeps[i] == mdelay * Pow(backoff, i) {
        if i > 0 {
          assert r.sleeps[i] == rest.sleeps[i - 1] == mdelay * backoff * Pow(backoff, i - 1);
        }
      }
    }
  }

  /**
   * The wrapper calls `f` at least once and at most `max(tries, 1)` times, and its
   * outcome is the outcome of its last call: a return, an exception it does not
   * catch, or, on the last allowed call, whatever that call raised.
   */
  lemma CallBound<T, E>(tries: int, delay: int, backoff: int,
                        attempt: nat -> Outcome<T, E>, catches: E -> bool)
    ensures var r := Spec(tries, delay, backoff, attempt, catches);
      && 1 <= r.calls <= MaxCalls(tries)
      && r.result == attempt(r.calls - 1)
      && (r.calls < MaxCalls(tries) ==> !CaughtFailure(attempt, catches, r.calls - 1))
  {
    LoopFacts(tries, delay, backoff, 0, attempt, catches);
  }

  /**
   * Every call before the last raised a caught exception, each of them was followed
   * by exactly one sleep, and the i-th sleep (from 0) is `delay_s * backoff ** i`.
   */
  lemma SleepSchedule<T, E>(tries: int, delay: int, backoff: int,
                            attempt: nat -> Outcome<T, E>, catches: E -> bool)
    ensures var r := Spec(tries, delay, backoff, attempt, catches);
      && (forall j :: 0 <= j < r.calls - 1 ==> CaughtFailure(attempt, catches, j))
      && |r.sleeps| == r.calls - 1
      && (forall i :: 0 <= i < |r.sleeps| ==> r.sleeps[i] == delay * Pow(backoff, i))
  {
    LoopFacts(tries, delay, backoff, 0, attempt, catches);
  }

  /** A wrapper result that is a return is the value of the first call that returned. */
  lemma FirstSuccess<T, E>(tries: int, delay: int, backoff: int,
                           attempt: nat -> Outcome<T, E>, catches: E -> bool)
    ensures var r := Spec(tries, delay, backoff, attempt, catches);
      r.result.Returned? ==>
        exists k :: 0 <= k < MaxCalls(tries) && r.result == attempt(k) &&
          forall j :: 0 <= j < k ==> attempt(j).Raised?
  {
    LoopFacts(tries, delay, backoff, 0, attempt, catches);
    var r := Spec(tries, delay, backoff, attempt, catches);
    if r.result.Returned? {
      var k := r.calls - 1;
      forall j | 0 <= j < k ensures attempt(j).Raised? {
        assert CaughtFailure(attempt, catches, j);
      }
    }
  }

  /** With `tries <= 1` the wrapper makes exactly one call, never sleeps, and is that call. */
  lemma SingleTry<T, E>(tries: int, delay: int, backoff: int,
                        attempt: nat -> Outcome<T, E>, catches: E -> bool)
    requires tries <= 1
    ensures Spec(tries, delay, backoff, attempt, catches) == Run(attempt(0), 1, [])
  {
  }

  /**
   * When every call raises a caught exception the wrapper uses all `max(tries, 1)`
   * calls and the exception of the last one propagates.
   */
  lemma {:induction false} Exhausted<T, E>(tries: int, delay: int, backoff: int,
                                           attempt: nat -> Outcome<T, E>, catches: E -> bool)
    requires forall k: nat :: k < MaxCalls(tries) ==> CaughtFailure(attempt, catches, k)
    ensures var r := Spec(tries, delay, backoff, attempt, catches);
      r.calls == MaxCalls(tries) && r.result == attempt(MaxCalls(tries) - 1) && r.result.Raised?
  {
    LoopFacts(tries, delay, backoff, 0, attempt, catches);
    var r := Spec(tries, delay, backoff, attempt, catches);
    assert CaughtFailure(attempt, catches, r.calls - 1);
    assert CaughtFailure(attempt, catches, MaxCalls(tries) - 1);
  }

  /**
   * A wrapper that catches every exception its function raises, around one that never returns
   * normally: it never returns either. Every call but the last raised, the i-th
   * sleep is `delay_s * backoff ** i`, and it stops before `max(tries, 1)` calls
   * only in a call that never came back.
   */
  lemma CatchingAllAroundNoReturn<T, E>(tries: int, delay: int, backoff: int,
                                        attempt: nat -> Outcome<T, E>, catches: E -> bool)
    requires forall k: nat :: attempt(k).Raised? ==> catches(attempt(k).error)
    requires forall k: nat :: !attempt(k).Returned?
    ensures var r := Spec(tries, delay, backoff, attempt, catches);
      && !r.result.Returned?
      && 1 <= r.calls <= MaxCalls(tries) && r.result == attempt(r.calls - 1)
      && (forall k :: 0 <= k < r.calls - 1 ==> attempt(k).Raised?)
      && (r.calls < MaxCalls(tries) ==> r.result.Blocked?)
      && |r.sleeps| == r.calls - 1
      && (forall i :: 0 <= i < |r.sleeps| ==> r.sleeps[i] == delay * Pow(backoff, i))
  {
    LoopFacts(tries, delay, backoff, 0, attempt, catches);
    var r := Spec(tries, delay, backoff, attempt, catches);
    forall k | 0 <= k < r.calls - 1 ensures attempt(k).Raised? {
      assert CaughtFailure(attempt, catches, k);
    }
    var last := attempt(r.calls - 1);
    assert !last.Returned?;
    if r.calls < MaxCalls(tries) {
      assert !CaughtFailure(attempt, catches, r.calls - 1);
      assert !last.Raised?;
    }
  }
}
