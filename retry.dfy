/**
 * The `retry` decorator: the wrapped function is called until it returns, raises an exception
 * other than the one being retried, or the attempt budget is spent, and then once more
 * unconditionally. Attempts are given as a function from the call number (0-based) to what
 * that call does; sleeping is recorded as the list of delays instead of being performed.
 */
module Retry {

  /** What one call of the wrapped function does. */
  datatype Outcome<+T, +E> =
    | Returned(value: T)     // the call returned
    | Checked(error: E)      // the call raised an instance of ExceptionToCheck
    | Unchecked(error: E)    // the call raised any other exception

  /** What the decorated call does: its final outcome, the number of calls and the sleeps. */
  datatype Run<+T, +E> = Run(outcome: Outcome<T, E>, calls: nat, sleeps: seq<nat>)

  function Pow(b: nat, k: nat): nat {
    if k == 0 then 1 else b * Pow(b, k - 1)
  }

  /** 1 + b + ... + b^(n-1) */
  function GeomSum(b: nat, n: nat): nat {
    if n == 0 then 0 else 1 + b * GeomSum(b, n - 1)
  }

  function Sum(s: seq<nat>): nat {
    if s == [] then 0 else s[0] + Sum(s[1..])
  }

  /** The most calls the decorated function makes: the loop's `tries - 1` plus the last one. */
  function CallBudget(tries: int): nat {
    if tries > 1 then tries else 1
  }

  function After<T, E>(calls: nat, sleeps: seq<nat>, r: Run<T, E>): Run<T, E> {
    Run(r.outcome, calls + r.calls, sleeps + r.sleeps)
  }

  /**
   * The decorated call with `tries` attempts left in the loop, the current delay, and call
   * numbers starting at `first`.
   */
  function Retried<T, E>(tries: int, delay: nat, backoff: nat, attempt: nat -> Outcome<T, E>, first: nat): (r: Run<T, E>)
    ensures 1 <= r.calls <= CallBudget(tries)
    decreases if tries > 1 then tries else 0
  {
    if tries <= 1 then Run(attempt(first), 1, [])
    else if attempt(first).Checked? then
      After(1, [delay], Retried(tries - 1, delay * backoff, backoff, attempt, first + 1))
    else Run(attempt(first), 1, [])
  }

  /** Everything the decorator promises about one decorated call. */
  ghost predicate WellShaped<T, E>(tries: int, delay: nat, backoff: nat, attempt: nat -> Outcome<T, E>, first: nat, r: Run<T, E>) {
    && 1 <= r.calls <= CallBudget(tries)
    // the result is the last call's own outcome: returned value or exception, unchanged
    && r.outcome == attempt(first + r.calls - 1)
    // every earlier call raised the retried exception
    && (forall j :: first <= j < first + r.calls - 1 ==> attempt(j).Checked?)
    // the decorator stops early only on an outcome it does not retry
    && (r.calls < CallBudget(tries) ==> !attempt(first + r.calls - 1).Checked?)
    // one sleep after each failed call of the loop, growing by `backoff`
    && |r.sleeps| == r.calls - 1
    && (forall i :: 0 <= i < |r.sleeps| ==> r.sleeps[i] == delay * Pow(backoff, i))
  }

  lemma {:induction false} RetriedShape<T, E>(tries: int, delay: nat, backoff: nat, attempt: nat -> Outcome<T, E>, first: nat)
    ensures WellShaped(tries, delay, backoff, attempt, first, Retried(tries, delay, backoff, attempt, first))
    decreases if tries > 1 then tries else 0
  {
    if tries > 1 && attempt(first).Checked? {
      var rest := Retried(tries - 1, delay * backoff, backoff, attempt, first + 1);
      RetriedShape(tries - 1, delay * backoff, backoff, attempt, first + 1);
      var r := Retried(tries, delay, backoff, attempt, first);
      assert r.sleeps == [delay] + rest.sleeps;
      forall i | 0 <= i < |r.sleeps|
        ensures r.sleeps[i] == delay * Pow(backoff, i)
      {
        if i > 0 {
          assert r.sleeps[i] == rest.sleeps[i - 1] == (delay * backoff) * Pow(backoff, i - 1);
          assert (delay * backoff) * Pow(backoff, i - 1) == delay * (backoff * Pow(backoff, i - 1));
        }
      }
    }
  }

  /** If call k is the first one not to raise the retried exception, it decides the result. */
  lemma {:induction false} FirstAnswerWins<T, E>(tries: int, delay: nat, backoff: nat, attempt: nat -> Outcome<T, E>, first: nat, k: nat)
    requires k < CallBudget(tries)
    requires forall j :: first <= j < first + k ==> attempt(j).Checked?
    requires !attempt(first + k).Checked?
    ensures var r := Retried(tries, delay, backoff, attempt, first);
      r.calls == k + 1 && r.outcome == attempt(first + k) && |r.sleeps| == k
    decreases k
  {
    if k > 0 {
      FirstAnswerWins(tries - 1, delay * backoff, backoff, attempt, first + 1, k - 1);
    }
  }

  /** When every call of the loop raises the retried exception, the last call is still made. */
  lemma {:induction false} LastAttemptAlwaysMade<T, E>(tries: int, delay: nat, backoff: nat, attempt: nat -> Outcome<T, E>, first: nat)
    requires forall j :: first <= j < first + CallBudget(tries) - 1 ==> attempt(j).Checked?
    ensures var r := Retried(tries, delay, backoff, attempt, first);
      r.calls == CallBudget(tries) && r.outcome == attempt(first + CallBudget(tries) - 1)
    decreases if tries > 1 then tries else 0
  {
    if tries > 1 {
      LastAttemptAlwaysMade(tries - 1, delay * backoff, backoff, attempt, first + 1);
    }
  }

  /** The total time slept is delay * (1 + backoff + ... + backoff^(m-1)) for m sleeps. */
  lemma {:induction false} TotalSleep<T, E>(tries: int, delay: nat, backoff: nat, attempt: nat -> Outcome<T, E>, first: nat)
    ensures var r := Retried(tries, delay, backoff, attempt, first);
      Sum(r.sleeps) == delay * GeomSum(backoff, |r.sleeps|)
    decreases if tries > 1 then tries else 0
  {
    if tries > 1 && attempt(first).Checked? {
      var rest := Retried(tries - 1, delay * backoff, backoff, attempt, first + 1);
      TotalSleep(tries - 1, delay * backoff, backoff, attempt, first + 1);
      var r := Retried(tries, delay, backoff, attempt, first);
      var m := |rest.sleeps|;
      assert r.sleeps == [delay] + rest.sleeps;
      assert ([delay] + rest.sleeps)[1..] == rest.sleeps;
      calc {
        Sum(r.sleeps);
        delay + Sum(rest.sleeps);
        delay + (delay * backoff) * GeomSum(backoff, m);
        { assert (delay * backoff) * GeomSum(backoff, m) == delay * (backoff * GeomSum(backoff, m)); }
        delay * (1 + backoff * GeomSum(backoff, m));
        delay * GeomSum(backoff, m + 1);
      }
    }
  }

  /** One retried call: the run so far absorbs the failed call and its sleep. */
  lemma RetriedStep<T, E>(tries: int, delay: nat, backoff: nat, attempt: nat -> Outcome<T, E>, calls: nat, sleeps: seq<nat>)
    requires tries > 1 && attempt(calls).Checked?
    ensures After(calls, sleeps, Retried(tries, delay, backoff, attempt, calls))
      == After(calls + 1, sleeps + [delay], Retried(tries - 1, delay * backoff, backoff, attempt, calls + 1))
  {
    var rest := Retried(tries - 1, delay * backoff, backoff, attempt, calls + 1);
    assert sleeps + ([delay] + rest.sleeps) == (sleeps + [delay]) + rest.sleeps;
  }

  /** The call that is not retried ends the run. */
  lemma RetriedStop<T, E>(tries: int, delay: nat, backoff: nat, attempt: nat -> Outcome<T, E>, calls: nat, sleeps: seq<nat>)
    requires tries <= 1 || !attempt(calls).Checked?
    ensures After(calls, sleeps, Retried(tries, delay, backoff, attempt, calls)) == Run(attempt(calls), calls + 1, sleeps)
  {
    assert sleeps + [] == sleeps;
  }

  /** The decorator's loop, proved against `Retried`. */
  method RetryCall<T, E>(tries: int, delay: nat, backoff: nat, attempt: nat -> Outcome<T, E>)
      returns (outcome: Outcome<T, E>, calls: nat, sleeps: seq<nat>)
    ensures Run(outcome, calls, sleeps) == Retried(tries, delay, backoff, attempt, 0)
    ensures 1 <= calls <= CallBudget(tries)
    ensures outcome == attempt(calls - 1)
    ensures forall j :: 0 <= j < calls - 1 ==> attempt(j).Checked?
    ensures calls < CallBudget(tries) ==> !attempt(calls - 1).Checked?
    ensures |sleeps| == calls - 1
    ensures forall i :: 0 <= i < |sleeps| ==> sleeps[i] == delay * Pow(backoff, i)
  {
    var mtries: int, mdelay: nat := tries, delay;
    calls, sleeps := 0, [];
    // `try_one_last_time` is never cleared (the assignment after `return` cannot run), so the
    // final call below always happens once the loop ends.
    while mtries > 1
      invariant if tries > 1 then calls + mtries == tries && mtries >= 1 else calls == 0 && mtries == tries
      invariant Retried(tries, delay, backoff, attempt, 0)
        == After(calls, sleeps, Retried(mtries, mdelay, backoff, attempt, calls))
      decreases mtries
    {
      var o := attempt(calls);
      if !o.Checked? {
        outcome, calls := o, calls + 1;
        RetriedShape(tries, delay, backoff, attempt, 0);
        return;
      }
      RetriedStep(mtries, mdelay, backoff, attempt, calls, sleeps);
      calls := calls + 1;
      sleeps := sleeps + [mdelay];
      mtries := mtries - 1;
      mdelay := mdelay * backoff;
    }
    outcome := attempt(calls);
    calls := calls + 1;
    RetriedShape(tries, delay, backoff, attempt, 0);
  }

  /**
   * The policy the source applies to command execution (`tries=9, delay=8, backoff=2`): a command
   * that keeps failing is run 9 times, after sleeps of 8, 16, ..., 1024 seconds, 2040 in all.
   */
  lemma SourcePolicyExhausted<T, E>(attempt: nat -> Outcome<T, E>)
    requires forall j :: 0 <= j < 8 ==> attempt(j).Checked?
    ensures var r := Retried(9, 8, 2, attempt, 0);
      && r.calls == 9 && r.outcome == attempt(8)
      && r.sleeps == [8, 16, 32, 64, 128, 256, 512, 1024]
      && Sum(r.sleeps) == 2040
  {
    var r := Retried(9, 8, 2, attempt, 0);
    LastAttemptAlwaysMade(9, 8, 2, attempt, 0);
    RetriedShape(9, 8, 2, attempt, 0);
    TotalSleep(9, 8, 2, attempt, 0);
    PolicySleeps(r.sleeps);
  }

  /** The eight sleeps of the source's policy, and their total. */
  lemma PolicySleeps(sleeps: seq<nat>)
    requires |sleeps| == 8 && forall i :: 0 <= i < |sleeps| ==> sleeps[i] == 8 * Pow(2, i)
    ensures sleeps == [8, 16, 32, 64, 128, 256, 512, 1024]
    ensures 8 * GeomSum(2, |sleeps|) == 2040
  {
    assert Pow(2, 1) == 2 && Pow(2, 2) == 4 && Pow(2, 3) == 8 && Pow(2, 4) == 16;
    assert Pow(2, 5) == 32 && Pow(2, 6) == 64 && Pow(2, 7) == 128;
    assert GeomSum(2, 8) == 255;
  }
}
