/**
  RetryHandler (src/Common/Utility/RetryHandler.cs): capped exponential backoff.
  The retry time starts at one second; Retry() hands out the current value and
  doubles it, saturating at thirty seconds; Reset() puts it back to one second.
  Times are in ticks.
*/
module Retry {
  import opened Platform

  const InitialRetryTime: nat := FromSeconds(1)
  const MaxRetryTime: nat := FromSeconds(30)

  /** The retry time after one Retry(): doubled, and capped at MaxRetryTime. */
  function Doubled(t: nat): (r: nat)
    ensures t <= MaxRetryTime ==> t <= r <= MaxRetryTime
    ensures r < MaxRetryTime ==> r == t + t
  {
    if t + t > MaxRetryTime then MaxRetryTime else t + t
  }

  /** The bounds RetryTime never leaves. */
  ghost predicate InRange(t: nat) {
    InitialRetryTime <= t <= MaxRetryTime
  }

  /** The two operations of a RetryHandler, for reasoning about sequences of calls. */
  datatype Call = RetryCall | ResetCall

  /** RetryTime after performing `calls` in order, starting from `t`. */
  function AfterCalls(t: nat, calls: seq<Call>): nat
    decreases |calls|
  {
    if calls == [] then t
    else
      var t' := if calls[0] == RetryCall then Doubled(t) else InitialRetryTime;
      AfterCalls(t', calls[1..])
  }

  /** Whatever sequence of Retry/Reset calls is made, RetryTime stays within [1 s, 30 s]. */
  lemma {:induction false} AlwaysInRange(t: nat, calls: seq<Call>)
    requires InRange(t)
    ensures InRange(AfterCalls(t, calls))
    decreases |calls|
  {
    if calls != [] {
      var t' := if calls[0] == RetryCall then Doubled(t) else InitialRetryTime;
      AlwaysInRange(t', calls[1..]);
    }
  }

  /**
    The value returned by the (n+1)-th consecutive Retry() after construction or
    after a Reset().
  */
  function Backoff(n: nat): nat
  {
    if n == 0 then InitialRetryTime else Doubled(Backoff(n - 1))
  }

  function Pow2(n: nat): (r: nat)
    ensures r >= 1
  {
    if n == 0 then 1 else 2 * Pow2(n - 1)
  }

  /**
    Consecutive Retry() calls hand out 1, 2, 4, 8, 16 seconds and then 30
    seconds for ever.
  */
  lemma {:induction false} BackoffSequence(n: nat)
    ensures Backoff(n) == if n < 5 then InitialRetryTime * Pow2(n) else MaxRetryTime
  {
    assert InitialRetryTime == 10_000_000 && MaxRetryTime == 300_000_000;
    if n > 0 {
      BackoffSequence(n - 1);
      if n < 5 {
        SmallPow2(n - 1);
        assert Backoff(n - 1) == 10_000_000 * Pow2(n - 1);
        assert Pow2(n) == 2 * Pow2(n - 1);
      } else if n == 5 {
        assert Pow2(4) == 16;
      }
    }
  }

  lemma {:induction false} SmallPow2(n: nat)
    requires n < 4
    ensures Pow2(n) <= 8
  {
    if n > 0 { SmallPow2(n - 1); }
  }

  /** The delays handed out by consecutive Retry() calls never decrease. */
  lemma {:induction false} BackoffNonDecreasing(m: nat, n: nat)
    requires m <= n
    ensures InRange(Backoff(n))
    ensures Backoff(m) <= Backoff(n)
    decreases n
  {
    if n > 0 {
      if m < n {
        BackoffNonDecreasing(m, n - 1);
      } else {
        BackoffNonDecreasing(n - 1, n - 1);
      }
    }
  }

  /**
    The handler one worker owns. `retryTime` is the RetryTime property (in
    ticks); Valid() is its invariant.
  */
  class RetryHandler {
    var retryTime: nat

    ghost predicate Valid()
      reads this
    {
      InRange(retryTime)
    }

    /** A fresh handler starts at one second. */
    constructor ()
      ensures Valid()
      ensures retryTime == InitialRetryTime
    {
      retryTime := InitialRetryTime;
    }

    /** Hands out the current retry time, then doubles it up to the cap. */
    method Retry() returns (delay: nat)
      requires Valid()
      modifies this
      ensures Valid()
      ensures delay == old(retryTime)
      ensures retryTime == Doubled(old(retryTime))
      ensures old(retryTime) <= retryTime
    {
      delay := retryTime;
      retryTime := retryTime + retryTime;
      if retryTime > MaxRetryTime {
        retryTime := MaxRetryTime;
      }
    }

    /** Back to one second, whatever the state was; returns the new value. */
    method Reset() returns (delay: nat)
      modifies this
      ensures Valid()
      ensures retryTime == InitialRetryTime && delay == InitialRetryTime
    {
      retryTime := InitialRetryTime;
      delay := retryTime;
    }
  }
}
