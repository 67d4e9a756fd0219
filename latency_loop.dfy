/**
  The worker loop shared by LatencyWorkload (src/common/utility/LatencyWorkload.cs)
  and the two Workload classes (src/Common/Utility/Workload.cs and
  src/Latency/Common/Latency.Common/Utility/Workload.cs). Each iteration
  optionally draws a key from the task's own range (outside the try block, so a
  failing draw ends the worker), invokes the operation, and on success resets
  the backoff, records the call and waits a random delay; a failure, including
  one raised while drawing or waiting that delay, is recorded and followed by a
  backoff wait, unless cancellation has been requested, in which case the
  worker returns. The backoff wait sits in the failure handler itself, so
  cancellation during it ends the worker with TaskCanceledException, whereas
  cancellation during the delay after a success is caught and ends it
  normally. The engines differ only in how they record calls.
*/
module LatencyLoop {
  import opened Wrappers
  import opened Outcomes
  import opened Platform
  import opened Retry

  // ----- non-conflicting keys -----

  datatype KeyRange = KeyRange(minKey: int, maxKey: int)

  /** minKey = taskId * keysPerTask and maxKey = (taskId + 1) * keysPerTask, in unchecked int arithmetic. */
  function KeyRangeOf(taskId: int, keysPerTask: int): KeyRange
  {
    KeyRange(Wrap32(taskId * keysPerTask), Wrap32((taskId + 1) * keysPerTask))
  }

  /** random.Next(minKey, maxKey). */
  function DrawKey(u: nat, keys: KeyRange): Result<int, Failure>
  {
    NextRange(u, keys.minKey, keys.maxKey)
  }

  lemma MulMonotonic(a: int, b: int, k: int)
    requires a <= b && 0 <= k
    ensures a * k <= b * k
  {
  }

  /**
    With at least one key per task, and when the task's range does not
    overflow an int, every key the task draws lies in
    [taskId * keysPerTask, (taskId + 1) * keysPerTask).
  */
  lemma KeyInTaskRange(u: nat, taskId: int, keysPerTask: int)
    requires 0 <= taskId && 0 < keysPerTask && (taskId + 1) * keysPerTask <= Int32Max
    ensures DrawKey(u, KeyRangeOf(taskId, keysPerTask)).Success?
    ensures taskId * keysPerTask <= DrawKey(u, KeyRangeOf(taskId, keysPerTask)).value < (taskId + 1) * keysPerTask
  {
    MulMonotonic(0, taskId, keysPerTask);
    MulMonotonic(taskId, taskId + 1, keysPerTask);
  }

  /**
    With at least one key per task, and when both tasks' ranges fit an int,
    two different tasks never draw the same key, whatever their random draws.
  */
  lemma KeysDisjoint(u1: nat, u2: nat, task1: int, task2: int, keysPerTask: int)
    requires 0 <= task1 && 0 <= task2 && task1 != task2 && 0 < keysPerTask
    requires (task1 + 1) * keysPerTask <= Int32Max && (task2 + 1) * keysPerTask <= Int32Max
    ensures DrawKey(u1, KeyRangeOf(task1, keysPerTask)) != DrawKey(u2, KeyRangeOf(task2, keysPerTask))
  {
    KeyInTaskRange(u1, task1, keysPerTask);
    KeyInTaskRange(u2, task2, keysPerTask);
    if task1 < task2 {
      MulMonotonic(task1 + 1, task2, keysPerTask);
    } else {
      MulMonotonic(task2 + 1, task1, keysPerTask);
    }
  }

  /**
    Without the fit condition the ranges can coincide: with 2^30 keys per task,
    the unchecked products make tasks 2 and 6 share one range.
  */
  lemma RangesCollideWhenProductsWrap()
    ensures KeyRangeOf(2, 0x4000_0000) == KeyRangeOf(6, 0x4000_0000)
    ensures KeyRangeOf(2, 0x4000_0000) == KeyRange(Int32Min, -0x4000_0000)
  {
  }

  // ----- one iteration -----

  /** The engine's settings: its key range, if it draws keys, and the delay bounds in ms. */
  datatype Config = Config(keys: Option<KeyRange>, minDelayMs: int, maxDelayMs: int)

  /** What one iteration of the loop turned out to be. */
  datatype Iteration =
    | KeyFault(failure: Failure)                          // the key draw threw; the worker ends with it
    | Completed(elapsed: nat, wait: nat)                  // the call succeeded, then a delay of `wait` ticks
    | CompletedThenStop(elapsed: nat)                     // the call succeeded, then the worker saw cancellation
    | CompletedThenFailed(elapsed: nat, failure: Failure, cutShort: bool) // the call succeeded, then drawing or waiting the delay threw
    | FailedCall(failure: Failure, elapsed: nat, cutShort: bool)          // the call threw
    | CancelledFailure                                    // the call threw after cancellation was requested

  /**
    One iteration. A delay that fails to draw (minimum above maximum) or that
    Task.Delay rejects raises inside the try block, so the handler runs after the
    success has been recorded; an infinite delay (-1) lasts until cancellation,
    after which the handler returns, and so does a finite delay that
    cancellation cuts short. `cutShort` records that cancellation cuts short the
    backoff wait that follows a handled failure.
  */
  function Iterate(config: Config, a: Attempt): Iteration
  {
    var key := if config.keys.None? then Success(0) else DrawKey(a.keyDraw, config.keys.value);
    if key.Failure? then KeyFault(key.error)
    else match a.outcome
      case Failed(failure, elapsed) =>
        if a.cancelled then CancelledFailure else FailedCall(failure, elapsed, a.waitCancelled)
      case Succeeded(_, elapsed) =>
        var delay := NextRange(a.delayDraw, config.minDelayMs, config.maxDelayMs);
        var wait: Result<Delay, Failure> := if delay.Failure? then Failure(delay.error) else TaskDelay(delay.value);
        if a.cancelled then CompletedThenStop(elapsed)
        else match wait
          case Failure(failure) => CompletedThenFailed(elapsed, failure, a.waitCancelled)
          case Success(Forever) => CompletedThenStop(elapsed)
          case Success(Wait(ticks)) => if a.waitCancelled then CompletedThenStop(elapsed) else Completed(elapsed, ticks)
  }

  /** The backoff state and what the worker does after an iteration. */
  datatype Transition = Transition(retryTime: nat, next: Next)

  /**
    Reset() after every success; Retry() after every recorded failure, whose
    pre-doubling value is the wait. A failure right after a success therefore
    waits one second. A backoff wait cut short ends the worker with
    TaskCanceledException.
  */
  function After(retryTime: nat, it: Iteration): Transition
  {
    match it
    case KeyFault(failure) => Transition(retryTime, Fault(failure))
    case Completed(_, wait) => Transition(InitialRetryTime, Proceed(wait))
    case CompletedThenStop(_) => Transition(InitialRetryTime, Stop)
    case CompletedThenFailed(_, _, cutShort) => Transition(Doubled(InitialRetryTime), HandlerWait(cutShort, InitialRetryTime))
    case FailedCall(_, _, cutShort) => Transition(Doubled(retryTime), HandlerWait(cutShort, retryTime))
    case CancelledFailure => Transition(retryTime, Stop)
  }

  /**
    With delay bounds 0 <= min < max, a successful call that has not seen
    cancellation waits a whole number of milliseconds in [min, max) and resets
    the backoff.
  */
  lemma DelayWithinBounds(config: Config, retryTime: nat, a: Attempt)
    requires 0 <= config.minDelayMs < config.maxDelayMs
    requires Iterate(config, a).Completed?
    ensures FromMilliseconds(config.minDelayMs) <= Iterate(config, a).wait < FromMilliseconds(config.maxDelayMs)
    ensures Iterate(config, a).wait % TicksPerMillisecond == 0
    ensures After(retryTime, Iterate(config, a)) == Transition(InitialRetryTime, Proceed(Iterate(config, a).wait))
  {
  }

  /**
    With the minimum delay above the maximum every successful call that has not
    seen cancellation also goes through the failure handler: recorded as an
    error and followed by a one-second wait, which cancellation can cut short.
  */
  lemma MisorderedDelayBoundsFailEverySuccess(config: Config, retryTime: nat, a: Attempt)
    requires config.minDelayMs > config.maxDelayMs
    requires a.outcome.Succeeded? && !a.cancelled
    requires config.keys.None? || config.keys.value.minKey <= config.keys.value.maxKey
    ensures Iterate(config, a) == CompletedThenFailed(a.outcome.elapsed, ArgumentOutOfRange, a.waitCancelled)
    ensures After(retryTime, Iterate(config, a)).next == HandlerWait(a.waitCancelled, InitialRetryTime)
  {
  }

  /** An iteration keeps the backoff within [1 s, 30 s]. */
  lemma AfterKeepsBackoffInRange(retryTime: nat, it: Iteration)
    requires InRange(retryTime)
    ensures InRange(After(retryTime, it).retryTime)
  {
  }

  // ----- a worker's run -----

  /**
    The iterations a worker performs, the waits between them, and the
    exception that ended it, if any.
  */
  datatype Trace = Trace(iterations: seq<Iteration>, waits: seq<nat>, fault: Option<Failure>)

  function Run(config: Config, retryTime: nat, script: seq<Attempt>): Trace
    decreases |script|
  {
    if script == [] then Trace([], [], None)
    else
      var it := Iterate(config, script[0]);
      var t := After(retryTime, it);
      match t.next
      case Proceed(wait) =>
        var rest := Run(config, t.retryTime, script[1..]);
        Trace([it] + rest.iterations, [wait] + rest.waits, rest.fault)
      case Stop => Trace([it], [], None)
      case Fault(failure) => Trace([it], [], Some(failure))
  }

  /**
    A loop that has performed `its` and waited `waits`, and is about to run
    `script` with backoff `retryTime`, ends with the trace `full`.
  */
  ghost predicate Resumes(config: Config, full: Trace, its: seq<Iteration>, waits: seq<nat>, retryTime: nat, script: seq<Attempt>)
  {
    var rest := Run(config, retryTime, script);
    full == Trace(its + rest.iterations, waits + rest.waits, rest.fault)
  }

  /** One step of an engine's loop: what the first iteration leaves to do. */
  lemma Advance(config: Config, full: Trace, its: seq<Iteration>, waits: seq<nat>, retryTime: nat, script: seq<Attempt>)
    requires script != [] && Resumes(config, full, its, waits, retryTime, script)
    ensures var it := Iterate(config, script[0]);
      var t := After(retryTime, it);
      match t.next
        case Proceed(wait) => Resumes(config, full, its + [it], waits + [wait], t.retryTime, script[1..])
        case Stop => full == Trace(its + [it], waits, None)
        case Fault(failure) => full == Trace(its + [it], waits, Some(failure))
  {
    var it := Iterate(config, script[0]);
    var t := After(retryTime, it);
    var rest := Run(config, t.retryTime, script[1..]);
    assert its + [it] + rest.iterations == its + ([it] + rest.iterations);
    match t.next {
      case Proceed(wait) =>
        assert waits + [wait] + rest.waits == waits + ([wait] + rest.waits);
      case Stop =>
        assert waits + [] == waits;
      case Fault(_) =>
        assert waits + [] == waits;
    }
  }

  /** The loop's start and its end at the end of the script. */
  lemma StartAndFinish(config: Config, full: Trace, its: seq<Iteration>, waits: seq<nat>, retryTime: nat, script: seq<Attempt>)
    ensures full == Run(config, retryTime, script) ==> Resumes(config, full, [], [], retryTime, script)
    ensures script == [] && Resumes(config, full, its, waits, retryTime, script) ==> full == Trace(its, waits, None)
  {
    assert its + [] == its && waits + [] == waits;
    var rest := Run(config, retryTime, script);
    assert [] + rest.iterations == rest.iterations && [] + rest.waits == rest.waits;
  }

  /** A handled failure whose backoff wait cancellation cuts short. */
  predicate BackoffCancelled(it: Iteration)
  {
    (it.FailedCall? || it.CompletedThenFailed?) && it.cutShort
  }

  /**
    A worker whose key range is empty the wrong way round (minKey > maxKey)
    ends with ArgumentOutOfRangeException before invoking anything. With a
    well-ordered range or no keys at all, a worker ends with an exception
    exactly when its last iteration is a handled failure whose backoff wait
    cancellation cuts short, and that exception is TaskCanceledException; no
    earlier iteration is such a failure.
  */
  lemma {:induction false} RunFaultsIffKeysMisordered(config: Config, retryTime: nat, script: seq<Attempt>)
    ensures config.keys.Some? && config.keys.value.minKey > config.keys.value.maxKey && script != [] ==>
      Run(config, retryTime, script) == Trace([KeyFault(ArgumentOutOfRange)], [], Some(ArgumentOutOfRange))
    ensures config.keys.None? || config.keys.value.minKey <= config.keys.value.maxKey ==>
      var t := Run(config, retryTime, script);
      && (t.fault.Some? <==> t.iterations != [] && BackoffCancelled(t.iterations[|t.iterations| - 1]))
      && (t.fault.Some? ==> t.fault == Some(TaskCanceled))
      && (forall i :: 0 <= i < |t.iterations| - 1 ==> !BackoffCancelled(t.iterations[i]))
    decreases |script|
  {
    if script != [] {
      var it := Iterate(config, script[0]);
      var t := After(retryTime, it);
      RunFaultsIffKeysMisordered(config, t.retryTime, script[1..]);
      if t.next.Proceed? {
        var rest := Run(config, t.retryTime, script[1..]);
        assert script[1..] == [] ==> rest.iterations == [];
        assert script[1..] != [] ==> rest.iterations != [];
        var its := [it] + rest.iterations;
        assert forall i :: 1 <= i < |its| ==> its[i] == rest.iterations[i - 1];
      }
    }
  }

  /**
    What a worker waits after an iteration: the drawn delay after a completed
    call, one second after a success whose delay failed, and a backoff in
    [1 s, 30 s] after a failed call.
  */
  ghost predicate WaitFollows(it: Iteration, wait: nat)
  {
    match it
    case Completed(_, delay) => wait == delay
    case CompletedThenFailed(_, _, _) => wait == InitialRetryTime
    case FailedCall(_, _, _) => InRange(wait)
    case _ => false
  }

  /**
    Between two iterations there is exactly one wait, and the last iteration is
    not followed by one. From a valid backoff state, each wait is the one its
    iteration calls for.
  */
  lemma {:induction false} WaitsBetweenIterations(config: Config, retryTime: nat, script: seq<Attempt>)
    ensures |Run(config, retryTime, script).iterations| <= |script|
    ensures |Run(config, retryTime, script).waits| == |Run(config, retryTime, script).iterations|
         || |Run(config, retryTime, script).waits| + 1 == |Run(config, retryTime, script).iterations|
    ensures |Run(config, retryTime, script).iterations| < |script| ==>
      |Run(config, retryTime, script).waits| + 1 == |Run(config, retryTime, script).iterations|
    ensures InRange(retryTime) ==> var t := Run(config, retryTime, script);
      forall i :: 0 <= i < |t.waits| ==> WaitFollows(t.iterations[i], t.waits[i])
    decreases |script|
  {
    if script != [] {
      var it := Iterate(config, script[0]);
      var t := After(retryTime, it);
      WaitsBetweenIterations(config, t.retryTime, script[1..]);
      if t.next.Proceed? && InRange(retryTime) {
        AfterKeepsBackoffInRange(retryTime, it);
        var rest := Run(config, t.retryTime, script[1..]);
        var run := Run(config, retryTime, script);
        assert WaitFollows(it, t.next.wait);
        assert forall i :: 1 <= i < |run.waits| ==>
          run.waits[i] == rest.waits[i - 1] && run.iterations[i] == rest.iterations[i - 1];
      }
    }
  }
}
