/**
  LatencyWorkload (src/common/utility/LatencyWorkload.cs): every call is timed
  and its TotalMilliseconds added to the shared `_latency` metric, failed calls
  included; failures also increment `_errors`. The final report gives
  `_latency.Count` as the number of operations.
*/
module LatencyWorkload {
  import opened Wrappers
  import opened Outcomes
  import opened Platform
  import opened Retry
  import opened LatencyLoop
  import Metrics

  const KeysPerTask: int := 10000
  const MinWorkloadDelayInMs: int := 500
  const MaxWorkloadDelayInMs: int := 1500

  /** The `_latency` samples and the `_errors` counter. */
  datatype Record = Record(samples: seq<real>, errors: int)

  /**
    What one iteration adds: a success adds its duration; a failure adds its
    duration and an error; a success whose delay then fails adds its duration
    twice (once as a success, once in the handler, with the stopwatch already
    stopped) and an error.
  */
  function Recorded(r: Record, it: Iteration): Record
  {
    match it
    case Completed(elapsed, _) => Record(r.samples + [TotalMilliseconds(elapsed)], r.errors)
    case CompletedThenStop(elapsed) => Record(r.samples + [TotalMilliseconds(elapsed)], r.errors)
    case CompletedThenFailed(elapsed, _, _) =>
      Record(r.samples + [TotalMilliseconds(elapsed), TotalMilliseconds(elapsed)], r.errors + 1)
    case FailedCall(_, elapsed, _) => Record(r.samples + [TotalMilliseconds(elapsed)], r.errors + 1)
    case _ => r
  }

  function RecordedAll(r: Record, its: seq<Iteration>): Record
    decreases |its|
  {
    if its == [] then r else Recorded(RecordedAll(r, its[..|its| - 1]), its[|its| - 1])
  }

  lemma RecordedAllSnoc(r: Record, its: seq<Iteration>, it: Iteration)
    ensures RecordedAll(r, its + [it]) == Recorded(RecordedAll(r, its), it)
  {
    assert (its + [it])[..|its|] == its;
  }

  /** The calls that returned normally. */
  function Completions(its: seq<Iteration>): nat
    decreases |its|
  {
    if its == [] then 0
    else Completions(its[1..]) + (if its[0].Completed? || its[0].CompletedThenStop? || its[0].CompletedThenFailed? then 1 else 0)
  }

  /** The iterations that went through the failure handler without seeing cancellation. */
  function Failures(its: seq<Iteration>): nat
    decreases |its|
  {
    if its == [] then 0
    else Failures(its[1..]) + (if its[0].FailedCall? || its[0].CompletedThenFailed? then 1 else 0)
  }

  lemma {:induction false} CountsSplit(its: seq<Iteration>, it: Iteration)
    ensures Completions(its + [it]) == Completions(its) + Completions([it])
    ensures Failures(its + [it]) == Failures(its) + Failures([it])
    decreases |its|
  {
    if its != [] {
      assert (its + [it])[1..] == its[1..] + [it];
      CountsSplit(its[1..], it);
    }
  }

  /**
    The accounting behind the final report: `_errors` grows by the number of
    handled failures, and `_latency.Count`, reported as the operation count,
    by the number of calls that returned plus the number of handled failures.
    Cancelled failures and key faults record nothing.
  */
  lemma {:induction false} SamplesCountCallsAndErrors(r: Record, its: seq<Iteration>)
    ensures RecordedAll(r, its).errors == r.errors + Failures(its)
    ensures |RecordedAll(r, its).samples| == |r.samples| + Completions(its) + Failures(its)
    ensures RecordedAll(r, its).samples[..|r.samples|] == r.samples
    decreases |its|
  {
    if its != [] {
      var n := |its|;
      SamplesCountCallsAndErrors(r, its[..n - 1]);
      CountsSplit(its[..n - 1], its[n - 1]);
      assert its[..n - 1] + [its[n - 1]] == its;
    }
  }

  /**
    A call that succeeds but whose delay cannot be drawn is counted twice in
    `_latency.Count` (once as an operation, once with the error), with the same
    duration both times.
  */
  lemma DelayFailureCountsCallTwice(r: Record, elapsed: nat, failure: Failure, cutShort: bool)
    ensures Completions([CompletedThenFailed(elapsed, failure, cutShort)]) == 1
    ensures Failures([CompletedThenFailed(elapsed, failure, cutShort)]) == 1
    ensures Recorded(r, CompletedThenFailed(elapsed, failure, cutShort)).samples
         == r.samples + [TotalMilliseconds(elapsed), TotalMilliseconds(elapsed)]
  {
  }

  class LatencyWorkload {
    const workloadName: string
    const keysPerTask: int
    const minWorkloadDelayInMs: int
    const maxWorkloadDelayInMs: int
    /** The `_latency` metric, named "latency". */
    const latency: Metrics.Metric
    var errors: int

    function Current(): Record
      reads this, latency
    {
      Record(latency.samples, errors)
    }

    /** The settings of the worker with the given task id. */
    function ConfigFor(taskId: int): Config
    {
      Config(Some(KeyRangeOf(taskId, keysPerTask)), minWorkloadDelayInMs, maxWorkloadDelayInMs)
    }

    constructor (workloadName: string, keysPerTask: int, minWorkloadDelayInMs: int, maxWorkloadDelayInMs: int)
      ensures this.workloadName == workloadName && this.keysPerTask == keysPerTask
      ensures this.minWorkloadDelayInMs == minWorkloadDelayInMs && this.maxWorkloadDelayInMs == maxWorkloadDelayInMs
      ensures fresh(latency) && latency.name == "latency"
      ensures Current() == Record([], 0)
    {
      this.workloadName := workloadName;
      this.keysPerTask := keysPerTask;
      this.minWorkloadDelayInMs := minWorkloadDelayInMs;
      this.maxWorkloadDelayInMs := maxWorkloadDelayInMs;
      latency := new Metrics.Metric("latency");
      errors := 0;
    }

    /**
      The C# constructor: a null logger or workload name is an
      ArgumentNullException, the logger being checked first. An omitted
      (None) optional argument takes its default: KeysPerTask,
      MinWorkloadDelayInMs or MaxWorkloadDelayInMs.
    */
    static method Create(logger: Option<Logger>, workloadName: Option<string>,
                         keysPerTask: Option<int>, minWorkloadDelayInMs: Option<int>, maxWorkloadDelayInMs: Option<int>)
      returns (r: Result<LatencyWorkload, ArgumentNull>)
      ensures logger.None? ==> r == Failure(ArgumentNull("logger"))
      ensures logger.Some? && workloadName.None? ==> r == Failure(ArgumentNull("workloadName"))
      ensures logger.Some? && workloadName.Some? ==>
        && r.Success? && fresh(r.value) && fresh(r.value.latency)
        && r.value.workloadName == workloadName.value
        && r.value.keysPerTask == (if keysPerTask.Some? then keysPerTask.value else KeysPerTask)
        && r.value.minWorkloadDelayInMs == (if minWorkloadDelayInMs.Some? then minWorkloadDelayInMs.value else MinWorkloadDelayInMs)
        && r.value.maxWorkloadDelayInMs == (if maxWorkloadDelayInMs.Some? then maxWorkloadDelayInMs.value else MaxWorkloadDelayInMs)
        && r.value.Current() == Record([], 0)
    {
      if logger.None? {
        return Failure(ArgumentNull("logger"));
      }
      if workloadName.None? {
        return Failure(ArgumentNull("workloadName"));
      }
      var keys := if keysPerTask.Some? then keysPerTask.value else KeysPerTask;
      var minDelay := if minWorkloadDelayInMs.Some? then minWorkloadDelayInMs.value else MinWorkloadDelayInMs;
      var maxDelay := if maxWorkloadDelayInMs.Some? then maxWorkloadDelayInMs.value else MaxWorkloadDelayInMs;
      var w := new LatencyWorkload(workloadName.value, keys, minDelay, maxDelay);
      return Success(w);
    }

    /** Records one iteration and moves the worker's RetryHandler as the loop body does. */
    method Perform(retry: Retry.RetryHandler, it: Iteration) returns (next: Next)
      requires retry.Valid()
      modifies this, latency, retry
      ensures retry.Valid()
      ensures Current() == Recorded(old(Current()), it)
      ensures retry.retryTime == After(old(retry.retryTime), it).retryTime
      ensures next == After(old(retry.retryTime), it).next
    {
      match it {
        case KeyFault(failure) =>
          next := Fault(failure);
        case Completed(elapsed, wait) =>
          var _ := retry.Reset();
          var _ := latency.AddSample(TotalMilliseconds(elapsed));
          next := Proceed(wait);
        case CompletedThenStop(elapsed) =>
          var _ := retry.Reset();
          var _ := latency.AddSample(TotalMilliseconds(elapsed));
          next := Stop;
        case CompletedThenFailed(elapsed, _, cutShort) =>
          var _ := retry.Reset();
          var _ := latency.AddSample(TotalMilliseconds(elapsed));
          var retryAfter := retry.Retry();
          errors := errors + 1;
          var _ := latency.AddSample(TotalMilliseconds(elapsed));
          next := if cutShort then Fault(TaskCanceled) else Proceed(retryAfter);
        case FailedCall(_, elapsed, cutShort) =>
          var retryAfter := retry.Retry();
          errors := errors + 1;
          var _ := latency.AddSample(TotalMilliseconds(elapsed));
          next := if cutShort then Fault(TaskCanceled) else Proceed(retryAfter);
        case CancelledFailure =>
          next := Stop;
      }
    }

    /**
      CreateWorkerAsync for task `taskId` over a script of attempts: returns the
      waits between iterations and the exception that ended the worker, if any.
    */
    method CreateWorker(taskId: int, script: seq<Attempt>) returns (waits: seq<nat>, fault: Option<Failure>)
      modifies this, latency
      ensures var t := Run(ConfigFor(taskId), InitialRetryTime, script);
        && waits == t.waits && fault == t.fault
        && Current() == RecordedAll(old(Current()), t.iterations)
    {
      var config := ConfigFor(taskId);
      ghost var full := Run(config, InitialRetryTime, script);
      var retry := new Retry.RetryHandler();
      waits := [];
      ghost var its: seq<Iteration> := [];
      StartAndFinish(config, full, its, waits, InitialRetryTime, script);
      var i := 0;
      while i < |script|
        invariant 0 <= i <= |script|
        invariant retry.Valid()
        invariant Resumes(config, full, its, waits, retry.retryTime, script[i..])
        invariant Current() == RecordedAll(old(Current()), its)
      {
        Advance(config, full, its, waits, retry.retryTime, script[i..]);
        assert script[i..][0] == script[i] && script[i..][1..] == script[i + 1..];
        var it := Iterate(config, script[i]);
        var next := Perform(retry, it);
        RecordedAllSnoc(old(Current()), its, it);
        its := its + [it];
        match next {
          case Proceed(wait) =>
            waits := waits + [wait];
          case Stop =>
            return waits, None;
          case Fault(failure) =>
            return waits, Some(failure);
        }
        i := i + 1;
      }
      assert script[i..] == [];
      StartAndFinish(config, full, its, waits, retry.retryTime, script[i..]);
      return waits, None;
    }
  }
}
