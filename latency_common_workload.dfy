/**
  Workload (src/Latency/Common/Latency.Common/Utility/Workload.cs): the
  Workload loop without keys (the operation receives the worker's random
  source instead of generated data), logging through the Latency.Common copy
  of LogMetric, which follows the same rule as MetricExtensions.
*/
module LatencyCommonWorkload {
  import opened Wrappers
  import opened Outcomes
  import opened Retry
  import opened LatencyLoop
  import opened MetricExtensions
  import W = Workload

  const MinWorkloadDelayInMs: int := 500
  const MaxWorkloadDelayInMs: int := 1500

  /**
    Without a key draw, whatever its delay bounds, the only exception that can
    end a worker of this workload is the TaskCanceledException of a backoff
    wait that cancellation cuts short, and it ends the worker exactly when its
    last iteration is such a failure.
  */
  lemma FaultsOnlyOnCancelledBackoff(minDelayMs: int, maxDelayMs: int, retryTime: nat, script: seq<Attempt>)
    ensures var t := Run(Config(None, minDelayMs, maxDelayMs), retryTime, script);
      && (t.fault == None || t.fault == Some(TaskCanceled))
      && (t.fault.Some? <==> t.iterations != [] && BackoffCancelled(t.iterations[|t.iterations| - 1]))
  {
    RunFaultsIffKeysMisordered(Config(None, minDelayMs, maxDelayMs), retryTime, script);
  }

  class Workload {
    const workloadName: string
    const timeMetric: string
    const scoreMetric: string
    const minWorkloadDelayInMs: int
    const maxWorkloadDelayInMs: int
    /** The process-wide metric dictionary LogMetric writes to. */
    const store: MetricStore

    function Names(): W.MetricNames
    {
      W.MetricNames(timeMetric, scoreMetric)
    }

    function Settings(): Config
    {
      Config(None, minWorkloadDelayInMs, maxWorkloadDelayInMs)
    }

    constructor (store: MetricStore, workloadName: string, minWorkloadDelayInMs: int, maxWorkloadDelayInMs: int)
      ensures this.store == store && this.workloadName == workloadName
      ensures Names() == W.MetricNamesOf(workloadName)
      ensures this.minWorkloadDelayInMs == minWorkloadDelayInMs && this.maxWorkloadDelayInMs == maxWorkloadDelayInMs
    {
      this.store := store;
      this.workloadName := workloadName;
      timeMetric := workloadName + "Time";
      scoreMetric := workloadName + "Score";
      this.minWorkloadDelayInMs := minWorkloadDelayInMs;
      this.maxWorkloadDelayInMs := maxWorkloadDelayInMs;
    }

    /**
      The C# constructor: a null logger or workload name is an
      ArgumentNullException, the logger being checked first. An omitted
      (None) delay bound takes its default, MinWorkloadDelayInMs or
      MaxWorkloadDelayInMs.
    */
    static method Create(store: MetricStore, logger: Option<Logger>, workloadName: Option<string>,
                         minWorkloadDelayInMs: Option<int>, maxWorkloadDelayInMs: Option<int>)
      returns (r: Result<Workload, ArgumentNull>)
      ensures logger.None? ==> r == Failure(ArgumentNull("logger"))
      ensures logger.Some? && workloadName.None? ==> r == Failure(ArgumentNull("workloadName"))
      ensures logger.Some? && workloadName.Some? ==>
        && r.Success? && fresh(r.value) && r.value.store == store
        && r.value.workloadName == workloadName.value
        && r.value.Names() == W.MetricNamesOf(workloadName.value)
        && r.value.minWorkloadDelayInMs == (if minWorkloadDelayInMs.Some? then minWorkloadDelayInMs.value else MinWorkloadDelayInMs)
        && r.value.maxWorkloadDelayInMs == (if maxWorkloadDelayInMs.Some? then maxWorkloadDelayInMs.value else MaxWorkloadDelayInMs)
    {
      if logger.None? {
        return Failure(ArgumentNull("logger"));
      }
      if workloadName.None? {
        return Failure(ArgumentNull("workloadName"));
      }
      var minDelay := if minWorkloadDelayInMs.Some? then minWorkloadDelayInMs.value else MinWorkloadDelayInMs;
      var maxDelay := if maxWorkloadDelayInMs.Some? then maxWorkloadDelayInMs.value else MaxWorkloadDelayInMs;
      var w := new Workload(store, workloadName.value, minDelay, maxDelay);
      return Success(w);
    }

    /**
      InvokeAsync(workload, token): the worker ends on cancellation, normally
      or, when cancellation cuts a backoff wait short, with
      TaskCanceledException, which InvokeAsync passes on to its caller.
    */
    method InvokeAsync(script: seq<Attempt>) returns (waits: seq<nat>, fault: Option<Failure>)
      modifies store
      ensures var t := Run(Settings(), InitialRetryTime, script);
        && waits == t.waits && fault == t.fault
        && store.series == W.LoggedAll(old(store.series), Names(), t.iterations)
      ensures fault == None || fault == Some(TaskCanceled)
    {
      waits, fault := W.Work(store, Names(), Settings(), script);
      FaultsOnlyOnCancelledBackoff(minWorkloadDelayInMs, maxWorkloadDelayInMs, InitialRetryTime, script);
    }
  }
}
