/**
  Workload (src/Common/Utility/Workload.cs): the worker loop of LatencyLoop,
  with keys, where each call logs its whole milliseconds under the metric
  `<workloadName>Time` and its WorkloadScore under `<workloadName>Score`,
  through the rolling metric windows of MetricExtensions. The loop, the logging
  and the lemmas here are shared with the Latency.Common Workload, which differs
  only in drawing no key.
*/
module Workload {
  import opened Wrappers
  import opened Outcomes
  import opened Platform
  import opened Retry
  import opened LatencyLoop
  import opened WorkloadScore
  import opened MetricExtensions

  const KeysPerTask: int := 10000
  const MinWorkloadDelayInMs: int := 500
  const MaxWorkloadDelayInMs: int := 1500

  /** The `_timeMetric` and `_scoreMetric` names. */
  datatype MetricNames = MetricNames(time: string, score: string)

  function MetricNamesOf(workloadName: string): MetricNames
  {
    MetricNames(workloadName + "Time", workloadName + "Score")
  }

  /**
    No workload's time metric is any workload's score metric (the suffixes
    differ four characters from the end), so the two metrics of one workload
    never share a window, and neither do those of two workloads.
  */
  lemma MetricNamesNeverCollide(name1: string, name2: string)
    ensures MetricNamesOf(name1).time != MetricNamesOf(name2).score
    ensures name1 != name2 ==> MetricNamesOf(name1).time != MetricNamesOf(name2).time
    ensures name1 != name2 ==> MetricNamesOf(name1).score != MetricNamesOf(name2).score
  {
    var time := MetricNamesOf(name1).time;
    var score := MetricNamesOf(name2).score;
    if |time| == |score| {
      assert time[|time| - 4] == 'T' && score[|score| - 4] == 'c';
    }
    if name1 != name2 && |name1| == |name2| {
      var k :| 0 <= k < |name1| && name1[k] != name2[k];
      assert MetricNamesOf(name1).time[k] == name1[k] && MetricNamesOf(name2).time[k] == name2[k];
      assert MetricNamesOf(name1).score[k] == name1[k] && MetricNamesOf(name2).score[k] == name2[k];
    }
  }

  /** The two LogMetric calls made for one call of the operation. */
  function LogPair(series: map<string, seq<real>>, names: MetricNames, time: real, score: real): map<string, seq<real>>
  {
    Log(Log(series, names.time, time), names.score, score)
  }

  /**
    What one iteration logs: ElapsedMilliseconds and Score(elapsed) for a
    success; ElapsedMilliseconds and the failure score for a handled failure;
    both pairs, one after the other, for a success whose delay then fails.
  */
  function Logged(series: map<string, seq<real>>, names: MetricNames, it: Iteration): map<string, seq<real>>
  {
    match it
    case Completed(elapsed, _) => LogPair(series, names, ElapsedMilliseconds(elapsed) as real, Score(elapsed))
    case CompletedThenStop(elapsed) => LogPair(series, names, ElapsedMilliseconds(elapsed) as real, Score(elapsed))
    case CompletedThenFailed(elapsed, failure, _) =>
      LogPair(LogPair(series, names, ElapsedMilliseconds(elapsed) as real, Score(elapsed)),
              names, ElapsedMilliseconds(elapsed) as real, ScoreFailure(elapsed, failure))
    case FailedCall(failure, elapsed, _) =>
      LogPair(series, names, ElapsedMilliseconds(elapsed) as real, ScoreFailure(elapsed, failure))
    case _ => series
  }

  function LoggedAll(series: map<string, seq<real>>, names: MetricNames, its: seq<Iteration>): map<string, seq<real>>
    decreases |its|
  {
    if its == [] then series else Logged(LoggedAll(series, names, its[..|its| - 1]), names, its[|its| - 1])
  }

  lemma LoggedAllSnoc(series: map<string, seq<real>>, names: MetricNames, its: seq<Iteration>, it: Iteration)
    ensures LoggedAll(series, names, its + [it]) == Logged(LoggedAll(series, names, its), names, it)
  {
    assert (its + [it])[..|its|] == its;
  }

  /**
    The time and score windows of a workload exist together and hold the same
    number of samples.
  */
  ghost predicate Paired(series: map<string, seq<real>>, names: MetricNames)
  {
    && (names.time in series <==> names.score in series)
    && (names.time in series ==> |series[names.time]| == |series[names.score]|)
  }

  /**
    Logging a pair keeps the windows paired and well formed, leaves every
    other metric alone, ends the windows with the logged values, and makes the
    two windows report their statistics on the same call.
  */
  lemma LogPairKeepsPaired(series: map<string, seq<real>>, names: MetricNames, time: real, score: real)
    requires names.time != names.score
    requires Paired(series, names) && WellFormed(series)
    ensures var after := LogPair(series, names, time, score);
      && Paired(after, names) && WellFormed(after)
      && names.time in after && after[names.time][|after[names.time]| - 1] == time
      && after[names.score][|after[names.score]| - 1] == score
      && (Reports(after[names.time]) <==> Reports(after[names.score]))
      && (forall n :: n != names.time && n != names.score ==> (n in after <==> n in series))
      && (forall n :: n != names.time && n != names.score && n in series ==> after[n] == series[n])
  {
    var middle := Log(series, names.time, time);
    LogKeepsWellFormed(series, names.time, time);
    LogKeepsWellFormed(middle, names.score, score);
  }

  /**
    Over any run, however long, the windows stay paired and well formed, so the
    time and score statistics of a workload are always logged together.
  */
  lemma {:induction false} LoggedAllKeepsPaired(series: map<string, seq<real>>, names: MetricNames, its: seq<Iteration>)
    requires names.time != names.score
    requires Paired(series, names) && WellFormed(series)
    ensures Paired(LoggedAll(series, names, its), names) && WellFormed(LoggedAll(series, names, its))
    decreases |its|
  {
    if its != [] {
      var before := LoggedAll(series, names, its[..|its| - 1]);
      LoggedAllKeepsPaired(series, names, its[..|its| - 1]);
      match its[|its| - 1]
      case Completed(elapsed, _) =>
        LogPairKeepsPaired(before, names, ElapsedMilliseconds(elapsed) as real, Score(elapsed));
      case CompletedThenStop(elapsed) =>
        LogPairKeepsPaired(before, names, ElapsedMilliseconds(elapsed) as real, Score(elapsed));
      case CompletedThenFailed(elapsed, failure, _) =>
        LogPairKeepsPaired(before, names, ElapsedMilliseconds(elapsed) as real, Score(elapsed));
        LogPairKeepsPaired(LogPair(before, names, ElapsedMilliseconds(elapsed) as real, Score(elapsed)),
                           names, ElapsedMilliseconds(elapsed) as real, ScoreFailure(elapsed, failure));
      case FailedCall(failure, elapsed, _) =>
        LogPairKeepsPaired(before, names, ElapsedMilliseconds(elapsed) as real, ScoreFailure(elapsed, failure));
      case KeyFault(_) =>
      case CancelledFailure =>
    }
  }

  /**
    A successful call logs a score that agrees with the time logged next to it:
    1.0 exactly when the time is below 100 ms, 0.0 exactly when it is at least
    1000 ms; a failed call logs a score of 0.0.
  */
  lemma LoggedScoreMatchesTime(series: map<string, seq<real>>, names: MetricNames, it: Iteration)
    requires names.time != names.score
    requires Paired(series, names) && WellFormed(series)
    requires it.Completed? || it.CompletedThenStop? || it.FailedCall?
    ensures var after := Logged(series, names, it);
      var time := after[names.time][|after[names.time]| - 1];
      var score := after[names.score][|after[names.score]| - 1];
      && time == ElapsedMilliseconds(it.elapsed) as real
      && (it.FailedCall? ==> score == 0.0)
      && (!it.FailedCall? ==> (score == 1.0 <==> time < 100.0) && (score == 0.0 <==> time >= 1000.0))
  {
    ScoreByMilliseconds(it.elapsed);
    match it
    case FailedCall(failure, elapsed, _) =>
      LogPairKeepsPaired(series, names, ElapsedMilliseconds(elapsed) as real, ScoreFailure(elapsed, failure));
    case Completed(elapsed, _) =>
      LogPairKeepsPaired(series, names, ElapsedMilliseconds(elapsed) as real, Score(elapsed));
    case CompletedThenStop(elapsed) =>
      LogPairKeepsPaired(series, names, ElapsedMilliseconds(elapsed) as real, Score(elapsed));
  }

  // ----- the loop, on the shared metric store -----

  /** Logs one call's time and score. */
  method LogCall(store: MetricStore, names: MetricNames, time: real, score: real)
    modifies store
    ensures store.series == LogPair(old(store.series), names, time, score)
  {
    var _ := store.LogMetric(names.time, time);
    var _ := store.LogMetric(names.score, score);
  }

  /** Logs one iteration and moves the worker's RetryHandler as the loop body does. */
  method Perform(store: MetricStore, names: MetricNames, retry: RetryHandler, it: Iteration) returns (next: Next)
    requires retry.Valid()
    modifies store, retry
    ensures retry.Valid()
    ensures store.series == Logged(old(store.series), names, it)
    ensures retry.retryTime == After(old(retry.retryTime), it).retryTime
    ensures next == After(old(retry.retryTime), it).next
  {
    match it {
      case KeyFault(failure) =>
        next := Fault(failure);
      case Completed(elapsed, wait) =>
        var _ := retry.Reset();
        LogCall(store, names, ElapsedMilliseconds(elapsed) as real, Score(elapsed));
        next := Proceed(wait);
      case CompletedThenStop(elapsed) =>
        var _ := retry.Reset();
        LogCall(store, names, ElapsedMilliseconds(elapsed) as real, Score(elapsed));
        next := Stop;
      case CompletedThenFailed(elapsed, failure, cutShort) =>
        var _ := retry.Reset();
        LogCall(store, names, ElapsedMilliseconds(elapsed) as real, Score(elapsed));
        var retryAfter := retry.Retry();
        LogCall(store, names, ElapsedMilliseconds(elapsed) as real, ScoreFailure(elapsed, failure));
        next := if cutShort then Fault(TaskCanceled) else Proceed(retryAfter);
      case FailedCall(failure, elapsed, cutShort) =>
        var retryAfter := retry.Retry();
        LogCall(store, names, ElapsedMilliseconds(elapsed) as real, ScoreFailure(elapsed, failure));
        next := if cutShort then Fault(TaskCanceled) else Proceed(retryAfter);
      case CancelledFailure =>
        next := Stop;
    }
  }

  /**
    InvokeAsync's loop over a script of attempts: returns the waits between
    iterations and the exception that ended the worker, if any.
  */
  method Work(store: MetricStore, names: MetricNames, config: Config, script: seq<Attempt>)
    returns (waits: seq<nat>, fault: Option<Failure>)
    modifies store
    ensures var t := Run(config, InitialRetryTime, script);
      && waits == t.waits && fault == t.fault
      && store.series == LoggedAll(old(store.series), names, t.iterations)
  {
    ghost var full := Run(config, InitialRetryTime, script);
    var retry := new RetryHandler();
    waits := [];
    ghost var its: seq<Iteration> := [];
    StartAndFinish(config, full, its, waits, InitialRetryTime, script);
    var i := 0;
    while i < |script|
      invariant 0 <= i <= |script|
      invariant retry.Valid()
      invariant Resumes(config, full, its, waits, retry.retryTime, script[i..])
      invariant store.series == LoggedAll(old(store.series), names, its)
    {
      Advance(config, full, its, waits, retry.retryTime, script[i..]);
      assert script[i..][0] == script[i] && script[i..][1..] == script[i + 1..];
      var it := Iterate(config, script[i]);
      var next := Perform(store, names, retry, it);
      LoggedAllSnoc(old(store.series), names, its, it);
      its := its + [it];
      match next {
        case Proceed(wait) =>
          waits := waits + [wait];
        case Stop =>
          return waits, None;
        case Fault(failure) =>
          return waits, Some(failure);
      }
      i := i + 1;
    }
    assert script[i..] == [];
    StartAndFinish(config, full, its, waits, retry.retryTime, script[i..]);
    return waits, None;
  }

  class Workload {
    const workloadName: string
    const timeMetric: string
    const scoreMetric: string
    const keysPerTask: int
    const minWorkloadDelayInMs: int
    const maxWorkloadDelayInMs: int
    /** The process-wide metric dictionary LogMetric writes to. */
    const store: MetricStore

    function Names(): MetricNames
    {
      MetricNames(timeMetric, scoreMetric)
    }

    /** The settings of the worker with the given task id. */
    function ConfigFor(taskId: int): Config
    {
      Config(Some(KeyRangeOf(taskId, keysPerTask)), minWorkloadDelayInMs, maxWorkloadDelayInMs)
    }

    constructor (store: MetricStore, workloadName: string, keysPerTask: int,
                 minWorkloadDelayInMs: int, maxWorkloadDelayInMs: int)
      ensures this.store == store && this.workloadName == workloadName
      ensures Names() == MetricNamesOf(workloadName)
      ensures this.keysPerTask == keysPerTask
      ensures this.minWorkloadDelayInMs == minWorkloadDelayInMs && this.maxWorkloadDelayInMs == maxWorkloadDelayInMs
    {
      this.store := store;
      this.workloadName := workloadName;
      timeMetric := workloadName + "Time";
      scoreMetric := workloadName + "Score";
      this.keysPerTask := keysPerTask;
      this.minWorkloadDelayInMs := minWorkloadDelayInMs;
      this.maxWorkloadDelayInMs := maxWorkloadDelayInMs;
    }

    /**
      The C# constructor: a null logger or workload name is an
      ArgumentNullException, the logger being checked first. An omitted
      (None) optional argument takes its default: KeysPerTask,
      MinWorkloadDelayInMs or MaxWorkloadDelayInMs.
    */
    static method Create(store: MetricStore, logger: Option<Logger>, workloadName: Option<string>,
                         keysPerTask: Option<int>, minWorkloadDelayInMs: Option<int>, maxWorkloadDelayInMs: Option<int>)
      returns (r: Result<Workload, ArgumentNull>)
      ensures logger.None? ==> r == Failure(ArgumentNull("logger"))
      ensures logger.Some? && workloadName.None? ==> r == Failure(ArgumentNull("workloadName"))
      ensures logger.Some? && workloadName.Some? ==>
        && r.Success? && fresh(r.value) && r.value.store == store
        && r.value.workloadName == workloadName.value
        && r.value.Names() == MetricNamesOf(workloadName.value)
        && r.value.keysPerTask == (if keysPerTask.Some? then keysPerTask.value else KeysPerTask)
        && r.value.minWorkloadDelayInMs == (if minWorkloadDelayInMs.Some? then minWorkloadDelayInMs.value else MinWorkloadDelayInMs)
        && r.value.maxWorkloadDelayInMs == (if maxWorkloadDelayInMs.Some? then maxWorkloadDelayInMs.value else MaxWorkloadDelayInMs)
    {
      if logger.None? {
        return Failure(ArgumentNull("logger"));
      }
      if workloadName.None? {
        return Failure(ArgumentNull("workloadName"));
      }
      var keys := if keysPerTask.Some? then keysPerTask.value else KeysPerTask;
      var minDelay := if minWorkloadDelayInMs.Some? then minWorkloadDelayInMs.value else MinWorkloadDelayInMs;
      var maxDelay := if maxWorkloadDelayInMs.Some? then maxWorkloadDelayInMs.value else MaxWorkloadDelayInMs;
      var w := new Workload(store, workloadName.value, keys, minDelay, maxDelay);
      return Success(w);
    }

    /** InvokeAsync(workload, taskId, token). */
    method InvokeAsync(taskId: int, script: seq<Attempt>) returns (waits: seq<nat>, fault: Option<Failure>)
      modifies store
      ensures var t := Run(ConfigFor(taskId), InitialRetryTime, script);
        && waits == t.waits && fault == t.fault
        && store.series == LoggedAll(old(store.series), Names(), t.iterations)
    {
      waits, fault := Work(store, Names(), ConfigFor(taskId), script);
    }
  }
}
