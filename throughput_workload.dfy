/**
  ThroughputWorkload (src/common/utility/ThroughputWorkload.cs): workers add the
  units each successful call returns and the milliseconds it took to shared
  counters, and count the failures that are neither cancellations nor
  throttling; a reporter thread logs, once a second, the difference between the
  counters and the last snapshot it reported, skipping windows without
  operations.

  One worker iteration is one atomic step; a worker's run is a script of
  attempts (the end of the script is the cancellation seen at the top of the
  loop; a wait in the failure handler that cancellation cuts short ends the
  worker with TaskCanceledException); a reporter's run is the sequence of
  counter values it read.
*/
module ThroughputWorkload {
  import opened Wrappers
  import opened Outcomes
  import opened Platform
  import opened Retry

  /** The `_operations`, `_latency` (ms) and `_errors` counters. */
  datatype Counters = Counters(operations: int, latency: int, errors: int)

  const Zero: Counters := Counters(0, 0, 0)

  function Plus(a: Counters, b: Counters): Counters {
    Counters(a.operations + b.operations, a.latency + b.latency, a.errors + b.errors)
  }

  function Minus(a: Counters, b: Counters): Counters {
    Counters(a.operations - b.operations, a.latency - b.latency, a.errors - b.errors)
  }

  /** The classifier used when none is given: no failure is throttling. */
  function NoThrottle(failure: Failure): Option<nat> {
    None
  }

  // ----- one worker iteration -----

  datatype Transition = Transition(counters: Counters, retryTime: nat, next: Next)

  /**
    One pass of CreateWorkerAsync's loop body. A success resets the backoff and
    adds the units and the elapsed milliseconds. A failure seen after
    cancellation ends the worker with nothing changed. A failure the classifier
    recognises waits exactly the classifier's delay and changes nothing. Any
    other failure waits the pre-doubling Retry() value, adds the elapsed
    milliseconds and counts one error. Both waits are in the failure handler,
    so cancellation during either ends the worker with TaskCanceledException.
  */
  function Step(throttle: Classifier, c: Counters, retryTime: nat, a: Attempt): Transition
  {
    match a.outcome
    case Succeeded(units, elapsed) =>
      Transition(Counters(c.operations + units, c.latency + ElapsedMilliseconds(elapsed), c.errors),
                 InitialRetryTime, if a.cancelled then Stop else Proceed(0))
    case Failed(failure, elapsed) =>
      if a.cancelled then Transition(c, retryTime, Stop)
      else match throttle(failure)
        case Some(delay) => Transition(c, retryTime, HandlerWait(a.waitCancelled, delay))
        case None =>
          Transition(Counters(c.operations, c.latency + ElapsedMilliseconds(elapsed), c.errors + 1),
                     Doubled(retryTime), HandlerWait(a.waitCancelled, retryTime))
  }

  /**
    A throttled failure waits exactly what the classifier says, whatever the
    backoff state, and touches neither the counters nor the backoff.
  */
  lemma ThrottledIgnoresBackoff(throttle: Classifier, c: Counters, retryTime: nat, a: Attempt)
    requires a.outcome.Failed? && !a.cancelled && throttle(a.outcome.failure).Some?
    ensures Step(throttle, c, retryTime, a) == Transition(c, retryTime, HandlerWait(a.waitCancelled, throttle(a.outcome.failure).value))
  {
  }

  /**
    With the default classifier every failure seen before cancellation is one
    error: it adds its elapsed milliseconds to the latency, doubles the backoff
    and waits the pre-doubling value.
  */
  lemma DefaultClassifierCountsEveryFailure(c: Counters, retryTime: nat, a: Attempt)
    requires a.outcome.Failed? && !a.cancelled
    ensures Step(NoThrottle, c, retryTime, a)
         == Transition(Counters(c.operations, c.latency + ElapsedMilliseconds(a.outcome.elapsed), c.errors + 1),
                       Doubled(retryTime), HandlerWait(a.waitCancelled, retryTime))
  {
  }

  /**
    Whatever the classifier, a successful call adds its units to the operations
    and its elapsed milliseconds to the latency, counts no error, resets the
    backoff to one second and goes straight on to the next call, unless
    cancellation has been requested.
  */
  lemma SuccessResetsBackoff(throttle: Classifier, c: Counters, retryTime: nat, a: Attempt)
    requires a.outcome.Succeeded?
    ensures var t := Step(throttle, c, retryTime, a);
      && t.counters == Plus(c, Counters(a.outcome.units, ElapsedMilliseconds(a.outcome.elapsed), 0))
      && t.retryTime == InitialRetryTime
      && t.next == (if a.cancelled then Stop else Proceed(0))
  {
  }

  /** A step never takes the backoff out of [1 s, 30 s]. */
  lemma StepKeepsBackoffInRange(throttle: Classifier, c: Counters, retryTime: nat, a: Attempt)
    requires InRange(retryTime)
    ensures InRange(Step(throttle, c, retryTime, a).retryTime)
  {
  }

  // ----- a worker's whole run -----

  datatype Run = Run(counters: Counters, waits: seq<nat>, fault: Option<Failure>)

  /**
    The counters and the waits after a worker has gone through `script`, and
    the exception that ended it, if any.
  */
  function RunWorker(throttle: Classifier, c: Counters, retryTime: nat, script: seq<Attempt>): Run
    decreases |script|
  {
    if script == [] then Run(c, [], None)
    else
      var t := Step(throttle, c, retryTime, script[0]);
      match t.next
      case Proceed(wait) =>
        var rest := RunWorker(throttle, t.counters, t.retryTime, script[1..]);
        Run(rest.counters, [wait] + rest.waits, rest.fault)
      case Stop => Run(t.counters, [], None)
      case Fault(failure) => Run(t.counters, [], Some(failure))
  }

  /** The units of the successful calls a worker makes before it sees cancellation or is cancelled in a wait. */
  function SucceededUnits(script: seq<Attempt>): int
    decreases |script|
  {
    if script == [] then 0
    else
      var here := if script[0].outcome.Succeeded? then script[0].outcome.units else 0;
      if EndsWorker(script[0]) then here else here + SucceededUnits(script[1..])
  }

  /**
    What a worker's attempts contribute to the counters, attempt by attempt and
    independently of the backoff, up to the attempt that ends the worker: a
    success its units and milliseconds; a throttled failure or one seen after
    cancellation nothing; any other failure its milliseconds and one error.
  */
  function Contribution(throttle: Classifier, script: seq<Attempt>): Counters
    decreases |script|
  {
    if script == [] then Zero
    else
      var a := script[0];
      var here := match a.outcome
        case Succeeded(units, elapsed) => Counters(units, ElapsedMilliseconds(elapsed), 0)
        case Failed(failure, elapsed) =>
          if a.cancelled || throttle(failure).Some? then Zero else Counters(0, ElapsedMilliseconds(elapsed), 1);
      if EndsWorker(a) then here else Plus(here, Contribution(throttle, script[1..]))
  }

  /**
    Every unit a call returns is added to `_operations` exactly once: after a
    run, the operations counter grew by the units of the successful calls made
    before cancellation, whatever the classifier and the backoff state, and all
    three counters grew by exactly the attempts' contribution. The worker ends
    with an exception exactly when cancellation cuts short one of its
    failure-handler waits, the exception being TaskCanceledException.
  */
  lemma {:induction false} RunAddsEveryUnitOnce(throttle: Classifier, c: Counters, retryTime: nat, script: seq<Attempt>)
    ensures RunWorker(throttle, c, retryTime, script).counters.operations == c.operations + SucceededUnits(script)
    ensures RunWorker(throttle, c, retryTime, script).counters == Plus(c, Contribution(throttle, script))
    ensures RunWorker(throttle, c, retryTime, script).fault == if CancelledInWait(script) then Some(TaskCanceled) else None
    decreases |script|
  {
    if script != [] {
      var t := Step(throttle, c, retryTime, script[0]);
      if !EndsWorker(script[0]) {
        RunAddsEveryUnitOnce(throttle, t.counters, t.retryTime, script[1..]);
      }
    }
  }

  // ----- the reporter thread -----

  /**
    TrackMetrics' loop over the counter values it read, one per tick, starting
    from the snapshot `start`: each report is the reading minus the snapshot; a
    window without operations is skipped and the snapshot is kept, so its
    latency and errors are carried into the next report. Returns the reports and
    the final snapshot.
  */
  function Track(start: Counters, readings: seq<Counters>): (seq<Counters>, Counters)
    decreases |readings|
  {
    if readings == [] then ([], start)
    else
      var window := Minus(readings[0], start);
      if window.operations == 0 then Track(start, readings[1..])
      else
        var rest := Track(readings[0], readings[1..]);
        ([window] + rest.0, rest.1)
  }

  /** The sum of a sequence of reports. */
  function Sum(reports: seq<Counters>): Counters
    decreases |reports|
  {
    if reports == [] then Zero else Plus(Sum(reports[..|reports| - 1]), reports[|reports| - 1])
  }

  lemma {:induction false} SumPrepend(head: Counters, reports: seq<Counters>)
    ensures Sum([head] + reports) == Plus(head, Sum(reports))
    decreases |reports|
  {
    if reports != [] {
      var n := |reports|;
      assert ([head] + reports)[..n] == [head] + reports[..n - 1];
      SumPrepend(head, reports[..n - 1]);
    }
  }

  /**
    The reports telescope: together they add up to the final snapshot minus the
    starting one, for operations, latency and errors alike, and none of them is
    a zero-operation window. Nothing read is lost or counted twice; what has not
    been reported yet is the last reading minus the final snapshot.
  */
  lemma {:induction false} TrackTelescopes(start: Counters, readings: seq<Counters>)
    ensures Sum(Track(start, readings).0) == Minus(Track(start, readings).1, start)
    ensures forall r :: r in Track(start, readings).0 ==> r.operations != 0
    decreases |readings|
  {
    if readings != [] {
      var window := Minus(readings[0], start);
      if window.operations == 0 {
        TrackTelescopes(start, readings[1..]);
      } else {
        TrackTelescopes(readings[0], readings[1..]);
        SumPrepend(window, Track(readings[0], readings[1..]).0);
      }
    }
  }

  /**
    The reporter: reads the counters once per tick (`readings`), logs a window
    whenever it holds operations and then advances the snapshot.
  */
  method TrackMetrics(readings: seq<Counters>) returns (reports: seq<Counters>, snapshot: Counters)
    ensures (reports, snapshot) == Track(Zero, readings)
    ensures Sum(reports) == snapshot
    ensures forall r :: r in reports ==> r.operations != 0
  {
    var startOperations, startLatency, startErrors := 0, 0, 0;
    reports := [];
    var i := 0;
    assert readings[i..] == readings;
    assert [] + Track(Zero, readings).0 == Track(Zero, readings).0;
    while i < |readings|
      invariant 0 <= i <= |readings|
      invariant Sum(reports) == Counters(startOperations, startLatency, startErrors)
      invariant forall r :: r in reports ==> r.operations != 0
      invariant Track(Zero, readings) == (reports + Track(Counters(startOperations, startLatency, startErrors), readings[i..]).0,
                                          Track(Counters(startOperations, startLatency, startErrors), readings[i..]).1)
    {
      var endOperations, endLatency, endErrors := readings[i].operations, readings[i].latency, readings[i].errors;
      var operations := endOperations - startOperations;
      var latency := endLatency - startLatency;
      var errors := endErrors - startErrors;
      assert readings[i..][1..] == readings[i + 1..];
      if operations != 0 {
        var window := Counters(operations, latency, errors);
        assert reports + [window] + Track(readings[i], readings[i + 1..]).0
            == reports + ([window] + Track(readings[i], readings[i + 1..]).0);
        assert (reports + [window])[..|reports|] == reports;
        reports := reports + [window];
        startOperations, startLatency, startErrors := endOperations, endLatency, endErrors;
      }
      i := i + 1;
    }
    snapshot := Counters(startOperations, startLatency, startErrors);
    assert readings[i..] == [];
    assert reports + [] == reports;
  }

  // ----- the workload object -----

  class ThroughputWorkload {
    const workloadName: string
    const throttle: Classifier
    var operations: int
    var latency: int
    var errors: int

    function Counts(): Counters
      reads this
    {
      Counters(operations, latency, errors)
    }

    constructor (workloadName: string, throttle: Classifier)
      ensures this.workloadName == workloadName && this.throttle == throttle
      ensures Counts() == Zero
    {
      this.workloadName := workloadName;
      this.throttle := throttle;
      operations, latency, errors := 0, 0, 0;
    }

    /**
      The C# constructor: a null logger or workload name is an
      ArgumentNullException (the logger is checked first); a missing classifier
      becomes NoThrottle.
    */
    static method Create(logger: Option<Logger>, workloadName: Option<string>, throttle: Option<Classifier>)
      returns (r: Result<ThroughputWorkload, ArgumentNull>)
      ensures logger.None? ==> r == Failure(ArgumentNull("logger"))
      ensures logger.Some? && workloadName.None? ==> r == Failure(ArgumentNull("workloadName"))
      ensures logger.Some? && workloadName.Some? ==>
        && r.Success? && fresh(r.value)
        && r.value.workloadName == workloadName.value
        && r.value.throttle == (if throttle.Some? then throttle.value else NoThrottle)
        && r.value.Counts() == Zero
    {
      if logger.None? {
        return Failure(ArgumentNull("logger"));
      }
      if workloadName.None? {
        return Failure(ArgumentNull("workloadName"));
      }
      var classifier := if throttle.Some? then throttle.value else NoThrottle;
      var w := new ThroughputWorkload(workloadName.value, classifier);
      return Success(w);
    }

    /** One iteration of a worker's loop, with the worker's own RetryHandler. */
    method Iterate(retry: RetryHandler, a: Attempt) returns (next: Next)
      requires retry.Valid()
      modifies this, retry
      ensures retry.Valid()
      ensures Counts() == Step(throttle, old(Counts()), old(retry.retryTime), a).counters
      ensures retry.retryTime == Step(throttle, old(Counts()), old(retry.retryTime), a).retryTime
      ensures next == Step(throttle, old(Counts()), old(retry.retryTime), a).next
    {
      match a.outcome {
        case Succeeded(units, elapsed) =>
          var _ := retry.Reset();
          operations := operations + units;
          latency := latency + ElapsedMilliseconds(elapsed);
          next := if a.cancelled then Stop else Proceed(0);
        case Failed(failure, elapsed) =>
          if a.cancelled {
            return Stop;
          }
          var delay := throttle(failure);
          if delay.Some? {
            next := if a.waitCancelled then Fault(TaskCanceled) else Proceed(delay.value);
          } else {
            var retryAfter := retry.Retry();
            latency := latency + ElapsedMilliseconds(elapsed);
            errors := errors + 1;
            next := if a.waitCancelled then Fault(TaskCanceled) else Proceed(retryAfter);
          }
      }
    }

    /**
      CreateWorkerAsync: a fresh RetryHandler, then iterations until the script
      ends (cancellation seen at the top of the loop) or an iteration stops the
      worker. Returns the waits between iterations and the exception that ended
      the worker, if any.
    */
    method CreateWorker(script: seq<Attempt>) returns (waits: seq<nat>, fault: Option<Failure>)
      modifies this
      ensures RunWorker(throttle, old(Counts()), InitialRetryTime, script) == Run(Counts(), waits, fault)
    {
      var retry := new RetryHandler();
      waits := [];
      var i := 0;
      while i < |script|
        invariant 0 <= i <= |script|
        invariant retry.Valid()
        invariant var rest := RunWorker(throttle, Counts(), retry.retryTime, script[i..]);
          RunWorker(throttle, old(Counts()), InitialRetryTime, script) == Run(rest.counters, waits + rest.waits, rest.fault)
      {
        assert script[i..][1..] == script[i + 1..];
        var next := Iterate(retry, script[i]);
        match next {
          case Proceed(wait) =>
            waits := waits + [wait];
          case Stop =>
            return waits, None;
          case Fault(failure) =>
            return waits, Some(failure);
        }
        i := i + 1;
      }
      assert waits + [] == waits;
      return waits, None;
    }
  }
}
