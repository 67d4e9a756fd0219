/**
  ThroughputWorkload (src/Throughput/Common/Throughput.Common/Utility/ThroughputWorkload.cs):
  the variant without errors and without a throttle classifier. Workers add the
  units and milliseconds of each successful call, and the milliseconds of each
  failed one, to shared counters. Once a second the reporter reads both
  counters, logs what it read and subtracts exactly that from them, so that
  whatever workers add between the read and the subtraction survives into the
  next second.

  A worker's run is a script of attempts as in ThroughputWorkload (a backoff
  wait that cancellation cuts short ends it with TaskCanceledException); the
  reporter's run is an interleaving of worker additions and reporter ticks.
*/
module ThroughputCommon {
  import opened Wrappers
  import opened Outcomes
  import opened Platform
  import opened Retry

  /** The `_operations` and `_latency` (ms) counters, or an amount added to them. */
  datatype Totals = Totals(operations: int, latency: int)

  const Zero: Totals := Totals(0, 0)

  function Plus(a: Totals, b: Totals): Totals {
    Totals(a.operations + b.operations, a.latency + b.latency)
  }

  function Minus(a: Totals, b: Totals): Totals {
    Totals(a.operations - b.operations, a.latency - b.latency)
  }

  // ----- one worker iteration -----

  datatype Transition = Transition(counters: Totals, retryTime: nat, next: Next)

  /**
    One pass of CreateWorkerAsync's loop body: a success resets the backoff and
    adds the units and the elapsed milliseconds; a failure after cancellation
    ends the worker; any other failure adds only its elapsed milliseconds and
    waits the pre-doubling Retry() value, in the failure handler.
  */
  function Step(c: Totals, retryTime: nat, a: Attempt): Transition
  {
    match a.outcome
    case Succeeded(units, elapsed) =>
      Transition(Totals(c.operations + units, c.latency + ElapsedMilliseconds(elapsed)),
                 InitialRetryTime, if a.cancelled then Stop else Proceed(0))
    case Failed(_, elapsed) =>
      if a.cancelled then Transition(c, retryTime, Stop)
      else Transition(Totals(c.operations, c.latency + ElapsedMilliseconds(elapsed)),
                      Doubled(retryTime), HandlerWait(a.waitCancelled, retryTime))
  }

  datatype Run = Run(counters: Totals, waits: seq<nat>, fault: Option<Failure>)

  /**
    The counters and the waits after a worker has gone through `script`, and
    the exception that ended it, if any.
  */
  function RunWorker(c: Totals, retryTime: nat, script: seq<Attempt>): Run
    decreases |script|
  {
    if script == [] then Run(c, [], None)
    else
      var t := Step(c, retryTime, script[0]);
      match t.next
      case Proceed(wait) =>
        var rest := RunWorker(t.counters, t.retryTime, script[1..]);
        Run(rest.counters, [wait] + rest.waits, rest.fault)
      case Stop => Run(t.counters, [], None)
      case Fault(failure) => Run(t.counters, [], Some(failure))
  }

  /**
    What a worker's attempts contribute to the counters, attempt by attempt and
    independently of the backoff: the units and milliseconds of each success,
    the milliseconds of each failure, up to the first attempt that sees
    cancellation (a success there still counts, a failure there does not) or
    whose backoff wait cancellation cuts short (its milliseconds count).
  */
  function Contribution(script: seq<Attempt>): Totals
    decreases |script|
  {
    if script == [] then Zero
    else
      var a := script[0];
      var here := match a.outcome
        case Succeeded(units, elapsed) => Totals(units, ElapsedMilliseconds(elapsed))
        case Failed(_, elapsed) => if a.cancelled then Zero else Totals(0, ElapsedMilliseconds(elapsed));
      if EndsWorker(a) then here else Plus(here, Contribution(script[1..]))
  }

  /**
    A worker adds to the counters exactly its contribution: failures add
    latency but never operations, and the backoff has no effect on what is
    counted. The worker ends with an exception exactly when cancellation cuts
    short one of its backoff waits, the exception being TaskCanceledException.
  */
  lemma {:induction false} RunAddsContribution(c: Totals, retryTime: nat, script: seq<Attempt>)
    ensures RunWorker(c, retryTime, script).counters == Plus(c, Contribution(script))
    ensures RunWorker(c, retryTime, script).fault == if CancelledInWait(script) then Some(TaskCanceled) else None
    decreases |script|
  {
    if script != [] {
      var t := Step(c, retryTime, script[0]);
      if !EndsWorker(script[0]) {
        RunAddsContribution(t.counters, t.retryTime, script[1..]);
      }
    }
  }

  /**
    Consecutive failures wait 1, 2, 4, 8, 16 and then 30 seconds: the n-th wait
    is Backoff(n). The waits go on through every failure until one of them is
    cut short by cancellation, which ends the worker with TaskCanceledException.
  */
  lemma {:induction false} FailuresBackOff(c: Totals, n: nat, script: seq<Attempt>)
    requires forall i :: 0 <= i < |script| ==> script[i].outcome.Failed? && !script[i].cancelled
    ensures var waits := RunWorker(c, Backoff(n), script).waits;
      && |waits| <= |script|
      && (forall i :: 0 <= i < |waits| ==> waits[i] == Backoff(n + i) && !script[i].waitCancelled)
      && (|waits| < |script| ==> script[|waits|].waitCancelled && RunWorker(c, Backoff(n), script).fault == Some(TaskCanceled))
    decreases |script|
  {
    if script != [] {
      var t := Step(c, Backoff(n), script[0]);
      if !script[0].waitCancelled {
        assert t.retryTime == Backoff(n + 1);
        FailuresBackOff(t.counters, n + 1, script[1..]);
        var rest := RunWorker(t.counters, Backoff(n + 1), script[1..]);
        assert RunWorker(c, Backoff(n), script).waits == [Backoff(n)] + rest.waits;
      }
    }
  }

  // ----- the reporter, interleaved with the workers -----

  /**
    What happens to the counters: a worker's addition; a reporter tick that
    reads both counters, lets the workers add `during` while it logs, then
    subtracts what it read; or cancellation during the reporter's one-second
    delay, which sits outside any handler, so TaskCanceledException ends the
    reporter. The end of a trace is cancellation seen at the top of the
    reporter's loop.
  */
  datatype Event = Add(amount: Totals) | Tick(during: Totals) | DelayCancelled

  function SumAll(amounts: seq<Totals>): Totals
    decreases |amounts|
  {
    if amounts == [] then Zero else Plus(amounts[0], SumAll(amounts[1..]))
  }

  /** Everything the workers add in a trace while the reporter runs. */
  function Added(events: seq<Event>): Totals
    decreases |events|
  {
    if events == [] then Zero
    else match events[0]
      case Add(amount) => Plus(amount, Added(events[1..]))
      case Tick(during) => Plus(during, Added(events[1..]))
      case DelayCancelled => Zero
  }

  /**
    The counters, the logged reports and the exception that ended the
    reporter, if any, after a trace.
  */
  function Replay(c: Totals, events: seq<Event>): (Totals, seq<Totals>, Option<Failure>)
    decreases |events|
  {
    if events == [] then (c, [], None)
    else match events[0]
      case Add(amount) => Replay(Plus(c, amount), events[1..])
      case Tick(during) =>
        var rest := Replay(Minus(Plus(c, during), c), events[1..]);
        (rest.0, [c] + rest.1, rest.2)
      case DelayCancelled => (c, [], Some(TaskCanceled))
  }

  /** The ticks of a trace while the reporter runs. */
  function Ticks(events: seq<Event>): nat
    decreases |events|
  {
    if events == [] || events[0].DelayCancelled? then 0
    else (if events[0].Tick? then 1 else 0) + Ticks(events[1..])
  }

  /**
    Nothing is lost and nothing is counted twice: what has been reported plus
    what is still in the counters is what was there at the start plus
    everything the workers added, for operations and latency alike, even when
    additions race with the read-then-subtract. Every tick logs one report,
    empty seconds included. The reporter ends with an exception exactly when
    cancellation cuts short one of its delays, and that exception is
    TaskCanceledException.
  */
  lemma {:induction false} ReportsConserve(c: Totals, events: seq<Event>)
    ensures Plus(SumAll(Replay(c, events).1), Replay(c, events).0) == Plus(c, Added(events))
    ensures |Replay(c, events).1| == Ticks(events)
    ensures Replay(c, events).2 == if DelayCancelled in events then Some(TaskCanceled) else None
    decreases |events|
  {
    if events != [] {
      assert events == [events[0]] + events[1..];
      match events[0]
      case Add(amount) =>
        ReportsConserve(Plus(c, amount), events[1..]);
      case Tick(during) =>
        ReportsConserve(Minus(Plus(c, during), c), events[1..]);
      case DelayCancelled =>
    }
  }

  /**
    A tick reports what it read, and leaves in the counters exactly what the
    workers added while it was logging.
  */
  lemma TickLeavesConcurrentAdds(c: Totals, during: Totals, events: seq<Event>)
    ensures Replay(c, [Tick(during)] + events).1 == [c] + Replay(during, events).1
    ensures Replay(c, [Tick(during)] + events).0 == Replay(during, events).0
  {
    assert ([Tick(during)] + events)[1..] == events;
  }

  // ----- the workload object -----

  class ThroughputWorkload {
    const workloadName: string
    var operations: int
    var latency: int

    function Counts(): Totals
      reads this
    {
      Totals(operations, latency)
    }

    constructor (workloadName: string)
      ensures this.workloadName == workloadName
      ensures Counts() == Zero
    {
      this.workloadName := workloadName;
      operations, latency := 0, 0;
    }

    /**
      The C# constructor: a null logger or workload name is an
      ArgumentNullException, the logger being checked first.
    */
    static method Create(logger: Option<Logger>, workloadName: Option<string>)
      returns (r: Result<ThroughputWorkload, ArgumentNull>)
      ensures logger.None? ==> r == Failure(ArgumentNull("logger"))
      ensures logger.Some? && workloadName.None? ==> r == Failure(ArgumentNull("workloadName"))
      ensures logger.Some? && workloadName.Some? ==>
        && r.Success? && fresh(r.value)
        && r.value.workloadName == workloadName.value
        && r.value.Counts() == Zero
    {
      if logger.None? {
        return Failure(ArgumentNull("logger"));
      }
      if workloadName.None? {
        return Failure(ArgumentNull("workloadName"));
      }
      var w := new ThroughputWorkload(workloadName.value);
      return Success(w);
    }

    /** A worker's pair of Interlocked.Add calls. */
    method Add(amount: Totals)
      modifies this
      ensures Counts() == Plus(old(Counts()), amount)
    {
      operations := operations + amount.operations;
      latency := latency + amount.latency;
    }

    /** The reporter's two Interlocked.Read calls. */
    method ReadCounters() returns (read: Totals)
      ensures read == Counts()
    {
      read := Totals(operations, latency);
    }

    /** The reporter's subtraction of what it logged. */
    method SubtractReported(read: Totals)
      modifies this
      ensures Counts() == Minus(old(Counts()), read)
    {
      operations := operations - read.operations;
      latency := latency - read.latency;
    }

    /** One iteration of a worker's loop, with the worker's own RetryHandler. */
    method Iterate(retry: RetryHandler, a: Attempt) returns (next: Next)
      requires retry.Valid()
      modifies this, retry
      ensures retry.Valid()
      ensures Counts() == Step(old(Counts()), old(retry.retryTime), a).counters
      ensures retry.retryTime == Step(old(Counts()), old(retry.retryTime), a).retryTime
      ensures next == Step(old(Counts()), old(retry.retryTime), a).next
    {
      match a.outcome {
        case Succeeded(units, elapsed) =>
          var _ := retry.Reset();
          Add(Totals(units, ElapsedMilliseconds(elapsed)));
          next := if a.cancelled then Stop else Proceed(0);
        case Failed(_, elapsed) =>
          if a.cancelled {
            return Stop;
          }
          var retryAfter := retry.Retry();
          Add(Totals(0, ElapsedMilliseconds(elapsed)));
          next := if a.waitCancelled then Fault(TaskCanceled) else Proceed(retryAfter);
      }
    }

    /**
      CreateWorkerAsync over a script of attempts; returns the waits between
      iterations and the exception that ended the worker, if any.
    */
    method CreateWorker(script: seq<Attempt>) returns (waits: seq<nat>, fault: Option<Failure>)
      modifies this
      ensures RunWorker(old(Counts()), InitialRetryTime, script) == Run(Counts(), waits, fault)
    {
      var retry := new RetryHandler();
      waits := [];
      var i := 0;
      while i < |script|
        invariant 0 <= i <= |script|
        invariant retry.Valid()
        invariant var rest := RunWorker(Counts(), retry.retryTime, script[i..]);
          RunWorker(old(Counts()), InitialRetryTime, script) == Run(rest.counters, waits + rest.waits, rest.fault)
      {
        assert script[i..][1..] == script[i + 1..];
        var next := Iterate(retry, script[i]);
        match next {
          case Proceed(wait) =>
            waits := waits + [wait];
          case Stop =>
            return waits, None;
          case Fault(failure) =>
            return waits, Some(failure);
        }
        i := i + 1;
      }
      assert waits + [] == waits;
      return waits, None;
    }

    /**
      TrackMetricsAsync over a trace: worker additions are applied as they
      come; each tick reads the counters, lets the concurrent additions happen,
      subtracts what it read and logs it; a cancelled delay ends the reporter.
      Returns the reports and the exception that ended the reporter, if any.
    */
    method TrackMetrics(events: seq<Event>) returns (reports: seq<Totals>, fault: Option<Failure>)
      modifies this
      ensures (Counts(), reports, fault) == Replay(old(Counts()), events)
    {
      reports := [];
      var i := 0;
      assert events[i..] == events;
      assert [] + Replay(Counts(), events).1 == Replay(Counts(), events).1;
      while i < |events|
        invariant 0 <= i <= |events|
        invariant var rest := Replay(Counts(), events[i..]);
          Replay(old(Counts()), events) == (rest.0, reports + rest.1, rest.2)
      {
        assert events[i..][1..] == events[i + 1..];
        match events[i] {
          case Add(amount) =>
            Add(amount);
          case Tick(during) =>
            var read := ReadCounters();
            Add(during);
            SubtractReported(read);
            assert reports + [read] + Replay(Counts(), events[i + 1..]).1
                == reports + ([read] + Replay(Counts(), events[i + 1..]).1);
            reports := reports + [read];
          case DelayCancelled =>
            assert reports + [] == reports;
            return reports, Some(TaskCanceled);
        }
        i := i + 1;
      }
      assert events[i..] == [];
      assert reports + [] == reports;
      return reports, None;
    }
  }
}
