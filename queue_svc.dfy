/**
  QueueSvc (src/Throughput/ServiceFabric/Throughput.QueueSvc/QueueSvc.cs): each
  write runs one transaction on a reliable queue, enqueuing while the tracked
  queue length is below TaskCount * batchSize and dequeuing otherwise, and adds
  the net change to the tracked length only once the transaction has
  committed. The reliable queue itself is not modelled; which of its calls
  throws is an input.
*/
module QueueSvc {
  import opened Wrappers
  import opened Outcomes
  import opened Platform
  import opened Retry
  import TW = ThroughputWorkload

  const TaskCount: int := 256
  const BatchSize: int := 1
  const QueueThreshold: int := TaskCount * BatchSize

  /** Which reliable-collection call of a write throws, if any. */
  datatype WriteFault =
    | NoFault
    | QueueOpFault(at: nat, failure: Failure) // EnqueueAsync / TryDequeueAsync of the at-th batch item
    | CommitFault(failure: Failure)           // CommitAsync

  /** The net change one committed write makes to the tracked length. */
  function Delta(queueCount: int): (d: int)
    ensures queueCount < QueueThreshold ==> d == BatchSize
    ensures queueCount >= QueueThreshold ==> d == -BatchSize
  {
    if queueCount < QueueThreshold then BatchSize else -BatchSize
  }

  /** Whether the write gets as far as adding its delta. */
  predicate Commits(fault: WriteFault) {
    fault.NoFault? || (fault.QueueOpFault? && fault.at >= BatchSize)
  }

  /**
    For writes applied one at a time (concurrent workers can all read a length
    below the threshold before any of them commits), starting anywhere in
    [0, QueueThreshold], the tracked length never leaves it, whatever the
    writes do: it climbs by one per committed write up to the
    threshold, then alternates between QueueThreshold and QueueThreshold - 1.
  */
  lemma CountStaysWithinThreshold(queueCount: int)
    requires 0 <= queueCount <= QueueThreshold
    ensures 0 <= queueCount + Delta(queueCount) <= QueueThreshold
    ensures queueCount == QueueThreshold ==> queueCount + Delta(queueCount) == QueueThreshold - 1
    ensures queueCount < QueueThreshold ==> queueCount + Delta(queueCount) == queueCount + 1
  {
  }

  /** The length after a sequence of committed writes. */
  function AfterWrites(queueCount: int, writes: nat): int
    decreases writes
  {
    if writes == 0 then queueCount else AfterWrites(queueCount + Delta(queueCount), writes - 1)
  }

  /**
    From a length c in [0, QueueThreshold], the tracked length after n
    committed writes applied one at a time is c + n up to the threshold, then QueueThreshold or
    QueueThreshold - 1 for ever.
  */
  lemma {:induction false} FillsThenHovers(queueCount: int, writes: nat)
    requires 0 <= queueCount <= QueueThreshold
    ensures 0 <= AfterWrites(queueCount, writes) <= QueueThreshold
    ensures queueCount + writes <= QueueThreshold ==> AfterWrites(queueCount, writes) == queueCount + writes
    ensures queueCount + writes > QueueThreshold ==> AfterWrites(queueCount, writes) >= QueueThreshold - 1
    decreases writes
  {
    if writes > 0 {
      CountStaysWithinThreshold(queueCount);
      FillsThenHovers(queueCount + Delta(queueCount), writes - 1);
    }
  }

  /** IsKnownException: one second for not-primary and not-readable replicas, nothing otherwise. */
  function IsKnownException(failure: Failure): (delay: Option<nat>)
    ensures delay.Some? <==> failure == FabricNotPrimary || failure == FabricNotReadable
    ensures delay.Some? ==> delay.value == FromSeconds(1)
  {
    if failure == FabricNotPrimary || failure == FabricNotReadable then Some(FromSeconds(1)) else None
  }

  /**
    Fed to ThroughputWorkload, a replica that is not primary or not readable
    makes the worker wait one second without counting an error or touching the
    backoff; any other failure is an error with exponential backoff. Either
    wait ends the worker if cancellation cuts it short.
  */
  lemma KnownExceptionsWaitOneSecond(c: TW.Counters, retryTime: nat, a: Attempt)
    requires a.outcome.Failed? && !a.cancelled
    ensures a.outcome.failure in {FabricNotPrimary, FabricNotReadable} ==>
      TW.Step(IsKnownException, c, retryTime, a) == TW.Transition(c, retryTime, HandlerWait(a.waitCancelled, FromSeconds(1)))
    ensures a.outcome.failure !in {FabricNotPrimary, FabricNotReadable} ==>
      TW.Step(IsKnownException, c, retryTime, a).counters.errors == c.errors + 1
      && TW.Step(IsKnownException, c, retryTime, a).next == HandlerWait(a.waitCancelled, retryTime)
  {
  }

  class QueueSvc {
    /** `_queueCount`, the tracked queue length. */
    var queueCount: int

    /** CreateWorkloadAsync seeds the tracked length with the queue's count. */
    constructor (initialCount: int)
      ensures queueCount == initialCount
    {
      queueCount := initialCount;
    }

    /**
      WriteAsync: one transaction of BatchSize enqueues (below the threshold)
      or dequeues (at or above it). The tracked length moves by the net change
      only after the commit; if any call throws, the exception propagates and
      the length is unchanged. A completed write reports BatchSize units.
    */
    method WriteAsync(fault: WriteFault) returns (r: Result<int, Failure>)
      modifies this
      ensures Commits(fault) ==> r == Success(BatchSize) && queueCount == old(queueCount) + Delta(old(queueCount))
      ensures fault.CommitFault? ==> r == Failure(fault.failure) && queueCount == old(queueCount)
      ensures fault.QueueOpFault? && fault.at < BatchSize ==> r == Failure(fault.failure) && queueCount == old(queueCount)
    {
      var delta := 0;
      var i := 0;
      while i < BatchSize
        invariant 0 <= i <= BatchSize
        invariant delta == if queueCount < QueueThreshold then i else -i
        invariant fault.QueueOpFault? ==> fault.at >= i
      {
        if fault.QueueOpFault? && fault.at == i {
          return Failure(fault.failure);
        }
        if queueCount < QueueThreshold {
          delta := delta + 1;
        } else {
          delta := delta - 1;
        }
        i := i + 1;
      }
      if fault.CommitFault? {
        return Failure(fault.failure);
      }
      queueCount := queueCount + delta;
      return Success(BatchSize);
    }
  }
}
