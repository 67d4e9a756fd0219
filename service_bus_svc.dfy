/**
  ServiceBusSvc (src/Throughput/ServiceBus/Throughput.ServiceBusSvc/ServiceBusSvc.cs):
  each write sends a batch of BatchSize messages while the tracked queue length
  is at most TaskCount * BatchSize, and otherwise receives and completes up to
  BatchSize messages, keeping the tracked length in step. The queue client is
  not modelled; what its calls return or throw is an input.
*/
module ServiceBusSvc {
  import opened Wrappers
  import opened Outcomes
  import opened Platform
  import TW = ThroughputWorkload
  import RG = RandomGenerator

  const TaskCount: int := 32
  const BatchSize: int := 16
  const QueueThreshold: int := TaskCount * BatchSize

  /** What the queue client does during one write. */
  datatype Client = Client(
    receive: Result<Option<nat>, Failure>, // ReceiveAsync: the number of messages, None for a null result, or an exception
    complete: Option<Failure>,             // CompleteAsync throws
    send: Option<Failure>)                 // SendAsync throws

  /** The tracked length and the units reported by a write that returns. */
  datatype Written = Written(queueCount: int, units: int)

  /** WriteAsync as a function of the tracked length and the client's behaviour. */
  function Write(queueCount: int, client: Client): (r: Result<Written, Failure>)
    ensures queueCount <= QueueThreshold ==>
      r == (if client.send.Some? then Failure(client.send.value) else Success(Written(queueCount + BatchSize, BatchSize)))
    ensures queueCount > QueueThreshold && client.receive == Success(None) ==> r == Success(Written(queueCount, 0))
    ensures queueCount > QueueThreshold && r.Success? && client.receive != Success(None) ==>
      client.receive.Success? && client.receive.value.Some? && client.complete.None?
      && r.value == Written(queueCount - client.receive.value.value, client.receive.value.value)
    ensures r.Success? ==> r.value.queueCount == queueCount + (if queueCount <= QueueThreshold then r.value.units else -r.value.units)
  {
    if queueCount > QueueThreshold then
      match client.receive
      case Failure(failure) => Failure(failure)
      case Success(None) => Success(Written(queueCount, 0))
      case Success(Some(count)) =>
        if client.complete.Some? then Failure(client.complete.value)
        else Success(Written(queueCount - count, count))
    else if client.send.Some? then Failure(client.send.value)
    else Success(Written(queueCount + BatchSize, BatchSize))
  }

  /**
    For writes applied one at a time (concurrent workers can all read a length
    below the threshold before any of them adds its batch), whatever the client
    does, as long as a receive of BatchSize returns at most BatchSize messages,
    the tracked length never leaves
    [QueueThreshold - BatchSize + 1, QueueThreshold + BatchSize] once inside it,
    and never goes negative from anywhere in [0, QueueThreshold + BatchSize].
  */
  lemma CountStaysNearThreshold(queueCount: int, client: Client)
    requires 0 <= queueCount <= QueueThreshold + BatchSize
    requires client.receive.Success? && client.receive.value.Some? ==> client.receive.value.value <= BatchSize
    ensures Write(queueCount, client).Success? ==> 0 <= Write(queueCount, client).value.queueCount <= QueueThreshold + BatchSize
    ensures queueCount > QueueThreshold - BatchSize && Write(queueCount, client).Success? ==>
      Write(queueCount, client).value.queueCount > QueueThreshold - BatchSize
  {
  }

  /** IsThrottlingException: four seconds for a transient ServerBusyException, nothing otherwise. */
  function IsThrottlingException(failure: Failure): (delay: Option<nat>)
    ensures delay.Some? <==> failure == ServerBusy(true)
    ensures delay.Some? ==> delay.value == FromSeconds(4)
  {
    match failure
    case ServerBusy(isTransient) => if isTransient then Some(FromSeconds(4)) else None
    case _ => None
  }

  /**
    Fed to ThroughputWorkload, a transient ServerBusy failure makes the worker
    wait four seconds without counting an error or touching the backoff; a
    non-transient one is an error with exponential backoff. Either wait ends
    the worker if cancellation cuts it short.
  */
  lemma ServerBusyWaitsFourSeconds(c: TW.Counters, retryTime: nat, a: Attempt)
    requires a.outcome.Failed? && !a.cancelled && a.outcome.failure.ServerBusy?
    ensures a.outcome.failure.isTransient ==>
      TW.Step(IsThrottlingException, c, retryTime, a) == TW.Transition(c, retryTime, HandlerWait(a.waitCancelled, FromSeconds(4)))
    ensures !a.outcome.failure.isTransient ==>
      TW.Step(IsThrottlingException, c, retryTime, a).counters.errors == c.errors + 1
      && TW.Step(IsThrottlingException, c, retryTime, a).next == HandlerWait(a.waitCancelled, retryTime)
  {
  }

  /**
    The batch WriteAsync sends: BatchSize fresh PerformanceData records, the
    i-th built from its own GUID, clock reading and random draws.
  */
  method CreateMessages(guid: nat -> string, now: nat -> int, draws: nat -> RG.Draws)
    returns (messages: array<RG.PerformanceData>)
    ensures fresh(messages) && messages.Length == BatchSize
    ensures forall i :: 0 <= i < BatchSize ==> messages[i] == RG.GetPerformanceData(None, guid(i), now(i), draws(i))
  {
    messages := new RG.PerformanceData[BatchSize];
    var i := 0;
    while i < BatchSize
      invariant 0 <= i <= BatchSize
      invariant forall j :: 0 <= j < i ==> messages[j] == RG.GetPerformanceData(None, guid(j), now(j), draws(j))
    {
      messages[i] := RG.GetPerformanceData(None, guid(i), now(i), draws(i));
      i := i + 1;
    }
  }

  class ServiceBusSvc {
    /** `_queueCount`, the tracked queue length. */
    var queueCount: int

    constructor ()
      ensures queueCount == 0
    {
      queueCount := 0;
    }

    /**
      WriteAsync: above the threshold, receive up to BatchSize messages and, if
      any came back, complete them and take their number off the tracked
      length; otherwise send BatchSize messages and add BatchSize. Returns the
      number of messages moved and the batch built for sending (empty on the
      receive side); an exception leaves the length unchanged.
    */
    method WriteAsync(client: Client, guid: nat -> string, now: nat -> int, draws: nat -> RG.Draws)
      returns (r: Result<int, Failure>, built: seq<RG.PerformanceData>)
      modifies this
      ensures old(queueCount) <= QueueThreshold ==>
        |built| == BatchSize && forall i :: 0 <= i < BatchSize ==> built[i] == RG.GetPerformanceData(None, guid(i), now(i), draws(i))
      ensures old(queueCount) > QueueThreshold ==> built == []
      ensures Write(old(queueCount), client).Success? ==>
        r == Success(Write(old(queueCount), client).value.units)
        && queueCount == Write(old(queueCount), client).value.queueCount
      ensures Write(old(queueCount), client).Failure? ==>
        r == Failure(Write(old(queueCount), client).error) && queueCount == old(queueCount)
    {
      built := [];
      if queueCount > QueueThreshold {
        match client.receive {
          case Failure(failure) =>
            return Failure(failure), built;
          case Success(messages) =>
            if messages.Some? {
              if client.complete.Some? {
                return Failure(client.complete.value), built;
              }
              queueCount := queueCount - messages.value;
              return Success(messages.value), built;
            }
        }
      } else {
        var batch := CreateMessages(guid, now, draws);
        built := batch[..];
        if client.send.Some? {
          return Failure(client.send.value), built;
        }
        queueCount := queueCount + BatchSize;
        return Success(BatchSize), built;
      }
      return Success(0), built;
    }
  }
}
