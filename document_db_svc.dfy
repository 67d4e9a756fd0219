/**
  DocumentDbSvc (src/Throughput/DocumentDB/Throughput.DocumentDbSvc/DocumentDbSvc.cs):
  each write takes the next value of a 64-bit id counter, derives the document
  key from it modulo one million, and upserts one document. The document
  client is not modelled; whether the upsert throws is an input.
*/
module DocumentDbSvc {
  import opened Wrappers
  import opened Outcomes
  import opened Platform
  import TW = ThroughputWorkload

  const KeySpace: int := 1000000

  /** The key derived from an id: C#'s `id % 1000000`, negative for a negative id. */
  function KeyOf(id: int): (key: int)
    ensures 0 <= id ==> 0 <= key < KeySpace && key == id % KeySpace
    ensures id < 0 ==> -KeySpace < key <= 0
  {
    TruncRem(id, KeySpace)
  }

  /**
    Ids that are less than a million apart give different keys, so up to a
    million consecutive writes never share a document.
  */
  lemma ConsecutiveKeysDistinct(id1: int, id2: int)
    requires 0 <= id1 < id2 < id1 + KeySpace
    ensures KeyOf(id1) != KeyOf(id2)
  {
  }

  /**
    Once the counter wraps past Int64.MaxValue, the id becomes Int64.MinValue
    and the key becomes negative (-775808).
  */
  lemma KeyAfterWrap()
    ensures Wrap64(Int64Max + 1) == Int64Min
    ensures KeyOf(Wrap64(Int64Max + 1)) == -775808
  {
  }

  /** IsThrottlingException: a DocumentClientException with status 429 yields its RetryAfter. */
  function IsThrottlingException(failure: Failure): (delay: Option<nat>)
    ensures delay.Some? <==> failure.DocumentClientError? && failure.statusCode == 429
    ensures delay.Some? ==> delay.value == failure.retryAfter
  {
    match failure
    case DocumentClientError(statusCode, retryAfter) => if statusCode == 429 then Some(retryAfter) else None
    case _ => None
  }

  /**
    Fed to ThroughputWorkload, a 429 makes the worker wait exactly the
    RetryAfter the service asked for, without counting an error or touching the
    backoff; any other failure is an error with exponential backoff. Either
    wait ends the worker if cancellation cuts it short.
  */
  lemma TooManyRequestsWaitsRetryAfter(c: TW.Counters, retryTime: nat, a: Attempt)
    requires a.outcome.Failed? && !a.cancelled
    ensures a.outcome.failure.DocumentClientError? && a.outcome.failure.statusCode == 429 ==>
      TW.Step(IsThrottlingException, c, retryTime, a) == TW.Transition(c, retryTime, HandlerWait(a.waitCancelled, a.outcome.failure.retryAfter))
    ensures !(a.outcome.failure.DocumentClientError? && a.outcome.failure.statusCode == 429) ==>
      TW.Step(IsThrottlingException, c, retryTime, a).counters.errors == c.errors + 1
      && TW.Step(IsThrottlingException, c, retryTime, a).next == HandlerWait(a.waitCancelled, retryTime)
  {
  }

  class DocumentDbSvc {
    /** `_id`, the 64-bit id counter. */
    var id: int

    constructor ()
      ensures id == 0
    {
      id := 0;
    }

    /**
      WriteAsync: Interlocked.Increment on the id (wrapping at 64 bits), the key
      derived from the new id, then the upsert. The id has moved even when the
      upsert throws; a completed write reports one unit.
    */
    method WriteAsync(upsert: Option<Failure>) returns (r: Result<int, Failure>, key: int)
      modifies this
      ensures id == Wrap64(old(id) + 1)
      ensures key == KeyOf(id)
      ensures 0 <= old(id) < Int64Max ==> id == old(id) + 1 && 0 <= key < KeySpace
      ensures r == if upsert.Some? then Failure(upsert.value) else Success(1)
    {
      id := Wrap64(id + 1);
      key := KeyOf(id);
      if upsert.Some? {
        return Failure(upsert.value), key;
      }
      return Success(1), key;
    }
  }
}
