/**
  The vocabulary shared by the workload engines: the failures an operation can
  raise, the outcome of one call of the operation, and what a worker does next.
  Every time value is a count of 100-nanosecond ticks (see module Platform).
*/
module Outcomes {
  import opened Wrappers

  /** The exception kinds the engines and the backend classifiers tell apart. */
  datatype Failure =
    | DocumentClientError(statusCode: int, retryAfter: nat)  // DocumentClientException with its RetryAfter
    | ServerBusy(isTransient: bool)                           // ServerBusyException
    | FabricNotPrimary                                        // FabricNotPrimaryException
    | FabricNotReadable                                       // FabricNotReadableException
    | ArgumentOutOfRange                                      // e.g. Random.Next(min, max) with min > max
    | TaskCanceled                                            // Task.Delay(_, token) ended by cancellation
    | OtherFailure                                            // any other exception

  /**
    A throttle classifier: the delay the backend asked for when the failure
    is a throttling signal, None otherwise.
  */
  type Classifier = Failure -> Option<nat>

  /**
    What one invocation of the workload operation did, with the ticks the
    worker's stopwatch measured around it. `units` is the count a throughput
    operation returns; the latency engines ignore it.
  */
  datatype Outcome =
    | Succeeded(units: int, elapsed: nat)
    | Failed(failure: Failure, elapsed: nat)

  /**
    One iteration of a worker loop as the environment decides it: the
    operation's outcome, whether cancellation has been requested by the time the
    worker looks at the token after the call, the raw draws of the worker's
    private random source for the key and for the inter-request delay (engines
    that draw neither ignore them), and whether cancellation is requested while
    the worker then waits (the delay after a success or the backoff after a
    failure), so that Task.Delay ends with TaskCanceledException.
  */
  datatype Attempt = Attempt(outcome: Outcome, cancelled: bool, keyDraw: nat, delayDraw: nat, waitCancelled: bool)

  /**
    The failure handler's `await Task.Delay(wait, token)`: the worker goes on
    after the wait, unless cancellation cuts it short, in which case
    TaskCanceledException leaves the loop, since no handler surrounds the
    handler itself.
  */
  function HandlerWait(waitCancelled: bool, wait: nat): (next: Next)
    ensures next.Fault? <==> waitCancelled
    ensures next.Fault? ==> next.failure == TaskCanceled
    ensures next.Proceed? ==> next.wait == wait
  {
    if waitCancelled then Fault(TaskCanceled) else Proceed(wait)
  }

  /**
    In the throughput loops, whose only waits sit in the failure handler: a
    failure handled before cancellation whose wait cancellation then cuts short.
    No handler surrounds that wait, so TaskCanceledException leaves the worker.
  */
  predicate WaitInterrupted(a: Attempt)
  {
    a.outcome.Failed? && !a.cancelled && a.waitCancelled
  }

  /** In the throughput loops: the attempt after which the worker is gone. */
  predicate EndsWorker(a: Attempt)
  {
    a.cancelled || WaitInterrupted(a)
  }

  /**
    A throughput worker running `script` ends with TaskCanceledException: the
    first attempt that ends it is a failure whose wait cancellation cuts short.
  */
  predicate CancelledInWait(script: seq<Attempt>)
    decreases |script|
  {
    script != [] && (WaitInterrupted(script[0]) || (!EndsWorker(script[0]) && CancelledInWait(script[1..])))
  }

  /** What a worker does once an iteration is over. */
  datatype Next =
    | Proceed(wait: nat)      // wait that many ticks, then run the next iteration
    | Stop                    // leave the loop normally (cancellation)
    | Fault(failure: Failure) // an exception escaped the loop and ended the worker

  /** Stands for an ILogger; what is logged is not modelled. */
  datatype Logger = Logger

  /** ArgumentNullException with the name of the offending parameter. */
  datatype ArgumentNull = ArgumentNull(paramName: string)
}
