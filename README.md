# azure-performance workload engine, in Dafny

azure-performance is a benchmarking suite. It runs many concurrent workers
against Azure backends (SQL, Cosmos DB/DocumentDB, Service Bus, Event Hub,
Redis, Storage, Service Fabric reliable collections) and reports throughput
and latency. This project models the engine shared by all of them, with the
I/O and the thread scheduling taken out:

- **Backoff.** `RetryHandler` is a capped exponential backoff: 1 s, doubling on every
  failure, at most 30 s, and back to 1 s on a success (`retry_handler.dfy`).
- **Scoring.** `WorkloadScore` sorts a call into 1.0, 0.5 or 0.0 by its elapsed time (`workload_score.dfy`).
- **Sample lists.** The two `Metric` classes are append-only sample lists
  (`metric.dfy`, `seeded_metric.dfy`). `MetricExtensions.LogMetric` keeps a
  per-name rolling window of at most 100 samples and logs the statistics
  whenever a window fills up (`metric_extensions.dfy`).
- **Throughput engines.** The original one (`throughput_workload.dfy`) counts
  operations, latency and errors, lets a throttle classifier turn a failure
  into a plain wait, and reports the difference between the counters and the
  last reported snapshot, skipping empty windows. The Throughput.Common one
  (`throughput_common.dfy`) has no error counter and no classifier, and drains
  the counters by reading them and subtracting what it read.
- **Latency engines.** Three of them share one worker loop (`latency_loop.dfy`):
  `LatencyWorkload` (`latency_workload.dfy`) and the two `Workload` classes
  (`workload.dfy`, `latency_common_workload.dfy`). The loop draws a key from a
  per-task range, calls the operation, records it, and waits a random delay
  in [min, max). A failure is recorded and followed by a backoff wait.
  Cancellation during that backoff wait ends the worker with
  TaskCanceledException. The
  engines differ only in how they record a call.
- **Record generator.** `RandomGenerator` builds the `PerformanceData` record
  each call writes (`random_generator.dfy`).
- **Backend bookkeeping.** These are the counters and throttle classifiers three backends feed into
  the throughput engine: the Service Fabric reliable queue (`queue_svc.dfy`),
  Service Bus (`service_bus_svc.dfy`) and DocumentDB (`document_db_svc.dfy`).

The .NET pieces the engines rely on have their own module, `platform.dfy`:

- TimeSpan and Stopwatch arithmetic in 100 ns ticks;
- `Task.Delay`'s argument rules;
- `System.Random` with each draw passed in as a number;
- 32- and 64-bit wrap-around;
- C#'s truncating `%`.

A worker's environment is written as a script of `Attempt`s. Each attempt gives:

- the outcome of one call (units returned and elapsed ticks, or a failure kind and elapsed ticks);
- whether cancellation had been requested by the time the worker looks;
- whether cancellation is requested while the worker then waits;
- the random draws for the key and the delay.

The end of the script stands for the cancellation the loop sees at its top.
Each engine has a pure step function and a run function that specify it. A
class method runs the real loop over the script, and its `ensures` ties the
loop to the run function.

## Model

| member | source | states |
|---|---|---|
| Platform.ElapsedMilliseconds | src/common/utility/ThroughputWorkload.cs:135 | Stopwatch.ElapsedMilliseconds is the whole number of milliseconds in the elapsed ticks, rounded down |
| Platform.TotalMilliseconds | src/common/utility/LatencyWorkload.cs:100 | Elapsed.TotalMilliseconds times 10000 is exactly the elapsed ticks |
| Platform.TaskDelay | src/common/utility/LatencyWorkload.cs:105 | Task.Delay(ms) throws ArgumentOutOfRangeException exactly when ms < -1, waits for ever exactly when ms = -1, and otherwise waits ms milliseconds |
| Platform.Wrap32 | src/common/utility/LatencyWorkload.cs:81-82 | unchecked int arithmetic: the result is an int32 congruent to the exact value mod 2^32, and equal to it when it fits |
| Platform.Wrap64 | src/Throughput/DocumentDB/Throughput.DocumentDbSvc/DocumentDbSvc.cs:88 | Interlocked.Increment on a long: an int64 congruent to the exact value mod 2^64, and equal to it when it fits |
| Platform.TruncRem | src/Throughput/DocumentDB/Throughput.DocumentDbSvc/DocumentDbSvc.cs:88 | C#'s `%` takes the sign of the dividend: in [0, b) for a non-negative dividend, in (-b, 0] for a negative one |
| Platform.Next | src/Latency/Common/Latency.Common/Data/RandomGenerator.cs:34 | Random.Next(n) lies in [0, n) |
| Platform.NextRange | src/common/utility/LatencyWorkload.cs:87 | Random.Next(min, max) throws ArgumentOutOfRangeException exactly when min > max, returns min when they are equal, and otherwise lies in [min, max) |
| Platform.NextInt | src/Latency/Common/Latency.Common/Data/RandomGenerator.cs:23 | Random.Next() lies in [0, Int32.MaxValue) |
| Retry.Doubled | src/Common/Utility/RetryHandler.cs:16-18 | from a retry time within the cap, doubling gives a value between the old one and 30 s; below the cap it is exactly twice the old one |
| Retry.AlwaysInRange | src/Common/Utility/RetryHandler.cs:7-26 | any sequence of Retry/Reset calls keeps RetryTime in [1 s, 30 s] |
| Retry.BackoffSequence | src/Common/Utility/RetryHandler.cs:12-21 | consecutive Retry() calls return 1, 2, 4, 8, 16 seconds and then 30 s for ever |
| Retry.BackoffNonDecreasing | src/Common/Utility/RetryHandler.cs:12-21 | the values consecutive Retry() calls return never decrease and stay in [1 s, 30 s] |
| Retry.RetryHandler.constructor | src/Common/Utility/RetryHandler.cs:10 | a new handler starts at 1 s |
| Retry.RetryHandler.Retry | src/Common/Utility/RetryHandler.cs:12-21 | returns RetryTime as it was before the call, sets it to min(2 × old, 30 s), never lowers it and keeps it in [1 s, 30 s] |
| Retry.RetryHandler.Reset | src/Common/Utility/RetryHandler.cs:23-26 | from any state, sets RetryTime to 1 s and returns 1 s |
| WorkloadScore.Score | src/Common/Utility/WorkloadScore.cs:10-17 | 1.0 exactly below 100 ms, 0.5 exactly in [100 ms, 1000 ms), 0.0 exactly from 1000 ms on |
| WorkloadScore.ScoreFailure | src/Common/Utility/WorkloadScore.cs:19-22 | a failure scores 0.0, never more than a success of the same duration |
| WorkloadScore.ScoreNonIncreasing | src/Common/Utility/WorkloadScore.cs:10-17 | a slower call never scores more than a faster one |
| WorkloadScore.ScoreByMilliseconds | src/Common/Utility/WorkloadScore.cs:7-17 | in whole milliseconds the score is 1.0 exactly below 100 and 0.0 exactly from 1000; it is always 0, 0.5 or 1, and exactly 100 ms scores 0.5 |
| Metrics.Metric.constructor | src/common/metrics/Metric.cs:28-31 | Metric(name) has that name and no samples |
| Metrics.Metric.WithValue | src/common/metrics/Metric.cs:33-37 | Metric(name, value) has that name and exactly the one sample value |
| Metrics.Metric.AddSample | src/common/metrics/Metric.cs:39-43 | inserting at index Count appends the value: Count grows by one, earlier samples are untouched, the same metric is returned |
| SeededMetrics.Metric.constructor | src/Common/Metrics/Metric.cs:26-30 | the only constructor yields exactly [value], so the metric is never empty |
| SeededMetrics.Metric.Count | src/Common/Metrics/Metric.cs:13 | Count is at least one |
| SeededMetrics.Metric.AddSample | src/Common/Metrics/Metric.cs:32-36 | appends the value at the end, Count grows by one, the same metric is returned |
| MetricExtensions.UpdatedSeries | src/Common/Metrics/MetricExtensions.cs:13-21 | a new name gets [value]; a window of 100 or more samples is replaced by [value]; a shorter one has value appended |
| MetricExtensions.LogKeepsWellFormed | src/Common/Metrics/MetricExtensions.cs:8-21 | every window keeps between 1 and 100 samples, the logged name's window ends with the value, and other names are unchanged |
| MetricExtensions.WindowSize | src/Common/Metrics/MetricExtensions.cs:15-21 | after n logs under one name the window holds between 1 and 100 samples |
| MetricExtensions.WindowFull | src/Common/Metrics/MetricExtensions.cs:23-27 | the window is full after the n-th log exactly when n is a multiple of 100 |
| MetricExtensions.LogAllIsWindow | src/Common/Metrics/MetricExtensions.cs:11-21 | logging a sequence under a new name leaves the window that the step-by-step window function gives, and no window if nothing was logged |
| MetricExtensions.LogAllWindow | src/Common/Metrics/MetricExtensions.cs:11-27 | after n logs under a new name the window is exactly the values since the last multiple of 100, and statistics are logged on the 100th, 200th, … call and no other |
| MetricExtensions.MetricStore.constructor | src/Common/Metrics/MetricExtensions.cs:9 | the dictionary starts empty (and so well formed) |
| MetricExtensions.MetricStore.LogMetric | src/Common/Metrics/MetricExtensions.cs:11-28 | the dictionary becomes the one-call update, and the window is returned for logging exactly when it holds 100 samples |
| ThroughputWorkload.ThrottledIgnoresBackoff | src/common/utility/ThroughputWorkload.cs:145-149 | a throttled failure waits exactly the classifier's delay and changes neither the counters nor the backoff; cancellation during that wait ends the worker with TaskCanceledException |
| ThroughputWorkload.DefaultClassifierCountsEveryFailure | src/common/utility/ThroughputWorkload.cs:137-161 | with the default classifier every failure seen before cancellation adds its elapsed ms to _latency and one error, doubles the backoff and waits the pre-doubling retry time, or ends the worker with TaskCanceledException if cancellation cuts that wait short |
| ThroughputWorkload.SuccessResetsBackoff | src/common/utility/ThroughputWorkload.cs:129-135 | whatever the classifier, a success adds its units to _operations and its elapsed ms to _latency, counts no error, resets the backoff to 1 s and goes straight on unless cancellation was requested |
| ThroughputWorkload.StepKeepsBackoffInRange | src/common/utility/ThroughputWorkload.cs:129-160 | a worker iteration keeps the backoff in [1 s, 30 s] |
| ThroughputWorkload.RunAddsEveryUnitOnce | src/common/utility/ThroughputWorkload.cs:123-163 | a worker adds to _operations exactly the units of its successful calls before cancellation, and to all three counters exactly its attempts' contribution (units and ms of successes; ms and one error per unthrottled failure; nothing for throttled or cancelled failures), whatever the classifier and backoff; it ends with an exception exactly when cancellation cuts short a wait in its failure handler, and that exception is TaskCanceledException |
| ThroughputWorkload.TrackTelescopes | src/common/utility/ThroughputWorkload.cs:81-108 | the reports add up to the final snapshot minus the start for operations, latency and errors, and no report has zero operations |
| ThroughputWorkload.TrackMetrics | src/common/utility/ThroughputWorkload.cs:65-115 | the reporter loop yields the reports and snapshot of the window-difference function; the reports sum to the snapshot and none is empty |
| ThroughputWorkload.ThroughputWorkload.constructor | src/common/utility/ThroughputWorkload.cs:21-26 | the name and classifier are kept and all counters start at zero |
| ThroughputWorkload.ThroughputWorkload.Create | src/common/utility/ThroughputWorkload.cs:21-26 | a null logger, then a null name, is an ArgumentNullException; a missing classifier becomes the one that throttles nothing |
| ThroughputWorkload.ThroughputWorkload.Iterate | src/common/utility/ThroughputWorkload.cs:125-161 | one loop body changes the counters, the backoff and the next action exactly as the step function says |
| ThroughputWorkload.ThroughputWorkload.CreateWorker | src/common/utility/ThroughputWorkload.cs:117-164 | the worker loop ends with the counters, waits and exception of the run function |
| ThroughputCommon.RunAddsContribution | src/Throughput/Common/Throughput.Common/Utility/ThroughputWorkload.cs:73-102 | a worker adds exactly its attempts' contribution: the units and ms of successes, the ms of failures, up to cancellation, whatever the backoff; it ends with TaskCanceledException exactly when cancellation cuts short a backoff wait, and otherwise with no exception |
| ThroughputCommon.FailuresBackOff | src/Throughput/Common/Throughput.Common/Utility/ThroughputWorkload.cs:92-100 | a run of failures waits Backoff(n), Backoff(n+1), …, one wait per failure, until cancellation cuts one of those waits short and the worker ends with TaskCanceledException |
| ThroughputCommon.ReportsConserve | src/Throughput/Common/Throughput.Common/Utility/ThroughputWorkload.cs:42-65 | reported totals plus what is left in the counters equal the start plus everything the workers added while the reporter ran, even with adds racing the drain; every tick reports once; the reporter ends with TaskCanceledException exactly when cancellation cuts short its one-second delay |
| ThroughputCommon.TickLeavesConcurrentAdds | src/Throughput/Common/Throughput.Common/Utility/ThroughputWorkload.cs:52-63 | a tick reports what it read and leaves in the counters exactly what was added while it was logging |
| ThroughputCommon.ThroughputWorkload.constructor | src/Throughput/Common/Throughput.Common/Utility/ThroughputWorkload.cs:19-23 | the name is kept and both counters start at zero |
| ThroughputCommon.ThroughputWorkload.Create | src/Throughput/Common/Throughput.Common/Utility/ThroughputWorkload.cs:19-23 | a null logger, then a null name, is an ArgumentNullException |
| ThroughputCommon.ThroughputWorkload.Add | src/Throughput/Common/Throughput.Common/Utility/ThroughputWorkload.cs:84-85 | the counters grow by the amount added |
| ThroughputCommon.ThroughputWorkload.ReadCounters | src/Throughput/Common/Throughput.Common/Utility/ThroughputWorkload.cs:52-53 | the read returns the current counters and changes nothing |
| ThroughputCommon.ThroughputWorkload.SubtractReported | src/Throughput/Common/Throughput.Common/Utility/ThroughputWorkload.cs:62-63 | the counters drop by exactly what was read |
| ThroughputCommon.ThroughputWorkload.Iterate | src/Throughput/Common/Throughput.Common/Utility/ThroughputWorkload.cs:75-101 | one loop body changes the counters, the backoff and the next action exactly as the step function says |
| ThroughputCommon.ThroughputWorkload.CreateWorker | src/Throughput/Common/Throughput.Common/Utility/ThroughputWorkload.cs:67-103 | the worker loop ends with the counters, waits and exception of the run function |
| ThroughputCommon.ThroughputWorkload.TrackMetrics | src/Throughput/Common/Throughput.Common/Utility/ThroughputWorkload.cs:42-65 | the drain loop over a trace of adds, ticks and a cancelled delay ends with the counters, reports and exception of the replay function |
| LatencyLoop.KeyInTaskRange | src/common/utility/LatencyWorkload.cs:81-87 | with at least one key per task and when the range fits an int, every key task t draws lies in [t·k, (t+1)·k) |
| LatencyLoop.KeysDisjoint | src/common/utility/LatencyWorkload.cs:80-87 | with at least one key per task and when both tasks' ranges fit an int, two different tasks never draw the same key (with int wrap-around they can) |
| LatencyLoop.RangesCollideWhenProductsWrap | src/common/utility/LatencyWorkload.cs:81-82 | with 2^30 keys per task the int products wrap and tasks 2 and 6 get the same range [Int32.MinValue, -2^30) |
| LatencyLoop.DelayWithinBounds | src/common/utility/LatencyWorkload.cs:103-105 | with 0 ≤ min < max, the wait after a success is a whole number of ms in [min, max) and the backoff is reset |
| LatencyLoop.MisorderedDelayBoundsFailEverySuccess | src/common/utility/LatencyWorkload.cs:94-124 | with min > max every success also goes through the failure handler with ArgumentOutOfRangeException and waits 1 s, or ends with TaskCanceledException if cancellation cuts that wait short |
| LatencyLoop.AfterKeepsBackoffInRange | src/common/utility/LatencyWorkload.cs:94-124 | an iteration keeps the backoff in [1 s, 30 s] |
| LatencyLoop.RunFaultsIffKeysMisordered | src/common/utility/LatencyWorkload.cs:81-126 | a key range with min > max ends the worker with ArgumentOutOfRangeException before any call; otherwise a worker ends with an exception exactly when its last iteration is a handled failure whose backoff wait cancellation cuts short, that exception is TaskCanceledException, and no earlier iteration is such a failure |
| LatencyLoop.WaitsBetweenIterations | src/common/utility/LatencyWorkload.cs:84-127 | one wait between consecutive iterations, none after the last, and at most one iteration per attempt; each wait is the drawn delay after a completed call, 1 s after a success whose delay failed, and a backoff in [1 s, 30 s] after a failed call |
| LatencyWorkload.SamplesCountCallsAndErrors | src/common/utility/LatencyWorkload.cs:94-120 | _errors grows by the handled failures; _latency.Count grows by the completed calls plus the handled failures; earlier samples are kept |
| LatencyWorkload.DelayFailureCountsCallTwice | src/common/utility/LatencyWorkload.cs:98-120 | a success whose delay then throws adds the same duration twice and one error |
| LatencyWorkload.LatencyWorkload.constructor | src/common/utility/LatencyWorkload.cs:23-33 | the settings are kept; the latency metric is named "latency" and empty; errors start at zero |
| LatencyWorkload.LatencyWorkload.Create | src/common/utility/LatencyWorkload.cs:13-33 | a null logger, then a null name, is an ArgumentNullException; otherwise the given settings are kept, an omitted one defaults to 10000 keys per task and a 500–1500 ms delay, and nothing is recorded |
| LatencyWorkload.LatencyWorkload.Perform | src/common/utility/LatencyWorkload.cs:91-125 | one iteration records samples and errors, moves the backoff and picks the next action as the record and transition functions say |
| LatencyWorkload.LatencyWorkload.CreateWorker | src/common/utility/LatencyWorkload.cs:74-127 | the worker loop ends with the waits and fault of the run function, having recorded exactly its iterations |
| Workload.MetricNamesNeverCollide | src/Common/Utility/Workload.cs:30-31 | no "…Time" name equals any "…Score" name, and different workloads get different names |
| Workload.LogPairKeepsPaired | src/Common/Utility/Workload.cs:62-63 | logging a time and a score keeps both windows the same length and well formed, ends them with the logged values, makes them report together and leaves other names alone |
| Workload.LoggedAllKeepsPaired | src/Common/Utility/Workload.cs:57-83 | over any run the time and score windows stay paired and well formed |
| Workload.LoggedScoreMatchesTime | src/Common/Utility/Workload.cs:57-79 | the score logged next to a success is 1.0 exactly when the logged time is below 100 ms and 0.0 exactly when it is at least 1000 ms; a failure logs 0.0 |
| Workload.LogCall | src/Common/Utility/Workload.cs:62-63 | the two LogMetric calls update the dictionary as two one-call updates |
| Workload.Perform | src/Common/Utility/Workload.cs:55-83 | one iteration logs, moves the backoff and picks the next action as the log and transition functions say |
| Workload.Work | src/Common/Utility/Workload.cs:37-86 | the InvokeAsync loop ends with the waits and fault of the run function, having logged exactly its iterations |
| Workload.Workload.constructor | src/Common/Utility/Workload.cs:26-35 | the metric names are name + "Time" and name + "Score", and the settings are kept |
| Workload.Workload.Create | src/Common/Utility/Workload.cs:12-35 | a null logger, then a null name, is an ArgumentNullException; otherwise the names are as above, the given settings are kept and an omitted one defaults to 10000 keys per task and a 500–1500 ms delay |
| Workload.Workload.InvokeAsync | src/Common/Utility/Workload.cs:37-86 | the worker for task t runs the shared loop with t's key range and logs exactly its iterations |
| LatencyCommonWorkload.FaultsOnlyOnCancelledBackoff | src/Latency/Common/Latency.Common/Utility/Workload.cs:37-71 | without a key draw, whatever the delay bounds, a worker ends with an exception exactly when its last iteration is a handled failure whose backoff wait cancellation cuts short, and that exception is TaskCanceledException |
| LatencyCommonWorkload.Workload.constructor | src/Latency/Common/Latency.Common/Utility/Workload.cs:21-29 | the metric names are name + "Time" and name + "Score", and the delay bounds are kept |
| LatencyCommonWorkload.Workload.Create | src/Latency/Common/Latency.Common/Utility/Workload.cs:11-29 | a null logger, then a null name, is an ArgumentNullException; otherwise the given delay bounds are kept and omitted ones default to 500 and 1500 ms |
| LatencyCommonWorkload.Workload.InvokeAsync | src/Latency/Common/Latency.Common/Utility/Workload.cs:31-72 | the loop ends only on cancellation: normally, or with TaskCanceledException passed to the caller when cancellation cuts a backoff wait short; it logs exactly the iterations of the run function |
| RandomGenerator.Letter | src/Latency/Common/Latency.Common/Data/RandomGenerator.cs:34 | (char)('a' + Next(26)) is a lowercase letter |
| RandomGenerator.RandomString | src/Latency/Common/Latency.Common/Data/RandomGenerator.cs:29-38 | the string has exactly the requested length, is all lowercase, and its i-th letter comes from the i-th draw |
| RandomGenerator.LetterDraw | src/Latency/Common/Latency.Common/Data/RandomGenerator.cs:34 | each lowercase letter is produced by some draw |
| RandomGenerator.EveryLowercaseStringIsReachable | src/Latency/Common/Latency.Common/Data/RandomGenerator.cs:29-38 | every lowercase string of a length is produced by some draws, so the generator's range is exactly the lowercase strings |
| RandomGenerator.GetRandomString | src/Latency/Common/Latency.Common/Data/RandomGenerator.cs:29-38 | the StringBuilder loop returns exactly RandomString of the draws |
| RandomGenerator.GetPerformanceData | src/Latency/Common/Latency.Common/Data/RandomGenerator.cs:15-27 | the record has the given id or else the GUID, the current time, a TTL of 86400 s, a lowercase string of 16 to 63 letters, an int and an integral double in [0, Int32.MaxValue), and a whole number of ms below one second |
| QueueSvc.Delta | src/Throughput/ServiceFabric/Throughput.QueueSvc/QueueSvc.cs:81-94 | below the threshold of 256 a write enqueues (+1), at or above it dequeues (-1) |
| QueueSvc.CountStaysWithinThreshold | src/Throughput/ServiceFabric/Throughput.QueueSvc/QueueSvc.cs:74-98 | for writes applied one at a time, from [0, 256] a committed write stays in [0, 256]: +1 below the threshold, down to 255 at it |
| QueueSvc.FillsThenHovers | src/Throughput/ServiceFabric/Throughput.QueueSvc/QueueSvc.cs:74-98 | after n committed writes from c, applied one at a time, the length is c + n up to 256, then 255 or 256 for ever |
| QueueSvc.IsKnownException | src/Throughput/ServiceFabric/Throughput.QueueSvc/QueueSvc.cs:104-110 | 1 s exactly for not-primary and not-readable failures, nothing otherwise |
| QueueSvc.KnownExceptionsWaitOneSecond | src/Throughput/ServiceFabric/Throughput.QueueSvc/QueueSvc.cs:104-110 | in the engine such a failure waits 1 s with no error and no backoff change; any other counts an error and backs off; either wait ends the worker with TaskCanceledException if cancellation cuts it short |
| QueueSvc.QueueSvc.constructor | src/Throughput/ServiceFabric/Throughput.QueueSvc/QueueSvc.cs:66 | the tracked length starts at the queue's count |
| QueueSvc.QueueSvc.WriteAsync | src/Throughput/ServiceFabric/Throughput.QueueSvc/QueueSvc.cs:72-102 | the tracked length moves by the delta only once the commit succeeds, and is unchanged when any call throws; a completed write returns 1 |
| ServiceBusSvc.Write | src/Throughput/ServiceBus/Throughput.ServiceBusSvc/ServiceBusSvc.cs:80-113 | at most 512 sends 16 and adds 16; above it a null receive returns 0 unchanged, and k received and completed messages subtract and return k; a throwing call propagates |
| ServiceBusSvc.CountStaysNearThreshold | src/Throughput/ServiceBus/Throughput.ServiceBusSvc/ServiceBusSvc.cs:82-110 | for writes applied one at a time and receives of at most 16, the length stays in [0, 528], and once above 496 it never drops to 496 or below |
| ServiceBusSvc.IsThrottlingException | src/Throughput/ServiceBus/Throughput.ServiceBusSvc/ServiceBusSvc.cs:146-156 | 4 s exactly for a transient ServerBusyException, nothing otherwise |
| ServiceBusSvc.ServerBusyWaitsFourSeconds | src/Throughput/ServiceBus/Throughput.ServiceBusSvc/ServiceBusSvc.cs:146-156 | in the engine a transient ServerBusy waits 4 s with no error and no backoff change; a non-transient one counts an error and backs off; either wait ends the worker with TaskCanceledException if cancellation cuts it short |
| ServiceBusSvc.CreateMessages | src/Throughput/ServiceBus/Throughput.ServiceBusSvc/ServiceBusSvc.cs:97-105 | the batch holds exactly 16 records, the i-th generated from the i-th GUID, clock reading and draws |
| ServiceBusSvc.ServiceBusSvc.constructor | src/Throughput/ServiceBus/Throughput.ServiceBusSvc/ServiceBusSvc.cs:117 | the tracked length starts at zero |
| ServiceBusSvc.ServiceBusSvc.WriteAsync | src/Throughput/ServiceBus/Throughput.ServiceBusSvc/ServiceBusSvc.cs:80-113 | the result and new length are those of the write function, unchanged when a call throws; on the send side the built batch has 16 generated records |
| DocumentDbSvc.KeyOf | src/Throughput/DocumentDB/Throughput.DocumentDbSvc/DocumentDbSvc.cs:88 | a non-negative id gives a key in [0, 999999]; a negative id gives a key in (-1000000, 0] |
| DocumentDbSvc.ConsecutiveKeysDistinct | src/Throughput/DocumentDB/Throughput.DocumentDbSvc/DocumentDbSvc.cs:88 | ids less than a million apart give different keys |
| DocumentDbSvc.KeyAfterWrap | src/Throughput/DocumentDB/Throughput.DocumentDbSvc/DocumentDbSvc.cs:88 | incrementing past Int64.MaxValue gives Int64.MinValue, whose key is -775808 |
| DocumentDbSvc.IsThrottlingException | src/Throughput/DocumentDB/Throughput.DocumentDbSvc/DocumentDbSvc.cs:96-106 | the RetryAfter exactly for a DocumentClientException with status 429, nothing otherwise |
| DocumentDbSvc.TooManyRequestsWaitsRetryAfter | src/Throughput/DocumentDB/Throughput.DocumentDbSvc/DocumentDbSvc.cs:96-106 | in the engine a 429 waits its RetryAfter with no error and no backoff change; any other failure counts an error and backs off; either wait ends the worker with TaskCanceledException if cancellation cuts it short |
| DocumentDbSvc.DocumentDbSvc.constructor | src/Throughput/DocumentDB/Throughput.DocumentDbSvc/DocumentDbSvc.cs:29 | the id counter starts at zero |
| DocumentDbSvc.DocumentDbSvc.WriteAsync | src/Throughput/DocumentDB/Throughput.DocumentDbSvc/DocumentDbSvc.cs:86-94 | the id moves up by one (wrapping at 64 bits) even when the upsert throws; the key is the new id mod 1000000, in [0, 999999] while the id is non-negative; a completed write returns 1 |

## Left out

- Backend I/O: every SDK call (reliable queue, Service Bus client, DocumentDB client) is reduced to an outcome given as input. The content of what is enqueued or upserted is not modelled except for the Service Bus batch.
- Concurrency:
  - `Task.Run` fan-out, `Task.WhenAll` and the reporter thread are not modelled.
  - `Interlocked` atomicity, `lock` and `ConcurrentDictionary.AddOrUpdate` atomicity are not modelled.
  - A worker iteration is one atomic step; a Throughput.Common worker's two `Interlocked.Add` calls are applied together.
  - The only interleaving modelled is the drain's read, concurrent adds, then subtract.
- Time: the stopwatch readings and the cancellation flags are inputs: whether cancellation was requested after a call, and whether it is requested during the wait that follows. A cut-short delay after a success ends the worker normally. A cut-short backoff or throttle wait ends it with TaskCanceledException. The end of the script is cancellation seen at the top of the loop. A worker whose delay is infinite (-1) is taken to stop at cancellation.
- `Task.WhenAll` passing a worker's TaskCanceledException on, which skips the latency engines' final report, is not modelled; each worker's run reports the exception that ended it.
- Floating point: the statistics of `Metric` (average, percentiles, …) and the throughput and latency-per-operation divisions of the reports are not modelled. Latencies are exact reals, not doubles.
- Platform.TotalMilliseconds: an exact real; the double's rounding is not modelled.
- ThroughputWorkload.ThroughputWorkload.Iterate: does not model 64-bit wrap-around of `_operations`, `_latency` and `_errors`. The counters are unbounded; overflowing a long would take centuries at benchmark rates.
- ThroughputCommon.ThroughputWorkload.Iterate: does not model 64-bit wrap-around of `_operations` and `_latency`, for the same reason.
- Logging: log messages, JSON report serialization and logger configuration are not modelled. Report contents are modelled as the counter values they carry.
- The final summary `InvokeAsync` logs after all workers end is not modelled; only the counters it reads are.
- The three backends pass a throttle classifier to the Throughput.Common engine, whose constructor takes none. Their classifiers are therefore paired with the original engine, which does take one.
- The Latency.Common `MetricsExtensions.LogMetric` has its own dictionary with the same rule. It is represented by a separate `MetricStore` instance passed to the Latency.Common `Workload`. The `Metric` type it relies on is not part of this model.
- RandomGenerator: the thread-local `Random`, `Guid.NewGuid()` and `DateTimeOffset.UtcNow` are replaced by draws, a GUID string and a clock value given as inputs.
- Key to string: `key.ToString()` for the document id in the latency engines and DocumentDB is not modelled; the key itself is.
- QueueSvc.QueueSvc.WriteAsync: does not model the unused `queueCount` local, what `TryDequeueAsync` returns on an empty queue, or the transaction's disposal. Only whether each call throws is modelled.
- ServiceBusSvc.CountStaysNearThreshold: assumes a receive of 16 returns at most 16 messages, as the client library promises. The library is not modelled.
- ServiceBusSvc.CreateMessages: builds its records with the Latency.Common `RandomGenerator`, which stands in for the generator the Service Bus service calls. ServiceBusSvc.cs does not import that namespace, and the generator it does use is not part of this model.
- ServiceBusSvc: `ClearAsync` and `TraceQueueLengthAsync` are not modelled. They are a start-up drain and a periodic log line that change no state of the workload.
- DocumentDbSvc.DocumentDbSvc.WriteAsync: does not model the record upserted, only its key.
- Service Fabric hosting, the other backends, configuration, telemetry and the plain data classes are not modelled.
