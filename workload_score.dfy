/**
  WorkloadScore (src/Common/Utility/WorkloadScore.cs): a success scores 1.0 when
  faster than 100 ms, 0.5 when faster than one second and 0.0 otherwise; a
  failure always scores 0.0. Elapsed times are in ticks.
*/
module WorkloadScore {
  import opened Platform
  import opened Outcomes

  const SuccessThreshold: nat := FromMilliseconds(100)
  const FailureThreshold: nat := FromMilliseconds(1000)

  /** Score(elapsed): the tier the elapsed time falls in. */
  function Score(elapsed: nat): (r: real)
    ensures r == 1.0 <==> elapsed < SuccessThreshold
    ensures r == 0.5 <==> SuccessThreshold <= elapsed < FailureThreshold
    ensures r == 0.0 <==> FailureThreshold <= elapsed
  {
    if elapsed < SuccessThreshold then 1.0
    else if elapsed < FailureThreshold then 0.5
    else 0.0
  }

  /** Score(elapsed, e): a failed call scores nothing, however long it took. */
  function ScoreFailure(elapsed: nat, failure: Failure): (r: real)
    ensures r <= Score(elapsed)
    ensures r == 0.0
  {
    0.0
  }

  /** A slower call never scores more than a faster one. */
  lemma ScoreNonIncreasing(faster: nat, slower: nat)
    requires faster <= slower
    ensures Score(slower) <= Score(faster)
  {
  }

  /**
    The tiers, read in whole milliseconds: the score is 1.0 exactly when the
    stopwatch's ElapsedMilliseconds (the value logged next to the score) is below
    100, and 0.0 exactly when it is at least 1000; so exactly 100 ms scores 0.5.
  */
  lemma ScoreByMilliseconds(elapsed: nat)
    ensures Score(elapsed) == 1.0 <==> ElapsedMilliseconds(elapsed) < 100
    ensures Score(elapsed) == 0.0 <==> ElapsedMilliseconds(elapsed) >= 1000
    ensures Score(elapsed) in {0.0, 0.5, 1.0}
    ensures Score(FromMilliseconds(100)) == 0.5
  {
  }
}
