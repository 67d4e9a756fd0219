/**
  RandomGenerator (src/Latency/Common/Latency.Common/Data/RandomGenerator.cs):
  builds the PerformanceData record the workloads write. The thread's random
  source is replaced by its draws, the clock by `now` and Guid.NewGuid() by
  `guid`.
*/
module RandomGenerator {
  import opened Wrappers
  import opened Platform

  /** TimeSpan.FromDays(1) in whole seconds. */
  const TimeToLiveSeconds: int := 24 * 60 * 60

  /** The PerformanceData record; times are in ticks, DoubleValue as an exact real. */
  datatype PerformanceData = PerformanceData(
    id: string,
    timestamp: int,
    timeToLive: int,
    stringValue: string,
    intValue: int,
    doubleValue: real,
    timeValue: nat)

  /** The draws one GetPerformanceData call makes; `charDraw(i)` is the draw for the i-th character. */
  datatype Draws = Draws(length: nat, charDraw: nat -> nat, intValue: nat, doubleValue: nat, timeValue: nat)

  /** (char)('a' + random.Next(26)). */
  function Letter(u: nat): (c: char)
    ensures 'a' <= c <= 'z'
  {
    ('a' as int + Next(u, 26)) as char
  }

  predicate IsLowercase(s: string) {
    forall i :: 0 <= i < |s| ==> 'a' <= s[i] <= 'z'
  }

  /** The string GetRandomString builds from the first `length` character draws. */
  function RandomString(charDraw: nat -> nat, length: nat): (s: string)
    ensures |s| == length
    ensures IsLowercase(s)
    ensures forall i :: 0 <= i < length ==> s[i] == Letter(charDraw(i))
    decreases length
  {
    if length == 0 then [] else RandomString(charDraw, length - 1) + [Letter(charDraw(length - 1))]
  }

  /** The draw for which random.Next(26) picks the lowercase letter `c`. */
  function LetterDraw(c: char): (u: nat)
    requires 'a' <= c <= 'z'
    ensures Letter(u) == c
  {
    c as int - 'a' as int
  }

  /** Character draws that spell out `s`. */
  function DrawsFor(s: string): nat -> nat
  {
    (i: nat) => if i < |s| && 'a' <= s[i] <= 'z' then LetterDraw(s[i]) else 0
  }

  /**
    Every lowercase string is what GetRandomString returns for some draws:
    RandomString describes all possible results and nothing else.
  */
  lemma EveryLowercaseStringIsReachable(s: string)
    requires IsLowercase(s)
    ensures RandomString(DrawsFor(s), |s|) == s
  {
    var r := RandomString(DrawsFor(s), |s|);
    forall i | 0 <= i < |s|
      ensures r[i] == s[i]
    {
      assert DrawsFor(s)(i) == LetterDraw(s[i]);
    }
  }

  /** GetRandomString: appends one random lowercase letter per position. */
  method GetRandomString(charDraw: nat -> nat, length: nat) returns (s: string)
    ensures s == RandomString(charDraw, length)
  {
    var builder := [];
    var i := 0;
    while i < length
      invariant 0 <= i <= length
      invariant builder == RandomString(charDraw, i)
    {
      builder := builder + [Letter(charDraw(i))];
      i := i + 1;
    }
    s := builder;
  }

  /**
    GetPerformanceData(id): the given id, or a new GUID when there is none; the
    current time; a one-day time to live; a lowercase string of 16 to 63
    characters; an int and an integral double in [0, Int32.MaxValue); and a
    whole number of milliseconds below one second.
  */
  function GetPerformanceData(id: Option<string>, guid: string, now: int, draws: Draws): (d: PerformanceData)
    ensures d.id == if id.Some? then id.value else guid
    ensures d.timestamp == now
    ensures d.timeToLive == 86400
    ensures 16 <= |d.stringValue| < 64 && IsLowercase(d.stringValue)
    ensures 0 <= d.intValue < Int32Max
    ensures d.doubleValue.Floor as real == d.doubleValue && 0.0 <= d.doubleValue < Int32Max as real
    ensures d.timeValue < FromMilliseconds(1000) && d.timeValue % TicksPerMillisecond == 0
  {
    PerformanceData(
      if id.Some? then id.value else guid,
      now,
      TimeToLiveSeconds,
      RandomString(draws.charDraw, NextRange(draws.length, 16, 64).value),
      NextInt(draws.intValue),
      NextInt(draws.doubleValue) as real,
      FromMilliseconds(Next(draws.timeValue, 1000)))
  }
}
