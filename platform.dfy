/**
  The parts of the .NET runtime the engines depend on, with the semantics they
  have there: TimeSpan and Stopwatch arithmetic in ticks, 32- and 64-bit integer
  wrap-around, C#'s truncating remainder, and System.Random with each random
  draw passed in as a parameter.
*/
module Platform {
  import opened Wrappers
  import opened Outcomes

  // ----- TimeSpan / Stopwatch (one tick is 100 ns) -----

  const TicksPerMillisecond: nat := 10_000
  const TicksPerSecond: nat := 10_000_000

  function FromSeconds(seconds: nat): nat { seconds * TicksPerSecond }

  function FromMilliseconds(ms: nat): nat { ms * TicksPerMillisecond }

  /** Stopwatch.ElapsedMilliseconds: the whole milliseconds in `ticks`, rounded down. */
  function ElapsedMilliseconds(ticks: nat): (ms: nat)
    ensures ms * TicksPerMillisecond <= ticks < (ms + 1) * TicksPerMillisecond
  {
    ticks / TicksPerMillisecond
  }

  /** TimeSpan.TotalMilliseconds, as an exact real (the double's rounding is not modelled). */
  function TotalMilliseconds(ticks: nat): (ms: real)
    ensures ms * TicksPerMillisecond as real == ticks as real
  {
    ticks as real / TicksPerMillisecond as real
  }

  /** What Task.Delay(millisecondsDelay, token) waits for. */
  datatype Delay = Wait(ticks: nat) | Forever

  /**
    Task.Delay(millisecondsDelay, token): ArgumentOutOfRangeException below -1,
    an infinite wait (until cancellation) for -1, otherwise that many
    milliseconds.
  */
  function TaskDelay(millisecondsDelay: int): (r: Result<Delay, Failure>)
    ensures r.Failure? <==> millisecondsDelay < -1
    ensures r.Failure? ==> r.error == ArgumentOutOfRange
    ensures r == Success(Forever) <==> millisecondsDelay == -1
    ensures millisecondsDelay >= 0 ==> r == Success(Wait(FromMilliseconds(millisecondsDelay)))
  {
    if millisecondsDelay < -1 then Failure(ArgumentOutOfRange)
    else if millisecondsDelay == -1 then Success(Forever)
    else Success(Wait(FromMilliseconds(millisecondsDelay)))
  }

  // ----- fixed-width integers -----

  const Int32Min: int := -0x8000_0000
  const Int32Max: int := 0x7FFF_FFFF
  const Int64Min: int := -0x8000_0000_0000_0000
  const Int64Max: int := 0x7FFF_FFFF_FFFF_FFFF

  /** Unchecked 32-bit arithmetic: the int32 congruent to x modulo 2^32. */
  function Wrap32(x: int): (r: int)
    ensures Int32Min <= r <= Int32Max
    ensures Int32Min <= x <= Int32Max ==> r == x
    ensures (x - r) % 0x1_0000_0000 == 0
  {
    (x - Int32Min) % 0x1_0000_0000 + Int32Min
  }

  /** Unchecked 64-bit arithmetic (Interlocked.Increment wraps the same way). */
  function Wrap64(x: int): (r: int)
    ensures Int64Min <= r <= Int64Max
    ensures Int64Min <= x <= Int64Max ==> r == x
    ensures (x - r) % 0x1_0000_0000_0000_0000 == 0
  {
    (x - Int64Min) % 0x1_0000_0000_0000_0000 + Int64Min
  }

  /** C#'s `a % b` for b > 0: truncating division, so the remainder has the sign of `a`. */
  function TruncRem(a: int, b: nat): (r: int)
    requires b > 0
    ensures a >= 0 ==> r == a % b && 0 <= r < b
    ensures a < 0 ==> -r == (-a) % b && 0 < r + b && r <= 0
  {
    if a >= 0 then a % b else -((-a) % b)
  }

  // ----- System.Random, one raw draw `u` per call -----

  /**
    Random.Next(maxValue) for maxValue > 0: some value in [0, maxValue). Every
    such value is `u % maxValue` for some draw u, so quantifying over `u` covers
    exactly the outcomes the runtime allows.
  */
  function Next(u: nat, maxValue: nat): (r: nat)
    requires maxValue > 0
    ensures r < maxValue
  {
    u % maxValue
  }

  /**
    Random.Next(minValue, maxValue): ArgumentOutOfRangeException when
    minValue > maxValue, minValue when they are equal, otherwise a value in
    [minValue, maxValue) (the upper bound is exclusive).
  */
  function NextRange(u: nat, minValue: int, maxValue: int): (r: Result<int, Failure>)
    ensures r.Failure? <==> minValue > maxValue
    ensures r.Failure? ==> r.error == ArgumentOutOfRange
    ensures r.Success? && minValue == maxValue ==> r.value == minValue
    ensures r.Success? && minValue < maxValue ==> minValue <= r.value < maxValue
  {
    if minValue > maxValue then Failure(ArgumentOutOfRange)
    else if minValue == maxValue then Success(minValue)
    else Success(minValue + u % (maxValue - minValue))
  }

  /** Random.Next(): a value in [0, Int32.MaxValue). */
  function NextInt(u: nat): (r: nat)
    ensures r < Int32Max
  {
    Next(u, Int32Max)
  }
}
