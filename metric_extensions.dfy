/**
  MetricExtensions.LogMetric (src/Common/Metrics/MetricExtensions.cs): a
  process-wide dictionary from metric name to a rolling window of samples. A
  name seen for the first time gets a new metric holding the value; a window
  that already holds SamplingThreshold samples is replaced by a new one holding
  only the value; otherwise the value is appended. Statistics are logged
  whenever the resulting window holds SamplingThreshold samples.

  A window is represented by its list of samples (a SeededMetrics.Metric's
  `samples`); the statistics themselves are not modelled.
*/
module MetricExtensions {
  import opened Wrappers

  const SamplingThreshold: nat := 100

  /** The window stored under `name` once `value` has been logged. */
  function UpdatedSeries(series: map<string, seq<real>>, name: string, value: real): (s: seq<real>)
    ensures name !in series ==> s == [value]
    ensures name in series && |series[name]| >= SamplingThreshold ==> s == [value]
    ensures name in series && |series[name]| < SamplingThreshold ==> s == series[name] + [value]
  {
    if name !in series then [value]
    else if |series[name]| >= SamplingThreshold then [value]
    else series[name] + [value]
  }

  /** The whole dictionary after one LogMetric call. */
  function Log(series: map<string, seq<real>>, name: string, value: real): map<string, seq<real>>
  {
    series[name := UpdatedSeries(series, name, value)]
  }

  /** Statistics are logged exactly when the updated window is full. */
  predicate Reports(window: seq<real>) {
    |window| >= SamplingThreshold
  }

  /** Every stored window holds between 1 and SamplingThreshold samples. */
  ghost predicate WellFormed(series: map<string, seq<real>>) {
    forall n :: n in series ==> 1 <= |series[n]| <= SamplingThreshold
  }

  /**
    One LogMetric call keeps every window within [1, SamplingThreshold], gives
    `name` a window ending in `value`, and leaves every other name alone.
  */
  lemma LogKeepsWellFormed(series: map<string, seq<real>>, name: string, value: real)
    requires WellFormed(series)
    ensures WellFormed(Log(series, name, value))
    ensures name in Log(series, name, value)
    ensures UpdatedSeries(series, name, value)[|UpdatedSeries(series, name, value)| - 1] == value
    ensures forall n :: n != name ==> (n in series <==> n in Log(series, name, value))
    ensures forall n :: n != name && n in series ==> Log(series, name, value)[n] == series[n]
  {
  }

  /** The dictionary after logging `values` under `name`, one call after another. */
  function LogAll(series: map<string, seq<real>>, name: string, values: seq<real>): map<string, seq<real>>
    decreases |values|
  {
    if values == [] then series
    else Log(LogAll(series, name, values[..|values| - 1]), name, values[|values| - 1])
  }

  /** How many samples the window holds after the n-th value logged under a new name. */
  function WindowSize(n: nat): (w: nat)
    requires n >= 1
    ensures 1 <= w <= SamplingThreshold
  {
    (n - 1) % SamplingThreshold + 1
  }

  lemma WindowSizeStep(n: nat)
    requires n >= 2
    ensures WindowSize(n - 1) == SamplingThreshold ==> WindowSize(n) == 1
    ensures WindowSize(n - 1) < SamplingThreshold ==> WindowSize(n) == WindowSize(n - 1) + 1
  {
  }

  lemma WindowFull(n: nat)
    requires n >= 1
    ensures WindowSize(n) == SamplingThreshold <==> n % SamplingThreshold == 0
  {
  }

  /** The window of a name that had none, after `values` were logged under it. */
  function Window(values: seq<real>): seq<real>
    decreases |values|
  {
    if values == [] then []
    else
      var w := Window(values[..|values| - 1]);
      if |w| >= SamplingThreshold then [values[|values| - 1]] else w + [values[|values| - 1]]
  }

  /** LogAll keeps, under a name that had no window, exactly Window(values). */
  lemma {:induction false} LogAllIsWindow(series: map<string, seq<real>>, name: string, values: seq<real>)
    requires name !in series
    ensures values != [] ==> name in LogAll(series, name, values) && LogAll(series, name, values)[name] == Window(values)
    ensures values == [] ==> name !in LogAll(series, name, values)
    decreases |values|
  {
    if values != [] {
      LogAllIsWindow(series, name, values[..|values| - 1]);
    }
  }

  /** Window(values) is the tail of `values` since the last multiple of SamplingThreshold. */
  lemma {:induction false} WindowIsTail(values: seq<real>)
    requires |values| >= 1
    ensures Window(values) == values[|values| - WindowSize(|values|)..]
    decreases |values|
  {
    var n := |values|;
    var v := values[n - 1];
    if n == 1 {
      assert values[..0] == [];
    } else {
      WindowIsTail(values[..n - 1]);
      var w := WindowSize(n - 1);
      assert Window(values[..n - 1]) == values[n - 1 - w..n - 1];
      WindowSizeStep(n);
      if w < SamplingThreshold {
        assert values[n - WindowSize(n)..] == values[n - 1 - w..n - 1] + [v];
      }
    }
  }

  /**
    Logging n >= 1 values under a name that had no window leaves exactly the
    values since the last multiple of SamplingThreshold in its window, so
    statistics are logged on the 100th, 200th, ... call and on no other.
  */
  lemma LogAllWindow(series: map<string, seq<real>>, name: string, values: seq<real>)
    requires name !in series
    requires |values| >= 1
    ensures name in LogAll(series, name, values)
    ensures LogAll(series, name, values)[name] == values[|values| - WindowSize(|values|)..]
    ensures Reports(LogAll(series, name, values)[name]) <==> |values| % SamplingThreshold == 0
  {
    LogAllIsWindow(series, name, values);
    WindowIsTail(values);
    WindowFull(|values|);
  }

  /**
    The static `_metrics` dictionary, one LogMetric call at a time (the
    atomicity of ConcurrentDictionary.AddOrUpdate and the per-metric lock are
    not modelled).
  */
  class MetricStore {
    var series: map<string, seq<real>>

    constructor ()
      ensures series == map[]
      ensures WellFormed(series)
    {
      series := map[];
    }

    /**
      Logs `value` under `name`; returns the window whose statistics are logged,
      if any.
    */
    method LogMetric(name: string, value: real) returns (logged: Option<seq<real>>)
      modifies this
      ensures series == Log(old(series), name, value)
      ensures logged == if Reports(series[name]) then Some(series[name]) else None
    {
      var metric: seq<real>;
      if name !in series {
        metric := [value];
      } else if |series[name]| >= SamplingThreshold {
        metric := [value];
      } else {
        metric := series[name] + [value];
      }
      series := series[name := metric];
      if |metric| >= SamplingThreshold {
        logged := Some(metric);
      } else {
        logged := None;
      }
    }
  }
}
