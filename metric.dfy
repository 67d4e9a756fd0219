/**
  Metric (src/common/metrics/Metric.cs): a named, append-only list of samples.
  The statistics over the samples (average, percentiles, ...) are not modelled.
*/
module Metrics {

  class Metric {
    /** The Name property: fixed when the metric is built. */
    const name: string
    /** The `_values` list. */
    var samples: seq<real>

    /** Metric(name): no samples yet. */
    constructor (name: string)
      ensures this.name == name
      ensures samples == []
    {
      this.name := name;
      samples := [];
    }

    /** Metric(name, value): exactly the one sample `value`. */
    constructor WithValue(name: string, value: real)
      ensures this.name == name
      ensures samples == [value]
    {
      this.name := name;
      samples := [value];
    }

    /** The Count property. */
    function Count(): nat
      reads this
    {
      |samples|
    }

    /**
      Inserts `value` at index Count, i.e. at the end; earlier samples stay as
      they were, and the metric itself is returned.
    */
    method AddSample(value: real) returns (m: Metric)
      modifies this
      ensures m == this
      ensures samples == old(samples) + [value]
      ensures Count() == old(Count()) + 1
      ensures samples[..old(Count())] == old(samples)
    {
      samples := samples[..|samples|] + [value] + samples[|samples|..];
      m := this;
    }
  }
}
