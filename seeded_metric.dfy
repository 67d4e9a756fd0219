/**
  Metric (src/Common/Metrics/Metric.cs): the variant whose only constructor takes
  a first value, so a metric is never empty. The statistics are not modelled.
*/
module SeededMetrics {

  class Metric {
    /** The Name property: fixed when the metric is built. */
    const name: string
    /** The `_values` list. */
    var samples: seq<real>

    /** The object invariant: at least one sample. */
    ghost predicate Valid()
      reads this
    {
      |samples| >= 1
    }

    /** Metric(name, value): exactly the one sample `value`. */
    constructor (name: string, value: real)
      ensures Valid()
      ensures this.name == name
      ensures samples == [value]
    {
      this.name := name;
      samples := [value];
    }

    /** The Count property: never zero. */
    function Count(): (n: nat)
      requires Valid()
      reads this
      ensures n >= 1
    {
      |samples|
    }

    /** Appends `value`; earlier samples stay as they were, and the metric itself is returned. */
    method AddSample(value: real) returns (m: Metric)
      requires Valid()
      modifies this
      ensures Valid()
      ensures m == this
      ensures samples == old(samples) + [value]
      ensures Count() == old(Count()) + 1
    {
      samples := samples + [value];
      m := this;
    }
  }
}
