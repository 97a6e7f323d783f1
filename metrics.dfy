/** The part of the metrics client library the collector uses: a gauge metric
    family that collects samples through `add_metric`. */
module Metrics {

  /** One sample of a family: the values of the family's labels, in the order
      of its label names, and the sample's value. */
  datatype Sample = Sample(labelValues: seq<string>, value: nat)

  /** The sum of the values of some samples. */
  function SumValues(samples: seq<Sample>): nat
  {
    if samples == [] then 0 else samples[0].value + SumValues(samples[1..])
  }

  /** A gauge metric family: a name, a help text, the names of its labels and
      the samples added to it so far. */
  class GaugeMetricFamily {
    const name: string
    const documentation: string
    const labelNames: seq<string>
    var samples: seq<Sample>

    /** A family with no samples yet. */
    constructor (name: string, documentation: string, labelNames: seq<string>)
      ensures this.name == name && this.documentation == documentation
      ensures this.labelNames == labelNames
      ensures samples == []
    {
      this.name := name;
      this.documentation := documentation;
      this.labelNames := labelNames;
      samples := [];
    }

    /** `add_metric(labels, value)`: appends one sample and changes nothing
        else. */
    method AddMetric(labelValues: seq<string>, value: nat)
      modifies this
      ensures samples == old(samples) + [Sample(labelValues, value)]
    {
      samples := samples + [Sample(labelValues, value)];
    }
  }
}
