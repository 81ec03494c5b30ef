/**
 * Metric families as prometheus_client's `CounterMetricFamily` and
 * `GaugeMetricFamily` hold them before serialisation: a name, a help text,
 * a unit, the label names and the samples added with `add_metric`.
 */
module Metrics {
  import opened Wrappers

  datatype Kind = Counter | Gauge

  /**
   * One `add_metric(labels, value)` call.  A label value is optional because
   * `add_metric` accepts Python's `None`, which DeviceInfo passes for a field
   * missing from the response.
   */
  datatype Sample = Sample(labelValues: seq<Option<string>>, value: int)

  datatype MetricFamily = MetricFamily(
    kind: Kind,
    name: string,
    documentation: string,
    unit: string,
    labelNames: seq<string>,
    samples: seq<Sample>)

  /** Every sample carries one value per label name. */
  predicate WellLabelled(f: MetricFamily) {
    forall s :: s in f.samples ==> |s.labelValues| == |f.labelNames|
  }
}
