/**
 * The types of the metrics library (registry, metric instances, the metric
 * filter, time units) that the reporters and filters only pass around.
 * Their internals are not part of this model: a metric is an opaque handle.
 */
module MetricsLibrary {

  /** A counter, histogram, meter or timer instance, identified and never inspected. */
  datatype Metric = Metric(id: nat)

  /**
   * A gauge instance. `numericFinite` stands for the reporter's test that the
   * gauge's current value is a Number whose float value is neither NaN nor
   * infinite; the value itself is not modelled.
   */
  datatype Gauge = Gauge(metric: Metric, numericFinite: bool)

  /** The registry a reporter reads from. */
  datatype MetricRegistry = MetricRegistry(id: nat)

  /** The library's metric filter: `All` accepts every metric. */
  datatype MetricFilter = All | OtherMetricFilter(id: nat)

  /** java.util.concurrent.TimeUnit. */
  datatype TimeUnit = Nanoseconds | Microseconds | Milliseconds | Seconds | Minutes | Hours | Days
}
