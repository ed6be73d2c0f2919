/**
 * The New Relic agent's custom-metric entry point, reduced to the names it is
 * given: `recorded` is the sequence of full metric names sent so far.
 */
module NewRelicAgent {

  class Agent {
    var recorded: seq<string>

    constructor ()
      ensures recorded == []
    {
      recorded := [];
    }

    /** NewRelic.recordMetric: the name is appended; the value is not modelled. */
    method RecordMetric(fullMetricName: string)
      modifies this
      ensures recorded == old(recorded) + [fullMetricName]
    {
      recorded := recorded + [fullMetricName];
    }
  }
}
