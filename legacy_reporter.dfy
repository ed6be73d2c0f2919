/**
 * The original reporter (top-level `src`): the same filter-gated walk over
 * gauges, counters, histograms, meters and timers, with no name prefix, one
 * shared snapshot routine and one shared metered routine selected by
 * `isTimer`. A timer's snapshot statistics are asked about, and sent under,
 * "/timer/" + the timer's name; its metered statistics use the plain name.
 */
module LegacyReporter {
  import opened Kinds
  import opened MetricsLibrary
  import opened Filters
  import opened Emission
  import opened NewRelicAgent

  /** The name this reporter queries and sends a timer's snapshot statistics under. */
  function TimerSnapshotName(key: string): string
  {
    "/timer/" + key
  }

  /** The names sent for a sequence of timers: per timer, metered under its name, snapshot under "/timer/" + name. */
  function LegacyTimersEmitted(f: MetricAttributeFilter, rateUnit: string, durationUnit: string,
                               timers: seq<(string, Metric)>): seq<string>
  {
    if timers == [] then []
    else
      var last := timers[|timers| - 1];
      LegacyTimersEmitted(f, rateUnit, durationUnit, timers[..|timers| - 1])
        + Emitted(f, "", last.0, last.1, MeteredPlan(true, rateUnit))
        + Emitted(f, "", TimerSnapshotName(last.0), last.1, SnapshotPlan(true, "/" + durationUnit))
  }

  /** Everything one report sends: gauges, counters, histograms, meters, then timers, all without prefix. */
  function LegacyReportEmitted(f: MetricAttributeFilter, rateUnit: string, durationUnit: string,
                               gauges: seq<(string, Gauge)>, counters: seq<(string, Metric)>,
                               histograms: seq<(string, Metric)>, meters: seq<(string, Metric)>,
                               timers: seq<(string, Metric)>): seq<string>
  {
    GaugesEmitted(f, "", gauges)
      + SectionEmitted(f, "", counters, CounterPlan())
      + SectionEmitted(f, "", histograms, SnapshotPlan(false, ""))
      + SectionEmitted(f, "", meters, MeteredPlan(false, rateUnit))
      + LegacyTimersEmitted(f, rateUnit, durationUnit, timers)
  }

  class NewRelicReporter {
    const registry: MetricRegistry
    const name: string
    const filter: MetricFilter
    const attributeFilter: MetricAttributeFilter
    const rateUnit: TimeUnit
    const durationUnit: TimeUnit

    constructor (registry: MetricRegistry, name: string, filter: MetricFilter,
                 attributeFilter: MetricAttributeFilter, rateUnit: TimeUnit, durationUnit: TimeUnit)
      ensures this.registry == registry && this.name == name && this.filter == filter
      ensures this.attributeFilter == attributeFilter
      ensures this.rateUnit == rateUnit && this.durationUnit == durationUnit
    {
      this.registry := registry;
      this.name := name;
      this.filter := filter;
      this.attributeFilter := attributeFilter;
      this.rateUnit := rateUnit;
      this.durationUnit := durationUnit;
    }

    /** `record`: sends one value under "Custom/" + name; this reporter has no prefix. */
    method RecordName(name: string, agent: Agent)
      modifies agent
      ensures agent.recorded == old(agent.recorded) + [FullName("", name)]
    {
      assert "Custom/" + "" + name == "Custom/" + name;
      agent.RecordMetric("Custom/" + name);
    }

    /** One `if (decision) record(name + suffix, ...)` step. */
    method RecordIfAccepted(name: string, kind: Kind, suffix: string, metric: Metric, agent: Agent)
      modifies agent
      ensures agent.recorded == old(agent.recorded) + StepEmitted(attributeFilter, "", name, metric, kind, suffix)
    {
      if Record(attributeFilter, name, kind, metric) {
        RecordName(name + suffix, agent);
      }
    }

    /** `doSnapshot`: timer decisions when `isTimer`, histogram decisions otherwise; every name ends in `nameSuffix`. */
    method DoSnapshot(name: string, nameSuffix: string, isTimer: bool, metric: Metric, agent: Agent)
      modifies agent
      ensures agent.recorded == old(agent.recorded) + Emitted(attributeFilter, "", name, metric, SnapshotPlan(isTimer, nameSuffix))
    {
      SnapshotSteps(agent.recorded, attributeFilter, "", name, metric, isTimer, nameSuffix);
      RecordIfAccepted(name, if isTimer then TimerMin else HistogramMin, "/min" + nameSuffix, metric, agent);
      RecordIfAccepted(name, if isTimer then TimerMax else HistogramMax, "/max" + nameSuffix, metric, agent);
      RecordIfAccepted(name, if isTimer then TimerMean else HistogramMean, "/mean" + nameSuffix, metric, agent);
      RecordIfAccepted(name, if isTimer then TimerStdDev else HistogramStdDev, "/stdDev" + nameSuffix, metric, agent);
      RecordIfAccepted(name, if isTimer then TimerMedian else HistogramMedian, "/median" + nameSuffix, metric, agent);
      RecordIfAccepted(name, if isTimer then Timer75thPercentile else Histogram75thPercentile, "/75th" + nameSuffix, metric, agent);
      RecordIfAccepted(name, if isTimer then Timer95thPercentile else Histogram95thPercentile, "/95th" + nameSuffix, metric, agent);
      RecordIfAccepted(name, if isTimer then Timer98thPercentile else Histogram98thPercentile, "/98th" + nameSuffix, metric, agent);
      RecordIfAccepted(name, if isTimer then Timer99thPercentile else Histogram99thPercentile, "/99th" + nameSuffix, metric, agent);
      RecordIfAccepted(name, if isTimer then Timer999thPercentile else Histogram999thPercentile, "/99.9th" + nameSuffix, metric, agent);
    }

    /** `doMetered`: timer decisions when `isTimer`, meter decisions otherwise; rates carry the rate unit. */
    method DoMetered(name: string, metric: Metric, isTimer: bool, rateUnitLabel: string, agent: Agent)
      modifies agent
      ensures agent.recorded == old(agent.recorded) + Emitted(attributeFilter, "", name, metric, MeteredPlan(isTimer, rateUnitLabel))
    {
      MeteredSteps(agent.recorded, attributeFilter, "", name, metric, isTimer, rateUnitLabel);
      RecordIfAccepted(name, if isTimer then TimerCount else MeterCount, "/count", metric, agent);
      RecordIfAccepted(name, if isTimer then TimerMeanRate else MeterRate, "/meanRate/" + rateUnitLabel, metric, agent);
      RecordIfAccepted(name, if isTimer then Timer1MinuteRate else Meter1MinuteRate, "/1MinuteRate/" + rateUnitLabel, metric, agent);
      RecordIfAccepted(name, if isTimer then Timer5MinuteRate else Meter5MinuteRate, "/5MinuteRate/" + rateUnitLabel, metric, agent);
      RecordIfAccepted(name, if isTimer then Timer15MinuteRate else Meter15MinuteRate, "/15MinuteRate/" + rateUnitLabel, metric, agent);
    }

    /** `doGauge`: a gauge is sent under its bare name when its value is a finite number and the filter agrees. */
    method DoGauge(name: string, gauge: Gauge, agent: Agent)
      modifies agent
      ensures agent.recorded == old(agent.recorded) + GaugeEmitted(attributeFilter, "", name, gauge)
    {
      if gauge.numericFinite && Record(attributeFilter, name, GaugeValue, gauge.metric) {
        RecordName(name, agent);
      }
    }

    /** The counter step of `report`: a counter's count, when the filter agrees. */
    method DoCounter(name: string, metric: Metric, agent: Agent)
      modifies agent
      ensures agent.recorded == old(agent.recorded) + Emitted(attributeFilter, "", name, metric, CounterPlan())
    {
      assert CounterPlan()[1..] == [];
      RecordIfAccepted(name, CounterCount, "/count", metric, agent);
    }

    /** The gauge loop of `report`. */
    method ReportGauges(gauges: seq<(string, Gauge)>, agent: Agent)
      modifies agent
      ensures agent.recorded == old(agent.recorded) + GaugesEmitted(attributeFilter, "", gauges)
    {
      var i := 0;
      while i < |gauges|
        invariant 0 <= i <= |gauges|
        invariant agent.recorded == old(agent.recorded) + GaugesEmitted(attributeFilter, "", gauges[..i])
      {
        DoGauge(gauges[i].0, gauges[i].1, agent);
        assert gauges[..i + 1][..i] == gauges[..i];
        i := i + 1;
      }
      assert gauges[..i] == gauges;
    }

    /** The counter loop of `report`. */
    method ReportCounters(counters: seq<(string, Metric)>, agent: Agent)
      modifies agent
      ensures agent.recorded == old(agent.recorded) + SectionEmitted(attributeFilter, "", counters, CounterPlan())
    {
      var i := 0;
      while i < |counters|
        invariant 0 <= i <= |counters|
        invariant agent.recorded == old(agent.recorded) + SectionEmitted(attributeFilter, "", counters[..i], CounterPlan())
      {
        DoCounter(counters[i].0, counters[i].1, agent);
        assert counters[..i + 1][..i] == counters[..i];
        i := i + 1;
      }
      assert counters[..i] == counters;
    }

    /** The histogram loop of `report`: histogram decisions, no name suffix. */
    method ReportHistograms(histograms: seq<(string, Metric)>, agent: Agent)
      modifies agent
      ensures agent.recorded == old(agent.recorded) + SectionEmitted(attributeFilter, "", histograms, SnapshotPlan(false, ""))
    {
      var i := 0;
      while i < |histograms|
        invariant 0 <= i <= |histograms|
        invariant agent.recorded == old(agent.recorded) + SectionEmitted(attributeFilter, "", histograms[..i], SnapshotPlan(false, ""))
      {
        DoSnapshot(histograms[i].0, "", false, histograms[i].1, agent);
        assert histograms[..i + 1][..i] == histograms[..i];
        i := i + 1;
      }
      assert histograms[..i] == histograms;
    }

    /** The meter loop of `report`. */
    method ReportMeters(meters: seq<(string, Metric)>, rateUnitLabel: string, agent: Agent)
      modifies agent
      ensures agent.recorded == old(agent.recorded) + SectionEmitted(attributeFilter, "", meters, MeteredPlan(false, rateUnitLabel))
    {
      var i := 0;
      while i < |meters|
        invariant 0 <= i <= |meters|
        invariant agent.recorded == old(agent.recorded) + SectionEmitted(attributeFilter, "", meters[..i], MeteredPlan(false, rateUnitLabel))
      {
        DoMetered(meters[i].0, meters[i].1, false, rateUnitLabel, agent);
        assert meters[..i + 1][..i] == meters[..i];
        i := i + 1;
      }
      assert meters[..i] == meters;
    }

    /** The timer loop of `report`: metered under the timer's name, then snapshot under "/timer/" + name. */
    method ReportTimers(timers: seq<(string, Metric)>, rateUnitLabel: string, durationUnitLabel: string, agent: Agent)
      modifies agent
      ensures agent.recorded == old(agent.recorded) + LegacyTimersEmitted(attributeFilter, rateUnitLabel, durationUnitLabel, timers)
    {
      var i := 0;
      while i < |timers|
        invariant 0 <= i <= |timers|
        invariant agent.recorded == old(agent.recorded) + LegacyTimersEmitted(attributeFilter, rateUnitLabel, durationUnitLabel, timers[..i])
      {
        var name := "/timer/" + timers[i].0;
        DoMetered(timers[i].0, timers[i].1, true, rateUnitLabel, agent);
        DoSnapshot(name, "/" + durationUnitLabel, true, timers[i].1, agent);
        assert timers[..i + 1][..i] == timers[..i];
        i := i + 1;
      }
      assert timers[..i] == timers;
    }

    /**
     * `report`: gauges, counters, histograms, meters and timers, each section
     * in the order its entries are given (the sorted-map order), send exactly
     * `LegacyReportEmitted`.
     */
    method Report(gauges: seq<(string, Gauge)>, counters: seq<(string, Metric)>,
                  histograms: seq<(string, Metric)>, meters: seq<(string, Metric)>,
                  timers: seq<(string, Metric)>, rateUnitLabel: string, durationUnitLabel: string, agent: Agent)
      modifies agent
      ensures agent.recorded
              == old(agent.recorded)
                 + LegacyReportEmitted(attributeFilter, rateUnitLabel, durationUnitLabel,
                                       gauges, counters, histograms, meters, timers)
    {
      ghost var before := agent.recorded;
      ghost var g := GaugesEmitted(attributeFilter, "", gauges);
      ghost var c := SectionEmitted(attributeFilter, "", counters, CounterPlan());
      ghost var h := SectionEmitted(attributeFilter, "", histograms, SnapshotPlan(false, ""));
      ghost var m := SectionEmitted(attributeFilter, "", meters, MeteredPlan(false, rateUnitLabel));
      ghost var t := LegacyTimersEmitted(attributeFilter, rateUnitLabel, durationUnitLabel, timers);
      ReportGauges(gauges, agent);
      ReportCounters(counters, agent);
      ReportHistograms(histograms, agent);
      ReportMeters(meters, rateUnitLabel, agent);
      ReportTimers(timers, rateUnitLabel, durationUnitLabel, agent);
      AppendsCompose(before, g, c, h, m, t);
    }
  }
}
