/**
 * The attribute-filtering reporter (metrics-new-relic): for every gauge,
 * counter, histogram, meter and timer of a report it asks the attribute filter
 * about each statistic and sends the ones it accepts to the New Relic agent
 * under "Custom/" + prefix + name + suffix. Built through `Builder`.
 */
module Reporter {
  import opened Kinds
  import opened MetricsLibrary
  import opened Filters
  import opened Emission
  import opened NewRelicAgent

  /** The names sent for a sequence of timers: per timer, its metered statistics then its snapshot ones. */
  function TimersEmitted(f: MetricAttributeFilter, prefix: string, rateUnit: string, durationUnit: string,
                         timers: seq<(string, Metric)>): seq<string>
  {
    if timers == [] then []
    else
      var last := timers[|timers| - 1];
      TimersEmitted(f, prefix, rateUnit, durationUnit, timers[..|timers| - 1])
        + Emitted(f, prefix, last.0, last.1, MeteredPlan(true, rateUnit))
        + Emitted(f, prefix, last.0, last.1, SnapshotPlan(true, "/" + durationUnit))
  }

  /** Everything one report sends: gauges, counters, histograms, meters, then timers. */
  function ReportEmitted(f: MetricAttributeFilter, prefix: string, rateUnit: string, durationUnit: string,
                         gauges: seq<(string, Gauge)>, counters: seq<(string, Metric)>,
                         histograms: seq<(string, Metric)>, meters: seq<(string, Metric)>,
                         timers: seq<(string, Metric)>): seq<string>
  {
    GaugesEmitted(f, prefix, gauges)
      + SectionEmitted(f, prefix, counters, CounterPlan())
      + SectionEmitted(f, prefix, histograms, SnapshotPlan(false, ""))
      + SectionEmitted(f, prefix, meters, MeteredPlan(false, rateUnit))
      + TimersEmitted(f, prefix, rateUnit, durationUnit, timers)
  }

  class NewRelicReporter {
    const registry: MetricRegistry
    const name: string
    const filter: MetricFilter
    const attributeFilter: MetricAttributeFilter
    const rateUnit: TimeUnit
    const durationUnit: TimeUnit
    const metricNamePrefix: string

    constructor (registry: MetricRegistry, name: string, filter: MetricFilter,
                 attributeFilter: MetricAttributeFilter, rateUnit: TimeUnit, durationUnit: TimeUnit,
                 metricNamePrefix: string)
      ensures this.registry == registry && this.name == name && this.filter == filter
      ensures this.attributeFilter == attributeFilter
      ensures this.rateUnit == rateUnit && this.durationUnit == durationUnit
      ensures this.metricNamePrefix == metricNamePrefix
    {
      this.registry := registry;
      this.name := name;
      this.filter := filter;
      this.attributeFilter := attributeFilter;
      this.rateUnit := rateUnit;
      this.durationUnit := durationUnit;
      this.metricNamePrefix := metricNamePrefix;
    }

    /** `record`: sends one value under its full name. */
    method RecordName(name: string, agent: Agent)
      modifies agent
      ensures agent.recorded == old(agent.recorded) + [FullName(metricNamePrefix, name)]
    {
      agent.RecordMetric("Custom/" + metricNamePrefix + name);
    }

    /** One `if (filter.recordX(name, metric)) record(name + suffix, ...)` step of the reporter. */
    method RecordIfAccepted(name: string, kind: Kind, suffix: string, metric: Metric, agent: Agent)
      modifies agent
      ensures agent.recorded == old(agent.recorded) + StepEmitted(attributeFilter, metricNamePrefix, name, metric, kind, suffix)
    {
      if Record(attributeFilter, name, kind, metric) {
        RecordName(name + suffix, agent);
      }
    }

    /** `doHistogramSnapshot`: the ten snapshot statistics of a histogram, each asked of the filter in turn. */
    method DoHistogramSnapshot(name: string, metric: Metric, agent: Agent)
      modifies agent
      ensures agent.recorded == old(agent.recorded) + Emitted(attributeFilter, metricNamePrefix, name, metric, SnapshotPlan(false, ""))
    {
      SnapshotSteps(agent.recorded, attributeFilter, metricNamePrefix, name, metric, false, "");
      assert "/min" + "" == "/min" && "/max" + "" == "/max" && "/mean" + "" == "/mean" && "/stdDev" + "" == "/stdDev";
      assert "/median" + "" == "/median" && "/75th" + "" == "/75th" && "/95th" + "" == "/95th" && "/98th" + "" == "/98th";
      assert "/99th" + "" == "/99th" && "/99.9th" + "" == "/99.9th";
      RecordIfAccepted(name, HistogramMin, "/min", metric, agent);
      RecordIfAccepted(name, HistogramMax, "/max", metric, agent);
      RecordIfAccepted(name, HistogramMean, "/mean", metric, agent);
      RecordIfAccepted(name, HistogramStdDev, "/stdDev", metric, agent);
      RecordIfAccepted(name, HistogramMedian, "/median", metric, agent);
      RecordIfAccepted(name, Histogram75thPercentile, "/75th", metric, agent);
      RecordIfAccepted(name, Histogram95thPercentile, "/95th", metric, agent);
      RecordIfAccepted(name, Histogram98thPercentile, "/98th", metric, agent);
      RecordIfAccepted(name, Histogram99thPercentile, "/99th", metric, agent);
      RecordIfAccepted(name, Histogram999thPercentile, "/99.9th", metric, agent);
    }
  
    /** `doMetered`: the five metered statistics of a meter; rates are labelled with the rate unit. */
    method DoMetered(name: string, metric: Metric, rateUnitLabel: string, agent: Agent)
      modifies agent
      ensures agent.recorded == old(agent.recorded) + Emitted(attributeFilter, metricNamePrefix, name, metric, MeteredPlan(false, rateUnitLabel))
    {
      MeteredSteps(agent.recorded, attributeFilter, metricNamePrefix, name, metric, false, rateUnitLabel);
      RecordIfAccepted(name, MeterCount, "/count", metric, agent);
      RecordIfAccepted(name, MeterRate, "/meanRate/" + rateUnitLabel, metric, agent);
      RecordIfAccepted(name, Meter1MinuteRate, "/1MinuteRate/" + rateUnitLabel, metric, agent);
      RecordIfAccepted(name, Meter5MinuteRate, "/5MinuteRate/" + rateUnitLabel, metric, agent);
      RecordIfAccepted(name, Meter15MinuteRate, "/15MinuteRate/" + rateUnitLabel, metric, agent);
    }

    /** `doTimerMetered`: the five metered statistics of a timer, asked with the timer decisions. */
    method DoTimerMetered(name: string, metric: Metric, rateUnitLabel: string, agent: Agent)
      modifies agent
      ensures agent.recorded == old(agent.recorded) + Emitted(attributeFilter, metricNamePrefix, name, metric, MeteredPlan(true, rateUnitLabel))
    {
      MeteredSteps(agent.recorded, attributeFilter, metricNamePrefix, name, metric, true, rateUnitLabel);
      RecordIfAccepted(name, TimerCount, "/count", metric, agent);
      RecordIfAccepted(name, TimerMeanRate, "/meanRate/" + rateUnitLabel, metric, agent);
      RecordIfAccepted(name, Timer1MinuteRate, "/1MinuteRate/" + rateUnitLabel, metric, agent);
      RecordIfAccepted(name, Timer5MinuteRate, "/5MinuteRate/" + rateUnitLabel, metric, agent);
      RecordIfAccepted(name, Timer15MinuteRate, "/15MinuteRate/" + rateUnitLabel, metric, agent);
    }

    /** `doTimerSnapshot`: the ten snapshot statistics of a timer, each name ending in "/" + the duration unit. */
    method DoTimerSnapshot(name: string, metric: Metric, durationUnitLabel: string, agent: Agent)
      modifies agent
      ensures agent.recorded == old(agent.recorded) + Emitted(attributeFilter, metricNamePrefix, name, metric, SnapshotPlan(true, "/" + durationUnitLabel))
    {
      var nameSuffix := "/" + durationUnitLabel;
      SnapshotSteps(agent.recorded, attributeFilter, metricNamePrefix, name, metric, true, nameSuffix);
      RecordIfAccepted(name, TimerMin, "/min" + nameSuffix, metric, agent);
      RecordIfAccepted(name, TimerMax, "/max" + nameSuffix, metric, agent);
      RecordIfAccepted(name, TimerMean, "/mean" + nameSuffix, metric, agent);
      RecordIfAccepted(name, TimerStdDev, "/stdDev" + nameSuffix, metric, agent);
      RecordIfAccepted(name, TimerMedian, "/median" + nameSuffix, metric, agent);
      RecordIfAccepted(name, Timer75thPercentile, "/75th" + nameSuffix, metric, agent);
      RecordIfAccepted(name, Timer95thPercentile, "/95th" + nameSuffix, metric, agent);
      RecordIfAccepted(name, Timer98thPercentile, "/98th" + nameSuffix, metric, agent);
      RecordIfAccepted(name, Timer99thPercentile, "/99th" + nameSuffix, metric, agent);
      RecordIfAccepted(name, Timer999thPercentile, "/99.9th" + nameSuffix, metric, agent);
    }

    /** `doGauge`: a gauge is sent under its bare name when its value is a finite number and the filter agrees. */
    method DoGauge(name: string, gauge: Gauge, agent: Agent)
      modifies agent
      ensures agent.recorded == old(agent.recorded) + GaugeEmitted(attributeFilter, metricNamePrefix, name, gauge)
    {
      if gauge.numericFinite && Record(attributeFilter, name, GaugeValue, gauge.metric) {
        RecordName(name, agent);
      }
    }

    /** The counter step of `report`: a counter's count, when the filter agrees. */
    method DoCounter(name: string, metric: Metric, agent: Agent)
      modifies agent
      ensures agent.recorded == old(agent.recorded) + Emitted(attributeFilter, metricNamePrefix, name, metric, CounterPlan())
    {
      assert CounterPlan()[1..] == [];
      RecordIfAccepted(name, CounterCount, "/count", metric, agent);
    }

    /** The gauge loop of `report`. */
    method ReportGauges(gauges: seq<(string, Gauge)>, agent: Agent)
      modifies agent
      ensures agent.recorded == old(agent.recorded) + GaugesEmitted(attributeFilter, metricNamePrefix, gauges)
    {
      var i := 0;
      while i < |gauges|
        invariant 0 <= i <= |gauges|
        invariant agent.recorded == old(agent.recorded) + GaugesEmitted(attributeFilter, metricNamePrefix, gauges[..i])
      {
        DoGauge(gauges[i].0, gauges[i].1, agent);
        assert gauges[..i + 1][..i] == gauges[..i];
        i := i + 1;
      }
      assert gauges[..i] == gauges;
    }

    /** The counter loop of `report`. */
    method ReportCounters(counters: seq<(string, Metric)>, agent: Agent)
      modifies agent
      ensures agent.recorded == old(agent.recorded) + SectionEmitted(attributeFilter, metricNamePrefix, counters, CounterPlan())
    {
      var i := 0;
      while i < |counters|
        invariant 0 <= i <= |counters|
        invariant agent.recorded == old(agent.recorded) + SectionEmitted(attributeFilter, metricNamePrefix, counters[..i], CounterPlan())
      {
        DoCounter(counters[i].0, counters[i].1, agent);
        assert counters[..i + 1][..i] == counters[..i];
        i := i + 1;
      }
      assert counters[..i] == counters;
    }

    /** The histogram loop of `report`. */
    method ReportHistograms(histograms: seq<(string, Metric)>, agent: Agent)
      modifies agent
      ensures agent.recorded == old(agent.recorded) + SectionEmitted(attributeFilter, metricNamePrefix, histograms, SnapshotPlan(false, ""))
    {
      var i := 0;
      while i < |histograms|
        invariant 0 <= i <= |histograms|
        invariant agent.recorded == old(agent.recorded) + SectionEmitted(attributeFilter, metricNamePrefix, histograms[..i], SnapshotPlan(false, ""))
      {
        DoHistogramSnapshot(histograms[i].0, histograms[i].1, agent);
        assert histograms[..i + 1][..i] == histograms[..i];
        i := i + 1;
      }
      assert histograms[..i] == histograms;
    }

    /** The meter loop of `report`. */
    method ReportMeters(meters: seq<(string, Metric)>, rateUnitLabel: string, agent: Agent)
      modifies agent
      ensures agent.recorded == old(agent.recorded) + SectionEmitted(attributeFilter, metricNamePrefix, meters, MeteredPlan(false, rateUnitLabel))
    {
      var i := 0;
      while i < |meters|
        invariant 0 <= i <= |meters|
        invariant agent.recorded == old(agent.recorded) + SectionEmitted(attributeFilter, metricNamePrefix, meters[..i], MeteredPlan(false, rateUnitLabel))
      {
        DoMetered(meters[i].0, meters[i].1, rateUnitLabel, agent);
        assert meters[..i + 1][..i] == meters[..i];
        i := i + 1;
      }
      assert meters[..i] == meters;
    }

    /** The timer loop of `report`: per timer, its metered statistics, then its snapshot ones. */
    method ReportTimers(timers: seq<(string, Metric)>, rateUnitLabel: string, durationUnitLabel: string, agent: Agent)
      modifies agent
      ensures agent.recorded == old(agent.recorded) + TimersEmitted(attributeFilter, metricNamePrefix, rateUnitLabel, durationUnitLabel, timers)
    {
      var i := 0;
      while i < |timers|
        invariant 0 <= i <= |timers|
        invariant agent.recorded == old(agent.recorded) + TimersEmitted(attributeFilter, metricNamePrefix, rateUnitLabel, durationUnitLabel, timers[..i])
      {
        DoTimerMetered(timers[i].0, timers[i].1, rateUnitLabel, agent);
        DoTimerSnapshot(timers[i].0, timers[i].1, durationUnitLabel, agent);
        assert timers[..i + 1][..i] == timers[..i];
        i := i + 1;
      }
      assert timers[..i] == timers;
    }

    /**
     * `report`: gauges, counters, histograms, meters and timers, each section
     * in the order its entries are given (the sorted-map order), send exactly
     * `ReportEmitted`. The unit labels are the base reporter's rate and
     * duration unit names.
     */
    method Report(gauges: seq<(string, Gauge)>, counters: seq<(string, Metric)>,
                  histograms: seq<(string, Metric)>, meters: seq<(string, Metric)>,
                  timers: seq<(string, Metric)>, rateUnitLabel: string, durationUnitLabel: string, agent: Agent)
      modifies agent
      ensures agent.recorded
              == old(agent.recorded)
                 + ReportEmitted(attributeFilter, metricNamePrefix, rateUnitLabel, durationUnitLabel,
                                 gauges, counters, histograms, meters, timers)
    {
      ghost var before := agent.recorded;
      ghost var g := GaugesEmitted(attributeFilter, metricNamePrefix, gauges);
      ghost var c := SectionEmitted(attributeFilter, metricNamePrefix, counters, CounterPlan());
      ghost var h := SectionEmitted(attributeFilter, metricNamePrefix, histograms, SnapshotPlan(false, ""));
      ghost var m := SectionEmitted(attributeFilter, metricNamePrefix, meters, MeteredPlan(false, rateUnitLabel));
      ghost var t := TimersEmitted(attributeFilter, metricNamePrefix, rateUnitLabel, durationUnitLabel, timers);
      ReportGauges(gauges, agent);
      ReportCounters(counters, agent);
      ReportHistograms(histograms, agent);
      ReportMeters(meters, rateUnitLabel, agent);
      ReportTimers(timers, rateUnitLabel, durationUnitLabel, agent);
      AppendsCompose(before, g, c, h, m, t);
    }
  }

  /** `forRegistry`: a builder for `registry` with the documented defaults. */
  method ForRegistry(registry: MetricRegistry) returns (b: Builder)
    ensures fresh(b)
    ensures b.registry == registry && b.name == "new relic reporter" && b.filter == All
    ensures b.attributeFilter == AllEnabled && b.rateUnit == Seconds && b.durationUnit == Milliseconds
    ensures b.metricNamePrefix == ""
  {
    b := new Builder(registry);
  }

  /** `NewRelicReporter.Builder`: collects the reporter's settings; every setter returns the builder itself. */
  class Builder {
    var registry: MetricRegistry
    var name: string
    var filter: MetricFilter
    var attributeFilter: MetricAttributeFilter
    var rateUnit: TimeUnit
    var durationUnit: TimeUnit
    var metricNamePrefix: string

    /** Rates per second, durations in milliseconds, no prefix, every metric and every attribute. */
    constructor (registry: MetricRegistry)
      ensures this.registry == registry && name == "new relic reporter" && filter == All
      ensures attributeFilter == AllEnabled && rateUnit == Seconds && durationUnit == Milliseconds
      ensures metricNamePrefix == ""
    {
      this.registry := registry;
      rateUnit := Seconds;
      durationUnit := Milliseconds;
      metricNamePrefix := "";
      name := "new relic reporter";
      filter := All;
      attributeFilter := AllEnabled;
    }

    method SetAttributeFilter(attributeFilter: MetricAttributeFilter) returns (b: Builder)
      modifies this`attributeFilter
      ensures b == this && this.attributeFilter == attributeFilter
    {
      this.attributeFilter := attributeFilter;
      b := this;
    }

    method SetName(name: string) returns (b: Builder)
      modifies this`name
      ensures b == this && this.name == name
    {
      this.name := name;
      b := this;
    }

    method SetFilter(filter: MetricFilter) returns (b: Builder)
      modifies this`filter
      ensures b == this && this.filter == filter
    {
      this.filter := filter;
      b := this;
    }

    method SetRateUnit(rateUnit: TimeUnit) returns (b: Builder)
      modifies this`rateUnit
      ensures b == this && this.rateUnit == rateUnit
    {
      this.rateUnit := rateUnit;
      b := this;
    }

    method SetDurationUnit(durationUnit: TimeUnit) returns (b: Builder)
      modifies this`durationUnit
      ensures b == this && this.durationUnit == durationUnit
    {
      this.durationUnit := durationUnit;
      b := this;
    }

    method SetMetricNamePrefix(metricNamePrefix: string) returns (b: Builder)
      modifies this`metricNamePrefix
      ensures b == this && this.metricNamePrefix == metricNamePrefix
    {
      this.metricNamePrefix := metricNamePrefix;
      b := this;
    }

    /** `build`: a reporter carrying exactly the settings collected so far. */
    method Build() returns (r: NewRelicReporter)
      ensures fresh(r)
      ensures r.registry == registry && r.name == name && r.filter == filter
      ensures r.attributeFilter == attributeFilter && r.rateUnit == rateUnit && r.durationUnit == durationUnit
      ensures r.metricNamePrefix == metricNamePrefix
    {
      r := new NewRelicReporter(registry, name, filter, attributeFilter, rateUnit, durationUnit, metricNamePrefix);
    }
  }
}
