/**
 * What the reporters send for one metric, as a function of the attribute
 * filter: each statistic is a (kind, name suffix) step of a plan, and a step is
 * sent under "Custom/" + prefix + name + suffix exactly when the filter's
 * decision for its kind is true.
 */
module Emission {
  import opened Kinds
  import opened MetricsLibrary
  import opened Filters

  /** The statistics a reporter may send for one metric, in sending order. */
  type Plan = seq<(Kind, string)>

  /** The name New Relic receives for metric attribute `name` under `prefix`. */
  function FullName(prefix: string, name: string): (r: string)
    ensures |r| == |"Custom/" + prefix| + |name|
    ensures r[..|"Custom/" + prefix|] == "Custom/" + prefix
    ensures r[|"Custom/" + prefix|..] == name
  {
    "Custom/" + prefix + name
  }

  /** A counter's one statistic. */
  function CounterPlan(): Plan
  {
    [(CounterCount, "/count")]
  }

  /** The metered statistics of a timer (`isTimer`) or a meter; rates carry the rate unit. */
  function MeteredPlan(isTimer: bool, rateUnit: string): Plan
  {
    [(if isTimer then TimerCount else MeterCount, "/count"),
     (if isTimer then TimerMeanRate else MeterRate, "/meanRate/" + rateUnit),
     (if isTimer then Timer1MinuteRate else Meter1MinuteRate, "/1MinuteRate/" + rateUnit),
     (if isTimer then Timer5MinuteRate else Meter5MinuteRate, "/5MinuteRate/" + rateUnit),
     (if isTimer then Timer15MinuteRate else Meter15MinuteRate, "/15MinuteRate/" + rateUnit)]
  }

  /** The snapshot statistics of a timer (`isTimer`) or a histogram, each followed by `nameSuffix`. */
  function SnapshotPlan(isTimer: bool, nameSuffix: string): Plan
  {
    [(if isTimer then TimerMin else HistogramMin, "/min" + nameSuffix),
     (if isTimer then TimerMax else HistogramMax, "/max" + nameSuffix),
     (if isTimer then TimerMean else HistogramMean, "/mean" + nameSuffix),
     (if isTimer then TimerStdDev else HistogramStdDev, "/stdDev" + nameSuffix),
     (if isTimer then TimerMedian else HistogramMedian, "/median" + nameSuffix),
     (if isTimer then Timer75thPercentile else Histogram75thPercentile, "/75th" + nameSuffix),
     (if isTimer then Timer95thPercentile else Histogram95thPercentile, "/95th" + nameSuffix),
     (if isTimer then Timer98thPercentile else Histogram98thPercentile, "/98th" + nameSuffix),
     (if isTimer then Timer99thPercentile else Histogram99thPercentile, "/99th" + nameSuffix),
     (if isTimer then Timer999thPercentile else Histogram999thPercentile, "/99.9th" + nameSuffix)]
  }

  /**
   * The names sent for metric `metric` called `name` following `plan`: the
   * filter is asked about `name` and each step's kind, in plan order.
   */
  function Emitted(f: MetricAttributeFilter, prefix: string, name: string, metric: Metric, plan: Plan): seq<string>
  {
    if plan == [] then []
    else
      (if Record(f, name, plan[0].0, metric) then [FullName(prefix, name + plan[0].1)] else [])
      + Emitted(f, prefix, name, metric, plan[1..])
  }

  /** The name sent for a gauge: its bare name, when its value is a finite number and the filter agrees. */
  function GaugeEmitted(f: MetricAttributeFilter, prefix: string, name: string, gauge: Gauge): seq<string>
  {
    if gauge.numericFinite && Record(f, name, GaugeValue, gauge.metric) then [FullName(prefix, name)] else []
  }

  /** The names sent for a sequence of gauges, in order. */
  function GaugesEmitted(f: MetricAttributeFilter, prefix: string, gauges: seq<(string, Gauge)>): seq<string>
  {
    if gauges == [] then []
    else
      var last := gauges[|gauges| - 1];
      GaugesEmitted(f, prefix, gauges[..|gauges| - 1]) + GaugeEmitted(f, prefix, last.0, last.1)
  }

  /** The names sent for a sequence of metrics that all follow `plan`, in order. */
  function SectionEmitted(f: MetricAttributeFilter, prefix: string, entries: seq<(string, Metric)>, plan: Plan): seq<string>
  {
    if entries == [] then []
    else
      var last := entries[|entries| - 1];
      SectionEmitted(f, prefix, entries[..|entries| - 1], plan) + Emitted(f, prefix, last.0, last.1, plan)
  }

  /**
   * Appending five sections one after the other appends their concatenation.
   * Each `Report` calls this rather than asserting the equation inline, which
   * keeps its proof within the solver's budget.
   */
  lemma AppendsCompose<T>(s0: seq<T>, s1: seq<T>, s2: seq<T>, s3: seq<T>, s4: seq<T>, s5: seq<T>)
    ensures s0 + s1 + s2 + s3 + s4 + s5 == s0 + (s1 + s2 + s3 + s4 + s5)
  {
  }

  /** The name sent for one step of a plan, if its decision is true. */
  function StepEmitted(f: MetricAttributeFilter, prefix: string, name: string, metric: Metric, kind: Kind, suffix: string): seq<string>
  {
    if Record(f, name, kind, metric) then [FullName(prefix, name + suffix)] else []
  }

  /** `acc` followed by the names sent following `plan`, accumulated step by step as the reporters do. */
  function EmittedOnto(acc: seq<string>, f: MetricAttributeFilter, prefix: string, name: string, metric: Metric, plan: Plan): seq<string>
    decreases |plan|
  {
    if plan == [] then acc
    else EmittedOnto(acc + StepEmitted(f, prefix, name, metric, plan[0].0, plan[0].1), f, prefix, name, metric, plan[1..])
  }

  /** Accumulating step by step appends exactly `Emitted`. */
  lemma {:induction false} EmittedOntoAppends(acc: seq<string>, f: MetricAttributeFilter, prefix: string, name: string, metric: Metric, plan: Plan)
    ensures EmittedOnto(acc, f, prefix, name, metric, plan) == acc + Emitted(f, prefix, name, metric, plan)
    decreases |plan|
  {
    if plan != [] {
      EmittedOntoAppends(acc + StepEmitted(f, prefix, name, metric, plan[0].0, plan[0].1), f, prefix, name, metric, plan[1..]);
    }
  }

  /** Accumulating from step `i` takes step `i`'s name, if any, and goes on from step `i + 1`. */
  lemma EmittedOntoDrop(acc: seq<string>, f: MetricAttributeFilter, prefix: string, name: string, metric: Metric, plan: Plan, i: nat)
    requires i < |plan|
    ensures EmittedOnto(acc, f, prefix, name, metric, plan[i..])
            == EmittedOnto(acc + StepEmitted(f, prefix, name, metric, plan[i].0, plan[i].1), f, prefix, name, metric, plan[i + 1..])
  {
    assert plan[i..][1..] == plan[i + 1..];
  }

  /** The snapshot plan unrolled into its ten steps, in the order the reporters take them. */
  lemma SnapshotSteps(acc: seq<string>, f: MetricAttributeFilter, prefix: string, name: string, metric: Metric,
                      isTimer: bool, nameSuffix: string)
    ensures var p := SnapshotPlan(isTimer, nameSuffix);
            acc + Emitted(f, prefix, name, metric, p)
            == acc
               + StepEmitted(f, prefix, name, metric, if isTimer then TimerMin else HistogramMin, "/min" + nameSuffix)
               + StepEmitted(f, prefix, name, metric, if isTimer then TimerMax else HistogramMax, "/max" + nameSuffix)
               + StepEmitted(f, prefix, name, metric, if isTimer then TimerMean else HistogramMean, "/mean" + nameSuffix)
               + StepEmitted(f, prefix, name, metric, if isTimer then TimerStdDev else HistogramStdDev, "/stdDev" + nameSuffix)
               + StepEmitted(f, prefix, name, metric, if isTimer then TimerMedian else HistogramMedian, "/median" + nameSuffix)
               + StepEmitted(f, prefix, name, metric, if isTimer then Timer75thPercentile else Histogram75thPercentile, "/75th" + nameSuffix)
               + StepEmitted(f, prefix, name, metric, if isTimer then Timer95thPercentile else Histogram95thPercentile, "/95th" + nameSuffix)
               + StepEmitted(f, prefix, name, metric, if isTimer then Timer98thPercentile else Histogram98thPercentile, "/98th" + nameSuffix)
               + StepEmitted(f, prefix, name, metric, if isTimer then Timer99thPercentile else Histogram99thPercentile, "/99th" + nameSuffix)
               + StepEmitted(f, prefix, name, metric, if isTimer then Timer999thPercentile else Histogram999thPercentile, "/99.9th" + nameSuffix)
  {
    var p := SnapshotPlan(isTimer, nameSuffix);
    var head, tail := p[..5], p[5..];
    assert p == head + tail;
    EmittedJoin(f, prefix, name, metric, head, tail);
    FiveSteps(acc, f, prefix, name, metric, head);
    FiveSteps(acc + Emitted(f, prefix, name, metric, head), f, prefix, name, metric, tail);
  }

  /** Emitting a plan in two parts emits the parts one after the other. */
  lemma {:induction false} EmittedJoin(f: MetricAttributeFilter, prefix: string, name: string, metric: Metric, a: Plan, b: Plan)
    ensures Emitted(f, prefix, name, metric, a + b) == Emitted(f, prefix, name, metric, a) + Emitted(f, prefix, name, metric, b)
    decreases |a|
  {
    if a != [] {
      assert (a + b)[0] == a[0] && (a + b)[1..] == a[1..] + b;
      EmittedJoin(f, prefix, name, metric, a[1..], b);
    } else {
      assert a + b == b;
    }
  }

  /** A five-step plan unrolled into its steps. */
  lemma FiveSteps(acc: seq<string>, f: MetricAttributeFilter, prefix: string, name: string, metric: Metric, p: Plan)
    requires |p| == 5
    ensures acc + Emitted(f, prefix, name, metric, p)
            == acc
               + StepEmitted(f, prefix, name, metric, p[0].0, p[0].1)
               + StepEmitted(f, prefix, name, metric, p[1].0, p[1].1)
               + StepEmitted(f, prefix, name, metric, p[2].0, p[2].1)
               + StepEmitted(f, prefix, name, metric, p[3].0, p[3].1)
               + StepEmitted(f, prefix, name, metric, p[4].0, p[4].1)
  {
    EmittedOntoAppends(acc, f, prefix, name, metric, p);
    assert p[0..] == p;
    var a := acc;
    EmittedOntoDrop(a, f, prefix, name, metric, p, 0);
    a := a + StepEmitted(f, prefix, name, metric, p[0].0, p[0].1);
    EmittedOntoDrop(a, f, prefix, name, metric, p, 1);
    a := a + StepEmitted(f, prefix, name, metric, p[1].0, p[1].1);
    EmittedOntoDrop(a, f, prefix, name, metric, p, 2);
    a := a + StepEmitted(f, prefix, name, metric, p[2].0, p[2].1);
    EmittedOntoDrop(a, f, prefix, name, metric, p, 3);
    a := a + StepEmitted(f, prefix, name, metric, p[3].0, p[3].1);
    EmittedOntoDrop(a, f, prefix, name, metric, p, 4);
    a := a + StepEmitted(f, prefix, name, metric, p[4].0, p[4].1);
    assert p[5..] == [];
  }

  /** The metered plan unrolled into its five steps, in the order the reporters take them. */
  lemma MeteredSteps(acc: seq<string>, f: MetricAttributeFilter, prefix: string, name: string, metric: Metric,
                     isTimer: bool, rateUnit: string)
    ensures var p := MeteredPlan(isTimer, rateUnit);
            acc + Emitted(f, prefix, name, metric, p)
            == acc
               + StepEmitted(f, prefix, name, metric, if isTimer then TimerCount else MeterCount, "/count")
               + StepEmitted(f, prefix, name, metric, if isTimer then TimerMeanRate else MeterRate, "/meanRate/" + rateUnit)
               + StepEmitted(f, prefix, name, metric, if isTimer then Timer1MinuteRate else Meter1MinuteRate, "/1MinuteRate/" + rateUnit)
               + StepEmitted(f, prefix, name, metric, if isTimer then Timer5MinuteRate else Meter5MinuteRate, "/5MinuteRate/" + rateUnit)
               + StepEmitted(f, prefix, name, metric, if isTimer then Timer15MinuteRate else Meter15MinuteRate, "/15MinuteRate/" + rateUnit)
  {
    FiveSteps(acc, f, prefix, name, metric, MeteredPlan(isTimer, rateUnit));
  }
}
