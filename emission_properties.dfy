/**
 * What the emission plans promise: which names are sent and why, how many at
 * most, under which prefix, and that each statistic of a metric is asked about
 * its own kind.
 */
module EmissionProperties {
  import opened Kinds
  import opened MetricsLibrary
  import opened Filters
  import opened Emission

  /** The kinds a plan asks the filter about, in plan order. */
  function PlanKinds(plan: Plan): (r: seq<Kind>)
    ensures |r| == |plan|
    ensures forall i :: 0 <= i < |plan| ==> r[i] == plan[i].0
  {
    if plan == [] then [] else [plan[0].0] + PlanKinds(plan[1..])
  }

  /** No two steps of the plan send under the same suffix. */
  predicate DistinctSuffixes(plan: Plan)
  {
    forall i, j :: 0 <= i < j < |plan| ==> plan[i].1 != plan[j].1
  }

  /** A name is sent exactly when some step's decision is true and the name is that step's full name. */
  lemma {:induction false} EmittedMembership(f: MetricAttributeFilter, prefix: string, name: string, metric: Metric,
                                             plan: Plan, x: string)
    ensures x in Emitted(f, prefix, name, metric, plan)
            <==> exists i :: 0 <= i < |plan| && Record(f, name, plan[i].0, metric) && x == FullName(prefix, name + plan[i].1)
    decreases |plan|
  {
    if plan != [] {
      var tail := plan[1..];
      EmittedMembership(f, prefix, name, metric, tail, x);
      if x in Emitted(f, prefix, name, metric, plan) {
        if !(Record(f, name, plan[0].0, metric) && x == FullName(prefix, name + plan[0].1)) {
          var j :| 0 <= j < |tail| && Record(f, name, tail[j].0, metric) && x == FullName(prefix, name + tail[j].1);
          assert tail[j] == plan[j + 1];
        }
      }
      if exists i :: 0 <= i < |plan| && Record(f, name, plan[i].0, metric) && x == FullName(prefix, name + plan[i].1) {
        var i :| 0 <= i < |plan| && Record(f, name, plan[i].0, metric) && x == FullName(prefix, name + plan[i].1);
        if i > 0 {
          assert tail[i - 1] == plan[i];
        }
      }
    }
  }

  /** One metric sends at most one name per step of its plan. */
  lemma {:induction false} EmittedAtMostPlan(f: MetricAttributeFilter, prefix: string, name: string, metric: Metric, plan: Plan)
    ensures |Emitted(f, prefix, name, metric, plan)| <= |plan|
    decreases |plan|
  {
    if plan != [] {
      EmittedAtMostPlan(f, prefix, name, metric, plan[1..]);
    }
  }

  /** Under the all-enabled filter every step is sent, in plan order. */
  lemma {:induction false} AllEnabledSendsWholePlan(prefix: string, name: string, metric: Metric, plan: Plan)
    ensures |Emitted(AllEnabled, prefix, name, metric, plan)| == |plan|
    ensures forall i :: 0 <= i < |plan| ==> Emitted(AllEnabled, prefix, name, metric, plan)[i] == FullName(prefix, name + plan[i].1)
    decreases |plan|
  {
    if plan != [] {
      AllEnabledSendsWholePlan(prefix, name, metric, plan[1..]);
      var e := Emitted(AllEnabled, prefix, name, metric, plan);
      forall i | 0 < i < |plan|
        ensures e[i] == FullName(prefix, name + plan[i].1)
      {
        assert plan[1..][i - 1] == plan[i];
      }
    }
  }

  /** Under the all-disabled filter nothing is sent. */
  lemma {:induction false} AllDisabledSendsNothing(prefix: string, name: string, metric: Metric, plan: Plan)
    ensures Emitted(AllDisabled, prefix, name, metric, plan) == []
    decreases |plan|
  {
    if plan != [] {
      AllDisabledSendsNothing(prefix, name, metric, plan[1..]);
    }
  }

  /** Every name sent for a metric starts with "Custom/" + prefix + the metric's name. */
  lemma EmittedNamesArePrefixed(f: MetricAttributeFilter, prefix: string, name: string, metric: Metric, plan: Plan)
    ensures forall x :: x in Emitted(f, prefix, name, metric, plan) ==> FullName(prefix, name) <= x
  {
    forall x | x in Emitted(f, prefix, name, metric, plan)
      ensures FullName(prefix, name) <= x
    {
      EmittedMembership(f, prefix, name, metric, plan, x);
      var i :| 0 <= i < |plan| && Record(f, name, plan[i].0, metric) && x == FullName(prefix, name + plan[i].1);
      assert x == FullName(prefix, name) + plan[i].1;
    }
  }

  /** Equal full names for the same metric mean equal suffixes. */
  lemma SuffixCancels(prefix: string, name: string, s1: string, s2: string)
    requires FullName(prefix, name + s1) == FullName(prefix, name + s2)
    ensures s1 == s2
  {
    var n := |FullName(prefix, name)|;
    assert FullName(prefix, name + s1) == FullName(prefix, name) + s1;
    assert FullName(prefix, name + s2) == FullName(prefix, name) + s2;
    assert s1 == FullName(prefix, name + s1)[n..];
  }

  /**
   * When the plan's suffixes are distinct, the name of step `i` is sent
   * exactly when the filter accepts step `i`'s kind for this metric.
   */
  lemma StepSentIffAccepted(f: MetricAttributeFilter, prefix: string, name: string, metric: Metric, plan: Plan, i: nat)
    requires DistinctSuffixes(plan)
    requires i < |plan|
    ensures FullName(prefix, name + plan[i].1) in Emitted(f, prefix, name, metric, plan) <==> Record(f, name, plan[i].0, metric)
  {
    var x := FullName(prefix, name + plan[i].1);
    EmittedMembership(f, prefix, name, metric, plan, x);
    if x in Emitted(f, prefix, name, metric, plan) {
      var j :| 0 <= j < |plan| && Record(f, name, plan[j].0, metric) && x == FullName(prefix, name + plan[j].1);
      SuffixCancels(prefix, name, plan[i].1, plan[j].1);
    }
  }

  /** Names that end alike and are equal began alike. */
  lemma RightCancel(a: string, b: string, s: string)
    requires a + s == b + s
    ensures a == b
  {
    assert a == (a + s)[..|a|];
    assert b == (b + s)[..|b|];
  }

  /** The ten snapshot statistics are sent under ten different names. */
  lemma SnapshotSuffixesDistinct(isTimer: bool, nameSuffix: string)
    ensures DistinctSuffixes(SnapshotPlan(isTimer, nameSuffix))
  {
    var p := SnapshotPlan(isTimer, nameSuffix);
    var stats := ["/min", "/max", "/mean", "/stdDev", "/median", "/75th", "/95th", "/98th", "/99th", "/99.9th"];
    assert forall i :: 0 <= i < |p| ==> p[i].1 == stats[i] + nameSuffix;
    assert forall i, j :: 0 <= i < j < |stats| ==> stats[i] != stats[j];
    forall i, j | 0 <= i < j < |p|
      ensures p[i].1 != p[j].1
    {
      if p[i].1 == p[j].1 {
        RightCancel(stats[i], stats[j], nameSuffix);
      }
    }
  }

  /** The five metered statistics are sent under five different names. */
  lemma MeteredSuffixesDistinct(isTimer: bool, rateUnit: string)
    ensures DistinctSuffixes(MeteredPlan(isTimer, rateUnit))
  {
    var p := MeteredPlan(isTimer, rateUnit);
    forall i, j | 0 <= i < j < |p|
      ensures p[i].1 != p[j].1
    {
      assert p[i].1[1] != p[j].1[1] || p[i].1[2] != p[j].1[2];
    }
  }

  /** A counter asks about its count and nothing else. */
  lemma CounterPlanKinds()
    ensures forall k :: k in PlanKinds(CounterPlan()) <==> TypeOf(k) == CounterMetric
  {
  }

  /** A histogram's plan asks exactly the ten histogram decisions. */
  lemma HistogramPlanKinds(nameSuffix: string)
    ensures forall k :: k in PlanKinds(SnapshotPlan(false, nameSuffix)) <==> TypeOf(k) == HistogramMetric
  {
    var ks := PlanKinds(SnapshotPlan(false, nameSuffix));
    assert ks == KindsOf(HistogramMetric);
    KindsOfHaveTheirType(HistogramMetric);
    forall k | TypeOf(k) == HistogramMetric
      ensures k in ks
    {
      AllKindsClosed(k);
    }
  }

  /** A meter's plan asks exactly the five meter decisions. */
  lemma MeterPlanKinds(rateUnit: string)
    ensures forall k :: k in PlanKinds(MeteredPlan(false, rateUnit)) <==> TypeOf(k) == MeterMetric
  {
    var ks := PlanKinds(MeteredPlan(false, rateUnit));
    assert ks == KindsOf(MeterMetric);
    KindsOfHaveTheirType(MeterMetric);
    forall k | TypeOf(k) == MeterMetric
      ensures k in ks
    {
      AllKindsClosed(k);
    }
  }

  /** A timer's metered and snapshot plans together ask exactly the fifteen timer decisions. */
  lemma TimerPlanKinds(rateUnit: string, nameSuffix: string)
    ensures forall k :: k in PlanKinds(MeteredPlan(true, rateUnit) + SnapshotPlan(true, nameSuffix)) <==> TypeOf(k) == TimerMetric
  {
    var ks := PlanKinds(MeteredPlan(true, rateUnit) + SnapshotPlan(true, nameSuffix));
    assert ks == KindsOf(TimerMetric)[10..] + KindsOf(TimerMetric)[..10];
    KindsOfHaveTheirType(TimerMetric);
    forall k | TypeOf(k) == TimerMetric
      ensures k in ks
    {
      AllKindsClosed(k);
    }
  }

  /** Each metered statistic is sent exactly when the filter accepts its kind for the metric. */
  lemma MeteredStatisticSentIffAccepted(f: MetricAttributeFilter, prefix: string, name: string, metric: Metric,
                                        isTimer: bool, rateUnit: string, i: nat)
    requires i < 5
    ensures var p := MeteredPlan(isTimer, rateUnit);
            FullName(prefix, name + p[i].1) in Emitted(f, prefix, name, metric, p) <==> Record(f, name, p[i].0, metric)
  {
    MeteredSuffixesDistinct(isTimer, rateUnit);
    StepSentIffAccepted(f, prefix, name, metric, MeteredPlan(isTimer, rateUnit), i);
  }

  /** Each snapshot statistic is sent exactly when the filter accepts its kind for the metric. */
  lemma SnapshotStatisticSentIffAccepted(f: MetricAttributeFilter, prefix: string, name: string, metric: Metric,
                                         isTimer: bool, nameSuffix: string, i: nat)
    requires i < 10
    ensures var p := SnapshotPlan(isTimer, nameSuffix);
            FullName(prefix, name + p[i].1) in Emitted(f, prefix, name, metric, p) <==> Record(f, name, p[i].0, metric)
  {
    SnapshotSuffixesDistinct(isTimer, nameSuffix);
    StepSentIffAccepted(f, prefix, name, metric, SnapshotPlan(isTimer, nameSuffix), i);
  }

  /** A counter sends name + "/count" exactly when the filter accepts its count. */
  lemma CounterSentIffAccepted(f: MetricAttributeFilter, prefix: string, name: string, metric: Metric)
    ensures FullName(prefix, name + "/count") in Emitted(f, prefix, name, metric, CounterPlan())
            <==> Record(f, name, CounterCount, metric)
  {
    StepSentIffAccepted(f, prefix, name, metric, CounterPlan(), 0);
  }
}
