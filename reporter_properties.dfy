/**
 * What a whole report promises, for both reporters: how many names it sends
 * at most, that the all-disabled filter silences it, that every name carries
 * the reporter's prefix, and how the original reporter's "/timer/" naming of
 * timer snapshots changes which table entries apply to them.
 */
module ReporterProperties {
  import opened Kinds
  import opened MetricsLibrary
  import opened Filters
  import opened Emission
  import opened EmissionProperties
  import opened Reporter
  import opened LegacyReporter

  /** At most one name per gauge. */
  lemma {:induction false} GaugesAtMostOne(f: MetricAttributeFilter, prefix: string, gauges: seq<(string, Gauge)>)
    ensures |GaugesEmitted(f, prefix, gauges)| <= |gauges|
    decreases |gauges|
  {
    if gauges != [] {
      GaugesAtMostOne(f, prefix, gauges[..|gauges| - 1]);
    }
  }

  /** At most one name per metric and step of the plan. */
  lemma {:induction false} SectionAtMostPlan(f: MetricAttributeFilter, prefix: string, entries: seq<(string, Metric)>, plan: Plan)
    ensures |SectionEmitted(f, prefix, entries, plan)| <= |entries| * |plan|
    decreases |entries|
  {
    if entries != [] {
      var last := entries[|entries| - 1];
      SectionAtMostPlan(f, prefix, entries[..|entries| - 1], plan);
      EmittedAtMostPlan(f, prefix, last.0, last.1, plan);
      assert (|entries| - 1) * |plan| + |plan| == |entries| * |plan|;
    }
  }

  /** At most fifteen names per timer. */
  lemma {:induction false} TimersAtMostFifteen(f: MetricAttributeFilter, prefix: string, rateUnit: string, durationUnit: string,
                                               timers: seq<(string, Metric)>)
    ensures |TimersEmitted(f, prefix, rateUnit, durationUnit, timers)| <= 15 * |timers|
    decreases |timers|
  {
    if timers != [] {
      var last := timers[|timers| - 1];
      TimersAtMostFifteen(f, prefix, rateUnit, durationUnit, timers[..|timers| - 1]);
      EmittedAtMostPlan(f, prefix, last.0, last.1, MeteredPlan(true, rateUnit));
      EmittedAtMostPlan(f, prefix, last.0, last.1, SnapshotPlan(true, "/" + durationUnit));
    }
  }

  /** A report sends at most 1, 1, 10, 5 and 15 names per gauge, counter, histogram, meter and timer. */
  lemma ReportAtMost(f: MetricAttributeFilter, prefix: string, rateUnit: string, durationUnit: string,
                     gauges: seq<(string, Gauge)>, counters: seq<(string, Metric)>,
                     histograms: seq<(string, Metric)>, meters: seq<(string, Metric)>, timers: seq<(string, Metric)>)
    ensures |ReportEmitted(f, prefix, rateUnit, durationUnit, gauges, counters, histograms, meters, timers)|
            <= |gauges| + |counters| + 10 * |histograms| + 5 * |meters| + 15 * |timers|
  {
    var g := GaugesEmitted(f, prefix, gauges);
    var c := SectionEmitted(f, prefix, counters, CounterPlan());
    var h := SectionEmitted(f, prefix, histograms, SnapshotPlan(false, ""));
    var m := SectionEmitted(f, prefix, meters, MeteredPlan(false, rateUnit));
    var t := TimersEmitted(f, prefix, rateUnit, durationUnit, timers);
    GaugesAtMostOne(f, prefix, gauges);
    SectionAtMostPlan(f, prefix, counters, CounterPlan());
    assert |c| <= |counters| by { assert |CounterPlan()| == 1; }
    SectionAtMostPlan(f, prefix, histograms, SnapshotPlan(false, ""));
    assert |h| <= 10 * |histograms| by { assert |SnapshotPlan(false, "")| == 10; }
    SectionAtMostPlan(f, prefix, meters, MeteredPlan(false, rateUnit));
    assert |m| <= 5 * |meters| by { assert |MeteredPlan(false, rateUnit)| == 5; }
    TimersAtMostFifteen(f, prefix, rateUnit, durationUnit, timers);
    assert ReportEmitted(f, prefix, rateUnit, durationUnit, gauges, counters, histograms, meters, timers) == g + c + h + m + t;
  }

  /** With every attribute enabled, each timer sends all fifteen of its statistics. */
  lemma {:induction false} AllEnabledTimersSendFifteen(prefix: string, rateUnit: string, durationUnit: string,
                                                       timers: seq<(string, Metric)>)
    ensures |TimersEmitted(AllEnabled, prefix, rateUnit, durationUnit, timers)| == 15 * |timers|
    decreases |timers|
  {
    if timers != [] {
      var last := timers[|timers| - 1];
      AllEnabledTimersSendFifteen(prefix, rateUnit, durationUnit, timers[..|timers| - 1]);
      AllEnabledSendsWholePlan(prefix, last.0, last.1, MeteredPlan(true, rateUnit));
      AllEnabledSendsWholePlan(prefix, last.0, last.1, SnapshotPlan(true, "/" + durationUnit));
    }
  }

  /** The all-disabled filter silences every gauge. */
  lemma {:induction false} AllDisabledGaugesSilent(prefix: string, gauges: seq<(string, Gauge)>)
    ensures GaugesEmitted(AllDisabled, prefix, gauges) == []
    decreases |gauges|
  {
    if gauges != [] {
      AllDisabledGaugesSilent(prefix, gauges[..|gauges| - 1]);
    }
  }

  /** The all-disabled filter silences every section. */
  lemma {:induction false} AllDisabledSectionSilent(prefix: string, entries: seq<(string, Metric)>, plan: Plan)
    ensures SectionEmitted(AllDisabled, prefix, entries, plan) == []
    decreases |entries|
  {
    if entries != [] {
      var last := entries[|entries| - 1];
      AllDisabledSectionSilent(prefix, entries[..|entries| - 1], plan);
      AllDisabledSendsNothing(prefix, last.0, last.1, plan);
    }
  }

  /** The all-disabled filter silences every timer. */
  lemma {:induction false} AllDisabledTimersSilent(prefix: string, rateUnit: string, durationUnit: string, timers: seq<(string, Metric)>)
    ensures TimersEmitted(AllDisabled, prefix, rateUnit, durationUnit, timers) == []
    decreases |timers|
  {
    if timers != [] {
      var last := timers[|timers| - 1];
      AllDisabledTimersSilent(prefix, rateUnit, durationUnit, timers[..|timers| - 1]);
      AllDisabledSendsNothing(prefix, last.0, last.1, MeteredPlan(true, rateUnit));
      AllDisabledSendsNothing(prefix, last.0, last.1, SnapshotPlan(true, "/" + durationUnit));
    }
  }

  /** Used alone, the all-disabled filter makes a report send nothing. */
  lemma AllDisabledReportSilent(prefix: string, rateUnit: string, durationUnit: string,
                                gauges: seq<(string, Gauge)>, counters: seq<(string, Metric)>,
                                histograms: seq<(string, Metric)>, meters: seq<(string, Metric)>, timers: seq<(string, Metric)>)
    ensures ReportEmitted(AllDisabled, prefix, rateUnit, durationUnit, gauges, counters, histograms, meters, timers) == []
  {
    AllDisabledGaugesSilent(prefix, gauges);
    AllDisabledSectionSilent(prefix, counters, CounterPlan());
    AllDisabledSectionSilent(prefix, histograms, SnapshotPlan(false, ""));
    AllDisabledSectionSilent(prefix, meters, MeteredPlan(false, rateUnit));
    AllDisabledTimersSilent(prefix, rateUnit, durationUnit, timers);
  }

  /** Used alone, the all-disabled filter makes the original reporter send nothing either. */
  lemma {:induction false} LegacyAllDisabledReportSilent(rateUnit: string, durationUnit: string,
                                                         gauges: seq<(string, Gauge)>, counters: seq<(string, Metric)>,
                                                         histograms: seq<(string, Metric)>, meters: seq<(string, Metric)>,
                                                         timers: seq<(string, Metric)>)
    ensures LegacyReportEmitted(AllDisabled, rateUnit, durationUnit, gauges, counters, histograms, meters, timers) == []
    decreases |timers|
  {
    AllDisabledGaugesSilent("", gauges);
    AllDisabledSectionSilent("", counters, CounterPlan());
    AllDisabledSectionSilent("", histograms, SnapshotPlan(false, ""));
    AllDisabledSectionSilent("", meters, MeteredPlan(false, rateUnit));
    if timers != [] {
      var last := timers[|timers| - 1];
      LegacyAllDisabledReportSilent(rateUnit, durationUnit, [], [], [], [], timers[..|timers| - 1]);
      AllDisabledSendsNothing("", last.0, last.1, MeteredPlan(true, rateUnit));
      AllDisabledSendsNothing("", TimerSnapshotName(last.0), last.1, SnapshotPlan(true, "/" + durationUnit));
    }
  }

  /** Every name a metric sends starts with "Custom/" + prefix. */
  lemma EmittedUnderCustom(f: MetricAttributeFilter, prefix: string, name: string, metric: Metric, plan: Plan)
    ensures forall x :: x in Emitted(f, prefix, name, metric, plan) ==> "Custom/" + prefix <= x
  {
    EmittedNamesArePrefixed(f, prefix, name, metric, plan);
    assert FullName(prefix, name) == ("Custom/" + prefix) + name;
  }

  /** Every name a section sends starts with "Custom/" + prefix. */
  lemma {:induction false} SectionUnderCustom(f: MetricAttributeFilter, prefix: string, entries: seq<(string, Metric)>, plan: Plan)
    ensures forall x :: x in SectionEmitted(f, prefix, entries, plan) ==> "Custom/" + prefix <= x
    decreases |entries|
  {
    if entries != [] {
      var last := entries[|entries| - 1];
      SectionUnderCustom(f, prefix, entries[..|entries| - 1], plan);
      EmittedUnderCustom(f, prefix, last.0, last.1, plan);
    }
  }

  /** Every name the gauges send starts with "Custom/" + prefix. */
  lemma {:induction false} GaugesUnderCustom(f: MetricAttributeFilter, prefix: string, gauges: seq<(string, Gauge)>)
    ensures forall x :: x in GaugesEmitted(f, prefix, gauges) ==> "Custom/" + prefix <= x
    decreases |gauges|
  {
    if gauges != [] {
      var last := gauges[|gauges| - 1];
      GaugesUnderCustom(f, prefix, gauges[..|gauges| - 1]);
      assert FullName(prefix, last.0) == ("Custom/" + prefix) + last.0;
    }
  }

  /** Every name the timers send starts with "Custom/" + prefix. */
  lemma {:induction false} TimersUnderCustom(f: MetricAttributeFilter, prefix: string, rateUnit: string, durationUnit: string,
                                             timers: seq<(string, Metric)>)
    ensures forall x :: x in TimersEmitted(f, prefix, rateUnit, durationUnit, timers) ==> "Custom/" + prefix <= x
    decreases |timers|
  {
    if timers != [] {
      var last := timers[|timers| - 1];
      TimersUnderCustom(f, prefix, rateUnit, durationUnit, timers[..|timers| - 1]);
      EmittedUnderCustom(f, prefix, last.0, last.1, MeteredPlan(true, rateUnit));
      EmittedUnderCustom(f, prefix, last.0, last.1, SnapshotPlan(true, "/" + durationUnit));
    }
  }

  /** Every name a report sends is "Custom/" + the reporter's prefix + something. */
  lemma ReportUnderCustom(f: MetricAttributeFilter, prefix: string, rateUnit: string, durationUnit: string,
                          gauges: seq<(string, Gauge)>, counters: seq<(string, Metric)>,
                          histograms: seq<(string, Metric)>, meters: seq<(string, Metric)>, timers: seq<(string, Metric)>)
    ensures forall x :: x in ReportEmitted(f, prefix, rateUnit, durationUnit, gauges, counters, histograms, meters, timers)
                        ==> "Custom/" + prefix <= x
  {
    GaugesUnderCustom(f, prefix, gauges);
    SectionUnderCustom(f, prefix, counters, CounterPlan());
    SectionUnderCustom(f, prefix, histograms, SnapshotPlan(false, ""));
    SectionUnderCustom(f, prefix, meters, MeteredPlan(false, rateUnit));
    TimersUnderCustom(f, prefix, rateUnit, durationUnit, timers);
  }

  /** Apart from timers, the original reporter sends what the new one sends with an empty prefix. */
  lemma LegacyMatchesUnprefixedExceptTimers(f: MetricAttributeFilter, rateUnit: string, durationUnit: string,
                                            gauges: seq<(string, Gauge)>, counters: seq<(string, Metric)>,
                                            histograms: seq<(string, Metric)>, meters: seq<(string, Metric)>,
                                            timers: seq<(string, Metric)>)
    ensures LegacyReportEmitted(f, rateUnit, durationUnit, gauges, counters, histograms, meters, timers)
            == ReportEmitted(f, "", rateUnit, durationUnit, gauges, counters, histograms, meters, [])
               + LegacyTimersEmitted(f, rateUnit, durationUnit, timers)
  {
    assert TimersEmitted(f, "", rateUnit, durationUnit, []) == [];
  }

  /** If the filter rejects every step of a plan, the metric sends nothing. */
  lemma NothingAcceptedNothingSent(f: MetricAttributeFilter, prefix: string, name: string, metric: Metric, plan: Plan)
    requires forall i :: 0 <= i < |plan| ==> !Record(f, name, plan[i].0, metric)
    ensures Emitted(f, prefix, name, metric, plan) == []
  {
    var e := Emitted(f, prefix, name, metric, plan);
    if e != [] {
      EmittedMembership(f, prefix, name, metric, plan, e[0]);
    }
  }

  /**
   * The "/timer/" naming of the original reporter: a table that enables the
   * timer-min statistic for timer `key` (and nothing else) makes the new
   * reporter send that statistic, while the original reporter asks about
   * "/timer/" + key, misses the table and sends nothing for the timer.
   */
  lemma LegacyTimerSnapshotMissesTable(key: string, metric: Metric, rateUnit: string, durationUnit: string)
    ensures var f := TableFilter(map[(key, TimerMin) := true], AllDisabled);
            && "Custom/" + key + "/min/" + durationUnit in TimersEmitted(f, "", rateUnit, durationUnit, [(key, metric)])
            && LegacyTimersEmitted(f, rateUnit, durationUnit, [(key, metric)]) == []
  {
    var f := TableFilter(map[(key, TimerMin) := true], AllDisabled);
    var metered := MeteredPlan(true, rateUnit);
    var snapshot := SnapshotPlan(true, "/" + durationUnit);
    SnapshotSuffixesDistinct(true, "/" + durationUnit);
    StepSentIffAccepted(f, "", key, metric, snapshot, 0);
    assert FullName("", key + snapshot[0].1) == "Custom/" + key + "/min/" + durationUnit;
    assert [(key, metric)][..0] == [];
    assert forall i :: 0 <= i < |metered| ==> metered[i].0 != TimerMin;
    NothingAcceptedNothingSent(f, "", key, metric, metered);
    assert |TimerSnapshotName(key)| != |key|;
    NothingAcceptedNothingSent(f, "", TimerSnapshotName(key), metric, snapshot);
  }
}
