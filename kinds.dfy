/**
 * The closed set of statistic kinds a metric attribute filter decides about:
 * one kind per decision of the filter capability, named after the enum
 * constants of TableMetricAttributeFilter.NewRelicMetric (TIMER_MIN is
 * `TimerMin`, ...). The meter's mean-rate decision is the constant METER_RATE,
 * hence `MeterRate` and not "MeterMeanRate".
 */
module Kinds {

  /** The five kinds of metric the reporters walk. */
  datatype MetricType = TimerMetric | HistogramMetric | MeterMetric | CounterMetric | GaugeMetric

  /** The 32 statistic kinds, in the enum's declaration order. */
  datatype Kind =
    | TimerMin | TimerMax | TimerMean | TimerStdDev | TimerMedian
    | Timer75thPercentile | Timer95thPercentile | Timer98thPercentile
    | Timer99thPercentile | Timer999thPercentile
    | TimerCount | TimerMeanRate | Timer1MinuteRate | Timer5MinuteRate | Timer15MinuteRate
    | HistogramMin | HistogramMax | HistogramMean | HistogramStdDev | HistogramMedian
    | Histogram75thPercentile | Histogram95thPercentile | Histogram98thPercentile
    | Histogram99thPercentile | Histogram999thPercentile
    | MeterCount | MeterRate | Meter1MinuteRate | Meter5MinuteRate | Meter15MinuteRate
    | CounterCount
    | GaugeValue

  /** The metric type whose attribute a kind names. */
  function TypeOf(k: Kind): MetricType
  {
    match k
    case TimerMin | TimerMax | TimerMean | TimerStdDev | TimerMedian
       | Timer75thPercentile | Timer95thPercentile | Timer98thPercentile
       | Timer99thPercentile | Timer999thPercentile
       | TimerCount | TimerMeanRate | Timer1MinuteRate | Timer5MinuteRate | Timer15MinuteRate
      => TimerMetric
    case HistogramMin | HistogramMax | HistogramMean | HistogramStdDev | HistogramMedian
       | Histogram75thPercentile | Histogram95thPercentile | Histogram98thPercentile
       | Histogram99thPercentile | Histogram999thPercentile
      => HistogramMetric
    case MeterCount | MeterRate | Meter1MinuteRate | Meter5MinuteRate | Meter15MinuteRate
      => MeterMetric
    case CounterCount => CounterMetric
    case GaugeValue => GaugeMetric
  }

  /** The kinds of one metric type, in declaration order. */
  function KindsOf(t: MetricType): seq<Kind>
  {
    match t
    case TimerMetric =>
      [TimerMin, TimerMax, TimerMean, TimerStdDev, TimerMedian,
       Timer75thPercentile, Timer95thPercentile, Timer98thPercentile,
       Timer99thPercentile, Timer999thPercentile,
       TimerCount, TimerMeanRate, Timer1MinuteRate, Timer5MinuteRate, Timer15MinuteRate]
    case HistogramMetric =>
      [HistogramMin, HistogramMax, HistogramMean, HistogramStdDev, HistogramMedian,
       Histogram75thPercentile, Histogram95thPercentile, Histogram98thPercentile,
       Histogram99thPercentile, Histogram999thPercentile]
    case MeterMetric => [MeterCount, MeterRate, Meter1MinuteRate, Meter5MinuteRate, Meter15MinuteRate]
    case CounterMetric => [CounterCount]
    case GaugeMetric => [GaugeValue]
  }

  /** Every kind, in declaration order. */
  function AllKinds(): seq<Kind>
  {
    KindsOf(TimerMetric) + KindsOf(HistogramMetric) + KindsOf(MeterMetric)
      + KindsOf(CounterMetric) + KindsOf(GaugeMetric)
  }

  /** No kind occurs twice in `ks`. */
  predicate NoRepeats(ks: seq<Kind>)
  {
    forall i, j :: 0 <= i < j < |ks| ==> ks[i] != ks[j]
  }

  /**
   * The capability is exactly 32 decisions: 15 timer, 10 histogram, 5 meter,
   * 1 counter and 1 gauge, no kind listed twice.
   */
  lemma KindCounts()
    ensures |KindsOf(TimerMetric)| == 15 && |KindsOf(HistogramMetric)| == 10
    ensures |KindsOf(MeterMetric)| == 5 && |KindsOf(CounterMetric)| == 1 && |KindsOf(GaugeMetric)| == 1
    ensures |AllKinds()| == 32
    ensures NoRepeats(KindsOf(TimerMetric)) && NoRepeats(KindsOf(HistogramMetric)) && NoRepeats(KindsOf(MeterMetric))
    ensures NoRepeats(AllKinds())
  {
    var ts, hs, ms := KindsOf(TimerMetric), KindsOf(HistogramMetric), KindsOf(MeterMetric);
    var cs, gs := KindsOf(CounterMetric), KindsOf(GaugeMetric);
    KindsOfHaveTheirType(TimerMetric);
    KindsOfHaveTheirType(HistogramMetric);
    KindsOfHaveTheirType(MeterMetric);
    KindsOfHaveTheirType(CounterMetric);
    KindsOfHaveTheirType(GaugeMetric);
    NoRepeatsJoin(ts, hs);
    NoRepeatsJoin(ts + hs, ms);
    NoRepeatsJoin(ts + hs + ms, cs);
    NoRepeatsJoin(ts + hs + ms + cs, gs);
  }

  /** Two repeat-free lists with no kind in common join into a repeat-free list. */
  lemma NoRepeatsJoin(a: seq<Kind>, b: seq<Kind>)
    requires NoRepeats(a) && NoRepeats(b)
    requires forall k :: k in a ==> k !in b
    ensures NoRepeats(a + b)
  {
    var ab := a + b;
    forall i, j | 0 <= i < j < |ab|
      ensures ab[i] != ab[j]
    {
      if i < |a| && |a| <= j {
        assert ab[i] in a && ab[j] == b[j - |a|];
      } else if |a| <= i {
        assert ab[i] == b[i - |a|] && ab[j] == b[j - |a|];
      }
    }
  }

  /** Every kind listed in a metric type's group is of that type. */
  lemma KindsOfHaveTheirType(t: MetricType)
    ensures forall k :: k in KindsOf(t) ==> TypeOf(k) == t
  {
  }

  /** The set is closed: every kind occurs in its own type's group, hence in the full list. */
  lemma AllKindsClosed(k: Kind)
    ensures k in KindsOf(TypeOf(k))
    ensures k in AllKinds()
  {
  }
}
