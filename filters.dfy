/**
 * The attribute filter capability: one yes/no decision per (metric name,
 * statistic kind), given the metric instance, saying whether that attribute is
 * sent to New Relic. The Java interface has one method per kind; here the kind
 * is an argument and the implementations are the cases of a datatype.
 */
module Filters {
  import opened Kinds
  import opened MetricsLibrary

  /** An explicit configuration: (metric name, kind) to enabled/disabled. */
  type Table = map<(string, Kind), bool>

  /**
   * The implementations of the capability:
   * - `AllEnabled`, `AllDisabled`: the constant filters;
   * - `TableFilter(table, fallback)`: TableMetricAttributeFilter, whose two
   *   final fields are the configuration table and the fallback filter;
   * - `Custom(decide)`: any other implementation a user supplies.
   */
  datatype MetricAttributeFilter =
    | AllEnabled
    | AllDisabled
    | TableFilter(table: Table, fallback: MetricAttributeFilter)
    | Custom(decide: (string, Kind, Metric) -> bool)

  /**
   * The decision for attribute `kind` of the metric `metric` named `name`;
   * true means the attribute is recorded. A table filter answers a table hit
   * with the stored value and delegates a miss to its fallback with the same
   * kind, name and metric (TableFilter.TableHitOverridesFallback and
   * TableFilter.TableMissDelegates state those two cases).
   */
  function Record(f: MetricAttributeFilter, name: string, kind: Kind, metric: Metric): (r: bool)
    ensures f.AllEnabled? ==> r
    ensures f.AllDisabled? ==> !r
    ensures f.Custom? ==> r == f.decide(name, kind, metric)
  {
    match f
    case AllEnabled => true
    case AllDisabled => false
    case TableFilter(table, fallback) =>
      if (name, kind) in table then table[(name, kind)] else Record(fallback, name, kind, metric)
    case Custom(decide) => decide(name, kind, metric)
  }

  /** The all-enabled filter records every attribute of every metric. */
  lemma AllEnabledAnswersTrue(name: string, kind: Kind, metric: Metric)
    ensures Record(AllEnabled, name, kind, metric)
  {
  }

  /** The all-disabled filter records nothing. */
  lemma AllDisabledAnswersFalse(name: string, kind: Kind, metric: Metric)
    ensures !Record(AllDisabled, name, kind, metric)
  {
  }

  /** Neither constant filter's answer depends on the kind, the name or the metric. */
  lemma ConstantFiltersIgnoreArguments(n1: string, k1: Kind, m1: Metric, n2: string, k2: Kind, m2: Metric)
    ensures Record(AllEnabled, n1, k1, m1) == Record(AllEnabled, n2, k2, m2)
    ensures Record(AllDisabled, n1, k1, m1) == Record(AllDisabled, n2, k2, m2)
  {
  }

  /**
   * Decisions for distinct kinds are independent: for any two kinds (a timer
   * statistic and the histogram statistic of the same name, say) and any two
   * answers, some filter gives exactly those answers.
   */
  lemma KindsDecidedIndependently(name: string, k1: Kind, k2: Kind, b1: bool, b2: bool, metric: Metric)
    requires k1 != k2
    ensures var f := TableFilter(map[(name, k1) := b1, (name, k2) := b2], AllDisabled);
            Record(f, name, k1, metric) == b1 && Record(f, name, k2, metric) == b2
  {
  }

  /** Starting points: all-disabled for a whitelist, all-enabled for a blacklist. */
  lemma WhitelistAndBlacklist(table: Table, name: string, kind: Kind, metric: Metric)
    ensures Record(TableFilter(table, AllDisabled), name, kind, metric)
            <==> (name, kind) in table && table[(name, kind)]
    ensures !Record(TableFilter(table, AllEnabled), name, kind, metric)
            <==> (name, kind) in table && !table[(name, kind)]
  {
  }
}
