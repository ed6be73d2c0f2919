/**
 * TableMetricAttributeFilter: an immutable configuration table consulted
 * first, and a fallback filter consulted for every (name, kind) the table does
 * not mention. Its decision is the `TableFilter` case of `Filters.Record`; this
 * module holds its construction and what it guarantees.
 */
module TableFilter {
  import opened Wrappers
  import opened Kinds
  import opened MetricsLibrary
  import opened Filters

  /** The fallback actually used: a null fallback becomes the all-disabled filter. */
  function FallbackOrDefault(fallback: Option<MetricAttributeFilter>): (r: MetricAttributeFilter)
    ensures fallback.Some? ==> r == fallback.value
    ensures fallback.None? ==> r == AllDisabled
  {
    if fallback.None? then AllDisabled else fallback.value
  }

  /**
   * The constructor: a null table is rejected with an IllegalArgumentException,
   * a null fallback is replaced by the all-disabled filter, and nothing else is
   * checked or changed.
   */
  function NewTableFilter(table: Option<Table>, fallback: Option<MetricAttributeFilter>): (r: Result<MetricAttributeFilter>)
    ensures r.Failure? <==> table.None?
    ensures r.Failure? ==> r.error == IllegalArgumentException("table cannot be null", None)
    ensures r.Success? ==> r.value.TableFilter? && r.value.table == table.value
    ensures r.Success? && fallback.Some? ==> r.value.fallback == fallback.value
    ensures r.Success? && fallback.None? ==> r.value.fallback == AllDisabled
  {
    if table.None? then Failure(IllegalArgumentException("table cannot be null", None))
    else Success(TableFilter(table.value, FallbackOrDefault(fallback)))
  }

  /** A missing table fails construction whatever the fallback, absent included. */
  lemma NullTableRejected(fallback: Option<MetricAttributeFilter>)
    ensures NewTableFilter(None, fallback) == Failure(IllegalArgumentException("table cannot be null", None))
  {
  }

  /** Override: a table entry is the answer, whatever the fallback would say. */
  lemma TableHitOverridesFallback(table: Table, fallback: MetricAttributeFilter, name: string, kind: Kind, metric: Metric)
    requires (name, kind) in table
    ensures Record(TableFilter(table, fallback), name, kind, metric) == table[(name, kind)]
  {
  }

  /**
   * On a table hit the fallback plays no part: two table filters over the same
   * table answer alike whatever their fallbacks.
   */
  lemma TableHitIgnoresFallback(table: Table, fb1: MetricAttributeFilter, fb2: MetricAttributeFilter,
                                name: string, kind: Kind, metric: Metric)
    requires (name, kind) in table
    ensures Record(TableFilter(table, fb1), name, kind, metric) == Record(TableFilter(table, fb2), name, kind, metric)
  {
  }

  /**
   * Delegation: on a miss the answer is the fallback's decision for the same
   * kind, name and metric; for a user-supplied fallback this is its own
   * function applied to those three arguments.
   */
  lemma TableMissDelegates(table: Table, fallback: MetricAttributeFilter, name: string, kind: Kind, metric: Metric)
    requires (name, kind) !in table
    ensures Record(TableFilter(table, fallback), name, kind, metric) == Record(fallback, name, kind, metric)
    ensures fallback.Custom? ==> Record(TableFilter(table, fallback), name, kind, metric) == fallback.decide(name, kind, metric)
  {
  }

  /**
   * Default substitution: a filter built with a null fallback answers every
   * query as one built with an explicit all-disabled fallback, so every pair
   * the table does not mention is answered false.
   */
  lemma NullFallbackIsAllDisabled(table: Table, name: string, kind: Kind, metric: Metric)
    ensures NewTableFilter(Some(table), None).Success?
    ensures Record(NewTableFilter(Some(table), None).value, name, kind, metric)
            == Record(NewTableFilter(Some(table), Some(AllDisabled)).value, name, kind, metric)
    ensures (name, kind) !in table ==> !Record(NewTableFilter(Some(table), None).value, name, kind, metric)
  {
  }

  /**
   * The configuration of the null-fallback test: TIMER_MAX of metricName1 is
   * recorded, TIMER_15_MINUTE_RATE of metricName1 is not, and nothing of the
   * unconfigured metricName3 is.
   */
  lemma NullFallbackScenario(timer: Metric, kind: Kind)
    ensures var table := map[("metricName1", TimerMax) := true, ("metricName1", TimerMin) := false,
                             ("metricName2", CounterCount) := true];
            var r := NewTableFilter(Some(table), None);
            && r.Success?
            && !Record(r.value, "metricName1", Timer15MinuteRate, timer)
            && Record(r.value, "metricName1", TimerMax, timer)
            && !Record(r.value, "metricName3", kind, timer)
  {
  }

  /**
   * The tables of a chain of table filters, each the fallback of the one
   * before it, merged so that an outer table's entries win; paired with the
   * first fallback in the chain that is not a table filter.
   */
  function Merged(f: MetricAttributeFilter): (Table, MetricAttributeFilter)
  {
    match f
    case TableFilter(table, fallback) =>
      var (inner, base) := Merged(fallback);
      (inner + table, base)
    case _ => (map[], f)
  }

  /**
   * Chained table filters behave as one table filter over the merged table:
   * the outermost table mentioning a pair decides it, and a pair no table
   * mentions goes to the final fallback.
   */
  lemma {:induction false} ChainedTablesMerge(f: MetricAttributeFilter, name: string, kind: Kind, metric: Metric)
    ensures !Merged(f).1.TableFilter?
    ensures Record(f, name, kind, metric) == Record(TableFilter(Merged(f).0, Merged(f).1), name, kind, metric)
  {
    match f
    case TableFilter(table, fallback) =>
      ChainedTablesMerge(fallback, name, kind, metric);
    case _ =>
  }

  /** True when no filter in the chain is a user-supplied one. */
  predicate BuiltIn(f: MetricAttributeFilter)
  {
    match f
    case Custom(_) => false
    case TableFilter(_, fallback) => BuiltIn(fallback)
    case _ => true
  }

  /**
   * The metric instance is only passed through: a chain of built-in filters
   * answers the same for every instance.
   */
  lemma {:induction false} BuiltInIgnoresMetric(f: MetricAttributeFilter, name: string, kind: Kind, m1: Metric, m2: Metric)
    requires BuiltIn(f)
    ensures Record(f, name, kind, m1) == Record(f, name, kind, m2)
  {
    match f
    case TableFilter(table, fallback) =>
      if (name, kind) !in table {
        BuiltInIgnoresMetric(fallback, name, kind, m1, m2);
      }
    case _ =>
  }
}
