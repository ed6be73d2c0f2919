# metrics-new-relic: attribute filtering and filter-gated reporting

This project models the part of metrics-new-relic that decides which
statistics of a Dropwizard (codahale) metric are sent to New Relic as custom
metrics, and proves what that decision logic promises.

- **Statistic kinds.** The 32 attributes a filter can be asked about (15 timer,
  10 histogram, 5 meter, 1 counter, 1 gauge) are the datatype `Kinds.Kind`,
  one constructor per `NewRelicMetric` constant. The meter mean-rate decision is
  the kind `MeterRate` (the enum's `METER_RATE`), as the table filter looks it up.
- **The filter capability.** The Java interface `MetricAttributeFilter`, with one
  method per kind, becomes one decision function `Filters.Record(filter, name,
  kind, metric)` over the datatype `Filters.MetricAttributeFilter`, whose cases
  are the all-enabled filter, the all-disabled filter, the table filter (an
  immutable (name, kind) → enabled table and a fallback filter) and `Custom`,
  any user implementation. The old and new interface versions, and the old and
  new constant filters, ask the same 32 questions and collapse into these cases.
- **Table filter construction.** A missing (null) table is rejected with an
  `IllegalArgumentException`, a missing fallback becomes the all-disabled filter.
  Nulls are `Option`, thrown exceptions are the `Failure` case of `Result`.
- **Tables from YAML.** The loader's and the YAML supplier's `table(...)` helper
  flattens a nested map name → (kind → enabled) with two nested loops; it is the
  method `TableLoading.Flatten`, proved to produce exactly the input's cells.
  Parsing is a parameter (a `ParseOutcome`), and its failure is mapped as each
  caller maps it: an `IOException` from the loader, an
  `IllegalArgumentException("NewRelic metrics config file has wrong format")`
  from the supplier, carrying the `IOException` as its cause. The supplier's
  URI-to-URL conversion fails first, uncaught, for a URI that is not absolute.
- **Reporters.** Both reporters (the newer one in `metrics-new-relic`, with a
  name prefix and a `Builder`; the original in the top-level `src`) are classes
  whose methods append the full name of every statistic they send to the
  agent's `recorded` sequence (`NewRelicAgent.Agent`). Each method is proved
  against a specification function (`Emission.Emitted` over a plan of
  (kind, suffix) steps, `Reporter.ReportEmitted`,
  `LegacyReporter.LegacyReportEmitted`), and the lemmas in
  `EmissionProperties` and `ReporterProperties` say what those functions
  promise: which names are sent and exactly when, how many at most, under
  which prefix, and that each statistic asks about its own kind. The original
  reporter asks about, and sends, a timer's snapshot statistics under
  `"/timer/" + name` while its metered statistics use the plain name; the model
  keeps this, and `ReporterProperties.LegacyTimerSnapshotMissesTable` shows its
  effect on a table filter.

Where the documentation of the table filter and its tests disagree with its
code (the tests build it from a table supplier and expect the message
"tableSupplier cannot be null"), the model follows the code: the constructor
takes the table itself and its message is "table cannot be null".

## Model

| member | source | states |
|---|---|---|
| Kinds.KindCounts | metrics-new-relic-extras/src/main/java/com/palominolabs/metrics/newrelic/table/TableMetricAttributeFilter.java:393-428 | the capability is exactly 32 decisions: 15 timer, 10 histogram, 5 meter, 1 counter, 1 gauge, with no kind listed twice in any type's list or in the full enumeration |
| Kinds.KindsOfHaveTheirType | metrics-new-relic/src/main/java/com/palominolabs/metrics/newrelic/MetricAttributeFilter.java:25-87 | every kind listed for a metric type belongs to that type |
| Kinds.AllKindsClosed | metrics-new-relic-extras/src/main/java/com/palominolabs/metrics/newrelic/table/TableMetricAttributeFilter.java:393-428 | every kind is listed under its own type and in the full enumeration |
| Filters.Record | metrics-new-relic/src/main/java/com/palominolabs/metrics/newrelic/MetricAttributeFilter.java:25-87 | one decision per metric name, kind and metric: the all-enabled filter answers true, the all-disabled filter false, a user-supplied filter its own answer (the table filter's hit and miss cases are the rows for TableFilter.TableHitOverridesFallback and TableFilter.TableMissDelegates) |
| Filters.AllEnabledAnswersTrue | src/main/java/com/palominolabs/metrics/newrelic/AllEnabledMetricAttributeFilter.java:16-174 | the all-enabled filter answers true for every kind, name and metric |
| Filters.AllDisabledAnswersFalse | metrics-new-relic/src/main/java/com/palominolabs/metrics/newrelic/AllDisabledMetricAttributeFilter.java:17-175 | the all-disabled filter answers false for every kind, name and metric |
| Filters.ConstantFiltersIgnoreArguments | src/main/java/com/palominolabs/metrics/newrelic/AllDisabledMetricAttributeFilter.java:12-170 | neither constant filter's answer depends on kind, name or metric |
| Filters.KindsDecidedIndependently | metrics-new-relic/src/main/java/com/palominolabs/metrics/newrelic/MetricAttributeFilter.java:14-18 | for two distinct kinds (the timer and histogram 98th percentile, say) any pair of answers is realised by some filter |
| Filters.WhitelistAndBlacklist | metrics-new-relic/src/main/java/com/palominolabs/metrics/newrelic/MetricAttributeFilter.java:20-21 | over an all-disabled base a table records exactly its true entries; over an all-enabled base it suppresses exactly its false entries |
| TableFilter.FallbackOrDefault | metrics-new-relic-extras/src/main/java/com/palominolabs/metrics/newrelic/table/TableMetricAttributeFilter.java:382-386 | a given fallback is kept, a missing one becomes the all-disabled filter |
| TableFilter.NewTableFilter | metrics-new-relic-extras/src/main/java/com/palominolabs/metrics/newrelic/table/TableMetricAttributeFilter.java:48-53 | construction fails, with IllegalArgumentException "table cannot be null", exactly when the table is missing; otherwise the filter holds the table unchanged and the fallback or all-disabled |
| TableFilter.NullTableRejected | metrics-new-relic-extras/src/main/java/com/palominolabs/metrics/newrelic/table/TableMetricAttributeFilter.java:50 | a missing table is rejected whatever the fallback |
| TableFilter.TableHitOverridesFallback | metrics-new-relic-extras/src/main/java/com/palominolabs/metrics/newrelic/table/TableMetricAttributeFilter.java:388-391 | a table entry for (name, kind) is the answer |
| TableFilter.TableHitIgnoresFallback | metrics-new-relic-extras/src/main/java/com/palominolabs/metrics/newrelic/table/TableMetricAttributeFilter.java:390 | on a hit the fallback is not consulted: any two fallbacks give the same answer |
| TableFilter.TableMissDelegates | metrics-new-relic-extras/src/main/java/com/palominolabs/metrics/newrelic/table/TableMetricAttributeFilter.java:62-70 | on a miss the answer is the fallback's decision for the same kind, name and metric |
| TableFilter.NullFallbackIsAllDisabled | metrics-new-relic-extras/src/main/java/com/palominolabs/metrics/newrelic/table/TableMetricAttributeFilter.java:52 | a filter built without fallback answers as one built with the all-disabled fallback, so every unmentioned pair is false |
| TableFilter.NullFallbackScenario | metrics-new-relic-extras/src/test/java/com/palominolabs/metrics/newrelic/table/TableMetricAttributeFilterTest.java:53-72 | with the test table and no fallback: TIMER_15_MINUTE_RATE of metricName1 false, TIMER_MAX of metricName1 true, every kind of metricName3 false |
| TableFilter.ChainedTablesMerge | metrics-new-relic-extras/src/main/java/com/palominolabs/metrics/newrelic/table/TableMetricAttributeFilter.java:388-391 | a chain of table filters answers as one table filter over the merged tables, the outer table winning, with the first non-table fallback |
| TableFilter.BuiltInIgnoresMetric | metrics-new-relic-extras/src/main/java/com/palominolabs/metrics/newrelic/table/TableMetricAttributeFilter.java:62-380 | the metric instance is only passed through: built-in filters answer alike for every instance |
| TableLoading.Flatten | metrics-new-relic-extras/src/main/java/com/palominolabs/metrics/newrelic/table/YamlMetricsAttributeTableLoader.java:61-71 | the nested loops produce a table holding (row, column) exactly when the input row maps that column, with the input's value |
| TableLoading.FlattenedCells | metrics-new-relic-extras/src/main/java/com/palominolabs/metrics/newrelic/table/YamlMetricsAttributeTableLoader.java:63-67 | each cell holds the row map's value verbatim, and only input cells are present |
| TableLoading.FlattenedAddsNothing | metrics-new-relic-extras/src/main/java/com/palominolabs/metrics/newrelic/table/YamlMetricsAttributeTableLoader.java:61-71 | no defaulting: an empty input gives an empty table, an empty row contributes nothing |
| TableLoading.LoadTable | metrics-new-relic-extras/src/main/java/com/palominolabs/metrics/newrelic/table/YamlMetricsAttributeTableLoader.java:54-59 | loading fails with IOException exactly when parsing fails and then returns no table; otherwise it returns the flattened document |
| TableLoading.LoadedTestConfig | metrics-new-relic-extras/src/test/java/com/palominolabs/metrics/newrelic/table/YamlMetricsAttributeTableLoaderTest.java:12-20 | a document enabling TIMER_MAX for name2 and COUNTER_COUNT for name1 loads into a table answering true for both |
| TableSuppliers.NewMetricsAttributeTableSupplier | metrics-new-relic/src/main/java/com/palominolabs/metrics/newrelic/MetricsAttributeTableSupplier.java:22-26 | construction fails with IllegalArgumentException "table cannot be null" exactly when the table is missing |
| TableSuppliers.SupplierGet | metrics-new-relic/src/main/java/com/palominolabs/metrics/newrelic/MetricsAttributeTableSupplier.java:28-31 | get returns the stored table: constructing a supplier from the returned table succeeds and gives back the same supplier |
| TableSuppliers.SupplierGetReturnsGivenTable | metrics-new-relic/src/main/java/com/palominolabs/metrics/newrelic/MetricsAttributeTableSupplier.java:28-31 | get returns the very table given to the constructor |
| TableSuppliers.NewYamlSupplier | src/main/java/com/palominolabs/metrics/newrelic/YamlMetricsAttributeTableSupplier.java:35-38 | construction fails with IllegalArgumentException "yamlSource cannot be null" exactly when the URI is missing; otherwise the URI is stored |
| TableSuppliers.YamlSupplierGet | src/main/java/com/palominolabs/metrics/newrelic/YamlMetricsAttributeTableSupplier.java:41-54 | for a URI that is not absolute, get fails with the uncaught IllegalArgumentException "URI is not absolute" from `toURL()`; otherwise it fails exactly when reading or parsing fails, with IllegalArgumentException "NewRelic metrics config file has wrong format" whose cause is that IOException and its message, and on success returns the flattened document read on this call |
| Emission.FullName | metrics-new-relic/src/main/java/com/palominolabs/metrics/newrelic/NewRelicReporter.java:229 | the name New Relic receives is "Custom/" + the prefix, followed by exactly the metric attribute's name |
| NewRelicAgent.Agent.RecordMetric | metrics-new-relic/src/main/java/com/palominolabs/metrics/newrelic/NewRelicReporter.java:231 | recordMetric appends exactly the given full name to what the agent has received and changes nothing else |
| EmissionProperties.EmittedMembership | metrics-new-relic/src/main/java/com/palominolabs/metrics/newrelic/NewRelicReporter.java:113-215 | a name is sent for a metric exactly when some statistic's decision is true and the name is "Custom/" + prefix + name + that statistic's suffix |
| EmissionProperties.EmittedAtMostPlan | metrics-new-relic/src/main/java/com/palominolabs/metrics/newrelic/NewRelicReporter.java:113-215 | a metric sends at most one name per statistic |
| EmissionProperties.AllEnabledSendsWholePlan | metrics-new-relic/src/main/java/com/palominolabs/metrics/newrelic/NewRelicReporter.java:113-215 | with every attribute enabled, every statistic is sent, in order |
| EmissionProperties.AllDisabledSendsNothing | metrics-new-relic/src/main/java/com/palominolabs/metrics/newrelic/AllDisabledMetricAttributeFilter.java:11-16 | the all-disabled filter makes a metric send nothing |
| EmissionProperties.EmittedNamesArePrefixed | metrics-new-relic/src/main/java/com/palominolabs/metrics/newrelic/NewRelicReporter.java:228-232 | every name sent for a metric starts with "Custom/" + prefix + the metric's name |
| EmissionProperties.StepSentIffAccepted | metrics-new-relic/src/main/java/com/palominolabs/metrics/newrelic/NewRelicReporter.java:113-215 | when suffixes are distinct, a statistic's name is sent if and only if the filter accepts its kind |
| EmissionProperties.SnapshotSuffixesDistinct | metrics-new-relic/src/main/java/com/palominolabs/metrics/newrelic/NewRelicReporter.java:149-215 | the ten snapshot names "/min" … "/99.9th" (plus suffix) are pairwise different |
| EmissionProperties.MeteredSuffixesDistinct | metrics-new-relic/src/main/java/com/palominolabs/metrics/newrelic/NewRelicReporter.java:113-147 | the five metered names "/count", "/meanRate/"+unit … are pairwise different |
| EmissionProperties.CounterPlanKinds | metrics-new-relic/src/main/java/com/palominolabs/metrics/newrelic/NewRelicReporter.java:81-87 | a counter asks only the counter-count decision |
| EmissionProperties.HistogramPlanKinds | metrics-new-relic/src/main/java/com/palominolabs/metrics/newrelic/NewRelicReporter.java:149-180 | a histogram asks exactly the ten histogram decisions |
| EmissionProperties.MeterPlanKinds | metrics-new-relic/src/main/java/com/palominolabs/metrics/newrelic/NewRelicReporter.java:113-129 | a meter asks exactly the five meter decisions, the mean rate under METER_RATE |
| EmissionProperties.TimerPlanKinds | metrics-new-relic/src/main/java/com/palominolabs/metrics/newrelic/NewRelicReporter.java:131-215 | a timer's metered and snapshot statistics ask exactly the fifteen timer decisions |
| EmissionProperties.MeteredStatisticSentIffAccepted | metrics-new-relic/src/main/java/com/palominolabs/metrics/newrelic/NewRelicReporter.java:113-147 | each of "/count", "/meanRate/", "/1MinuteRate/", "/5MinuteRate/", "/15MinuteRate/" + unit is sent iff its kind's decision is true |
| EmissionProperties.SnapshotStatisticSentIffAccepted | metrics-new-relic/src/main/java/com/palominolabs/metrics/newrelic/NewRelicReporter.java:149-215 | each snapshot statistic is sent iff its kind's decision is true |
| EmissionProperties.CounterSentIffAccepted | metrics-new-relic/src/main/java/com/palominolabs/metrics/newrelic/NewRelicReporter.java:81-87 | a counter sends name + "/count" iff recordCounterCount is true |
| Reporter.NewRelicReporter.constructor | metrics-new-relic/src/main/java/com/palominolabs/metrics/newrelic/NewRelicReporter.java:61-69 | the reporter keeps its registry, name, filters, units and prefix |
| Reporter.NewRelicReporter.RecordName | metrics-new-relic/src/main/java/com/palominolabs/metrics/newrelic/NewRelicReporter.java:228-232 | record appends "Custom/" + prefix + name to what the agent received |
| Reporter.NewRelicReporter.RecordIfAccepted | metrics-new-relic/src/main/java/com/palominolabs/metrics/newrelic/NewRelicReporter.java:113-116 | one guarded step appends the step's full name iff the filter accepts its kind |
| Reporter.NewRelicReporter.DoHistogramSnapshot | metrics-new-relic/src/main/java/com/palominolabs/metrics/newrelic/NewRelicReporter.java:149-180 | appends exactly the histogram snapshot names the filter accepts, in source order |
| Reporter.NewRelicReporter.DoMetered | metrics-new-relic/src/main/java/com/palominolabs/metrics/newrelic/NewRelicReporter.java:113-129 | appends exactly the meter names the filter accepts, rates labelled with the rate unit |
| Reporter.NewRelicReporter.DoTimerMetered | metrics-new-relic/src/main/java/com/palominolabs/metrics/newrelic/NewRelicReporter.java:131-147 | appends exactly the timer metered names the filter accepts, asked with timer kinds |
| Reporter.NewRelicReporter.DoTimerSnapshot | metrics-new-relic/src/main/java/com/palominolabs/metrics/newrelic/NewRelicReporter.java:182-215 | appends exactly the timer snapshot names the filter accepts, each ending in "/" + duration unit |
| Reporter.NewRelicReporter.DoGauge | metrics-new-relic/src/main/java/com/palominolabs/metrics/newrelic/NewRelicReporter.java:217-226 | appends the bare gauge name iff its value is a finite number and recordGaugeValue is true |
| Reporter.NewRelicReporter.DoCounter | metrics-new-relic/src/main/java/com/palominolabs/metrics/newrelic/NewRelicReporter.java:81-87 | appends name + "/count" iff recordCounterCount is true |
| Reporter.NewRelicReporter.ReportGauges | metrics-new-relic/src/main/java/com/palominolabs/metrics/newrelic/NewRelicReporter.java:77-79 | the gauge loop appends every gauge's emission in map order |
| Reporter.NewRelicReporter.ReportCounters | metrics-new-relic/src/main/java/com/palominolabs/metrics/newrelic/NewRelicReporter.java:81-87 | the counter loop appends every counter's emission in map order |
| Reporter.NewRelicReporter.ReportHistograms | metrics-new-relic/src/main/java/com/palominolabs/metrics/newrelic/NewRelicReporter.java:89-95 | the histogram loop appends every histogram's emission in map order |
| Reporter.NewRelicReporter.ReportMeters | metrics-new-relic/src/main/java/com/palominolabs/metrics/newrelic/NewRelicReporter.java:97-101 | the meter loop appends every meter's emission in map order |
| Reporter.NewRelicReporter.ReportTimers | metrics-new-relic/src/main/java/com/palominolabs/metrics/newrelic/NewRelicReporter.java:103-110 | the timer loop appends, per timer, its metered then its snapshot names |
| Reporter.NewRelicReporter.Report | metrics-new-relic/src/main/java/com/palominolabs/metrics/newrelic/NewRelicReporter.java:71-111 | a report appends gauges, counters, histograms, meters and timers, in that order, exactly as ReportEmitted says |
| Reporter.ForRegistry | metrics-new-relic/src/main/java/com/palominolabs/metrics/newrelic/NewRelicReporter.java:46-48 | a fresh builder for the registry with the default settings |
| Reporter.Builder.constructor | metrics-new-relic/src/main/java/com/palominolabs/metrics/newrelic/NewRelicReporter.java:243-251 | defaults: SECONDS, MILLISECONDS, prefix "", name "new relic reporter", filter ALL, all-enabled attribute filter |
| Reporter.Builder.SetAttributeFilter | metrics-new-relic/src/main/java/com/palominolabs/metrics/newrelic/NewRelicReporter.java:257-260 | sets only the attribute filter and returns the same builder |
| Reporter.Builder.SetName | metrics-new-relic/src/main/java/com/palominolabs/metrics/newrelic/NewRelicReporter.java:266-269 | sets only the name and returns the same builder |
| Reporter.Builder.SetFilter | metrics-new-relic/src/main/java/com/palominolabs/metrics/newrelic/NewRelicReporter.java:275-278 | sets only the metric filter and returns the same builder |
| Reporter.Builder.SetRateUnit | metrics-new-relic/src/main/java/com/palominolabs/metrics/newrelic/NewRelicReporter.java:284-287 | sets only the rate unit and returns the same builder |
| Reporter.Builder.SetDurationUnit | metrics-new-relic/src/main/java/com/palominolabs/metrics/newrelic/NewRelicReporter.java:293-296 | sets only the duration unit and returns the same builder |
| Reporter.Builder.SetMetricNamePrefix | metrics-new-relic/src/main/java/com/palominolabs/metrics/newrelic/NewRelicReporter.java:303-306 | sets only the prefix and returns the same builder |
| Reporter.Builder.Build | metrics-new-relic/src/main/java/com/palominolabs/metrics/newrelic/NewRelicReporter.java:308-311 | a fresh reporter carrying every builder setting unchanged |
| LegacyReporter.NewRelicReporter.constructor | src/main/java/com/palominolabs/metrics/newrelic/NewRelicReporter.java:39-43 | the reporter keeps its registry, name, filters and units |
| LegacyReporter.NewRelicReporter.RecordName | src/main/java/com/palominolabs/metrics/newrelic/NewRelicReporter.java:168-170 | record appends "Custom/" + name; there is no prefix |
| LegacyReporter.NewRelicReporter.RecordIfAccepted | src/main/java/com/palominolabs/metrics/newrelic/NewRelicReporter.java:89-91 | one guarded step appends the step's full name iff the filter accepts its kind |
| LegacyReporter.NewRelicReporter.DoSnapshot | src/main/java/com/palominolabs/metrics/newrelic/NewRelicReporter.java:88-127 | appends exactly the accepted snapshot names, asking timer kinds iff isTimer, every name ending in nameSuffix |
| LegacyReporter.NewRelicReporter.DoMetered | src/main/java/com/palominolabs/metrics/newrelic/NewRelicReporter.java:134-155 | appends exactly the accepted metered names, asking timer kinds iff isTimer, otherwise meter kinds |
| LegacyReporter.NewRelicReporter.DoGauge | src/main/java/com/palominolabs/metrics/newrelic/NewRelicReporter.java:157-166 | appends the bare gauge name iff its value is a finite number and recordGaugeValue is true |
| LegacyReporter.NewRelicReporter.DoCounter | src/main/java/com/palominolabs/metrics/newrelic/NewRelicReporter.java:52-58 | appends name + "/count" iff recordCounterCount is true |
| LegacyReporter.NewRelicReporter.ReportGauges | src/main/java/com/palominolabs/metrics/newrelic/NewRelicReporter.java:48-50 | the gauge loop appends every gauge's emission in map order |
| LegacyReporter.NewRelicReporter.ReportCounters | src/main/java/com/palominolabs/metrics/newrelic/NewRelicReporter.java:52-58 | the counter loop appends every counter's emission in map order |
| LegacyReporter.NewRelicReporter.ReportHistograms | src/main/java/com/palominolabs/metrics/newrelic/NewRelicReporter.java:60-65 | histograms use histogram kinds and an empty suffix |
| LegacyReporter.NewRelicReporter.ReportMeters | src/main/java/com/palominolabs/metrics/newrelic/NewRelicReporter.java:67-69 | the meter loop appends every meter's emission in map order |
| LegacyReporter.NewRelicReporter.ReportTimers | src/main/java/com/palominolabs/metrics/newrelic/NewRelicReporter.java:71-79 | per timer: metered names under the plain name, then snapshot names under "/timer/" + name with "/" + duration unit |
| LegacyReporter.NewRelicReporter.Report | src/main/java/com/palominolabs/metrics/newrelic/NewRelicReporter.java:45-80 | a report appends gauges, counters, histograms, meters and timers, in that order, exactly as LegacyReportEmitted says |
| ReporterProperties.GaugesAtMostOne | metrics-new-relic/src/main/java/com/palominolabs/metrics/newrelic/NewRelicReporter.java:77-79 | at most one name per gauge |
| ReporterProperties.SectionAtMostPlan | metrics-new-relic/src/main/java/com/palominolabs/metrics/newrelic/NewRelicReporter.java:81-101 | a section sends at most one name per metric and statistic |
| ReporterProperties.TimersAtMostFifteen | metrics-new-relic/src/main/java/com/palominolabs/metrics/newrelic/NewRelicReporter.java:24-26 | in total, the timer section sends at most fifteen times as many names as there are timers (the per-metric bound is the row for EmissionProperties.EmittedAtMostPlan) |
| ReporterProperties.ReportAtMost | metrics-new-relic/src/main/java/com/palominolabs/metrics/newrelic/NewRelicReporter.java:71-111 | in total, a report sends at most (number of gauges) + (number of counters) + 10 × (number of histograms) + 5 × (number of meters) + 15 × (number of timers) names |
| ReporterProperties.AllEnabledTimersSendFifteen | metrics-new-relic/src/main/java/com/palominolabs/metrics/newrelic/NewRelicReporter.java:24-26 | with every attribute enabled each timer sends all fifteen names |
| ReporterProperties.AllDisabledGaugesSilent | metrics-new-relic/src/main/java/com/palominolabs/metrics/newrelic/AllDisabledMetricAttributeFilter.java:11-16 | the all-disabled filter silences all gauges |
| ReporterProperties.AllDisabledSectionSilent | metrics-new-relic/src/main/java/com/palominolabs/metrics/newrelic/AllDisabledMetricAttributeFilter.java:11-16 | the all-disabled filter silences every counter, histogram and meter section |
| ReporterProperties.AllDisabledTimersSilent | metrics-new-relic/src/main/java/com/palominolabs/metrics/newrelic/AllDisabledMetricAttributeFilter.java:11-16 | the all-disabled filter silences all timers |
| ReporterProperties.AllDisabledReportSilent | metrics-new-relic/src/main/java/com/palominolabs/metrics/newrelic/AllDisabledMetricAttributeFilter.java:11-16 | used alone, the all-disabled filter makes a report send nothing |
| ReporterProperties.LegacyAllDisabledReportSilent | src/main/java/com/palominolabs/metrics/newrelic/AllDisabledMetricAttributeFilter.java:10-171 | used alone, the all-disabled filter makes the original reporter send nothing |
| ReporterProperties.EmittedUnderCustom | metrics-new-relic/src/main/java/com/palominolabs/metrics/newrelic/NewRelicReporter.java:228-232 | every name a metric sends starts with "Custom/" + prefix |
| ReporterProperties.SectionUnderCustom | metrics-new-relic/src/main/java/com/palominolabs/metrics/newrelic/NewRelicReporter.java:228-232 | every name a section sends starts with "Custom/" + prefix |
| ReporterProperties.GaugesUnderCustom | metrics-new-relic/src/main/java/com/palominolabs/metrics/newrelic/NewRelicReporter.java:228-232 | every gauge name sent starts with "Custom/" + prefix |
| ReporterProperties.TimersUnderCustom | metrics-new-relic/src/main/java/com/palominolabs/metrics/newrelic/NewRelicReporter.java:228-232 | every timer name sent starts with "Custom/" + prefix |
| ReporterProperties.ReportUnderCustom | metrics-new-relic/src/main/java/com/palominolabs/metrics/newrelic/NewRelicReporter.java:228-232 | every name a report sends starts with "Custom/" + prefix |
| ReporterProperties.LegacyMatchesUnprefixedExceptTimers | src/main/java/com/palominolabs/metrics/newrelic/NewRelicReporter.java:45-80 | apart from timers, the original reporter sends what the new one sends with an empty prefix |
| ReporterProperties.NothingAcceptedNothingSent | metrics-new-relic/src/main/java/com/palominolabs/metrics/newrelic/NewRelicReporter.java:113-215 | a metric whose every statistic is rejected sends nothing |
| ReporterProperties.LegacyTimerSnapshotMissesTable | src/main/java/com/palominolabs/metrics/newrelic/NewRelicReporter.java:71-79 | a table enabling only TIMER_MIN of timer key: the new reporter sends "Custom/" + key + "/min/" + unit, the original sends nothing for that timer, because it asks about "/timer/" + key |

## Left out

- Numeric values: `convertRate`, `convertDuration`, the float casts, `Number.floatValue` and the NaN/infinity test are not modelled; a gauge carries one boolean saying whether its value is a finite number, and the agent receives names only.
- Unit labels: `getRateUnit()` and `getDurationUnit()` belong to the codahale base reporter, which is not part of this model; their strings are parameters of the report methods rather than functions of the stored time units.
- The metric filter (`MetricFilter`) is applied by the codahale base reporter before `report` is called; the model stores it and passes it through the builder but does not apply it.
- Sorted-map iteration: each section is given as a sequence of (name, metric) entries in iteration order; that the order is sorted is not required or used.
- YAML deserialisation and URI/stream reading (Jackson, `ObjectMapper`, `ObjectReader`) are a parameter: the parse outcome, a nested map or a failure message. What the parser does with unknown kind names, null rows or null values is not modelled.
- The loader's two constructors only choose an `ObjectReader`; with parsing abstracted they have nothing left to model.
- The New Relic SDK call `NewRelic.recordMetric` is the agent's `RecordMetric`, which only appends the name.
- Logging (slf4j), scheduling and threading of `ScheduledReporter` and the thread-safety annotations are not modelled.
- The metric objects (timers, histograms, meters, snapshots) are opaque handles, passed to the filter and otherwise unused.
- Guava `Optional`/`Supplier`: the lazily evaluated fallback is modelled as a plain conditional; that the fallback is not consulted on a hit is stated by `TableFilter.TableHitIgnoresFallback`.
- Java object identity: "get returns the same instance" is stated as equality of the returned table with the given one.
- Filters.Record: its contract states the constant and user-supplied cases only; the table filter's hit and miss cases are proved separately as TableFilter.TableHitOverridesFallback and TableFilter.TableMissDelegates, because stating them on `Record` itself puts the unrolled snapshot proofs beyond the solver's budget.
- TableSuppliers.YamlSupplierGet: `java.net.URI` parsing is not modelled; whether the URI is absolute is a flag of the modelled URI, and `toURL()`'s other failure (an unknown protocol, a `MalformedURLException`, which is an `IOException`) is part of the read outcome like any other read failure.
- The demo program `NewRelicReporterTestMain` uses executors and random numbers and has no logic to model.
