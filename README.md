# STCI pricing index — a Dafny model of its core

STCI publishes a daily price index for large-language-model tokens. Its
collector gathers per-model price observations, which are dictionaries with
`model_id`, `provider`, input and output rates in USD per million tokens,
an `effective_date`, a `collection_method` and so on. It gathers them from
the OpenRouter aggregator, a fixture file and a hand-maintained OpenAI
configuration. It then:

- checks the observations for required fields;
- removes duplicates by collection-method priority;
- flags drift between sources.

The indexer averages each configured basket into input, output and blended
rates, with a dispersion figure and a verification hash. A separate
enterprise component folds provider usage reports into token totals per
model and derives effective rates from them.

The model follows the Python modules one Dafny module each:

- **Input and output values.** `Values` holds the JSON-like values the
  program passes around. `Obs` is one observation dictionary. A Python
  exception is an `Err` of a `Result`.
- **Helper modules.** `Text` is string splitting and ordering. `Grouping`
  is first-occurrence grouping. `Validation` is the required-field filter.
- **Library calls as parameters.** `Runtime.Env` carries the library calls
  the model leaves uninterpreted: `round`, `statistics.stdev`, `float(str)`,
  `date.fromisoformat` and `str()` of a value.
- **Loops as methods.** Each loop in the source is a method. Its `ensures`
  ties the result to a specification function, and the properties the
  program promises are proved about that function as lemmas.
- **Mutable objects as classes.** The objects the source updates in place
  are classes: `OpenAIDirectSource`, `NormalizedUsage` and `UsageSnapshot`.
  The fixture rewrite works on an `array` of observations.

## Model

| member | source | states |
|---|---|---|
| Indexer.BasketMembers | services/indexer/indexer.py:104-110 | an explicit basket keeps exactly the observations whose `model_id` or `provider/model_id` is listed, and no more than the input |
| Indexer.BasketOfConcat | services/indexer/indexer.py:104-110 | the basket filter works element by element in input order (filtering a concatenation concatenates the filtered parts) |
| Indexer.ComputeSingleIndex | services/indexer/indexer.py:86-158 | the index is omitted (`None`) when the filtered set is empty or an explicit basket is under-covered (observations over listed models below `min_basket_coverage`, default 0.5). Otherwise it raises exactly when a rate is missing or not numeric (`KeyError`, `TypeError`), or when `1 + output_ratio` is 0 (`ZeroDivisionError`). The result has means of the rates rounded to `output_decimals`, the blend with `output_ratio` (default 3.0), `model_count` = number of filtered observations, `models_included` one label per observation in order (`provider/unknown` without a model id), and a dispersion (rounded stdev of input rates) present iff more than one observation. With no basket list, `model_count` is the number of observations |
| Indexer.MeanBounds | services/indexer/indexer.py:125-130 | the mean of the rates lies between their lower and upper bounds |
| Indexer.MeanExample | services/indexer/indexer.py:125-130 | the means of [2, 4] and [8, 12] are 3 and 10 |
| Indexer.BlendBetween | services/indexer/indexer.py:133-134 | with a non-negative ratio the blended rate lies between the average input and the average output rate |
| Indexer.BlendExample | services/indexer/indexer.py:133-134 | input 1, output 4 and ratio 3 blend to 3.25 |
| Indexer.Labels | services/indexer/indexer.py:148-153 | one label per filtered observation, in order: its truthy `model_id`, else `provider/unknown` |
| Indexer.InferDate | services/indexer/indexer.py:179-186 | the date is the first truthy `effective_date`, parsed when it is text (an unparsable one raises), or today when no observation has one |
| Indexer.FirstIsAt | services/indexer/indexer.py:181-184 | the scan returns the date of the first observation carrying a truthy one |
| Indexer.SortByIdSorted | services/indexer/indexer.py:167-170 | the hash input's observations are ordered by `observation_id` (missing ids as `""`) |
| Indexer.HashOrder | services/indexer/indexer.py:167-170 | a successful sort is ordered by id and is a permutation of the observations |
| Indexer.VerificationHash | services/indexer/indexer.py:160-177 | the hash exists iff the hash input can be built; it is 16 lower-case hex digits and a prefix of the digest of (date, methodology version, sorted whole observations) |
| Indexer.HashOrderInvariant | services/indexer/indexer.py:160-177 | with distinct ids, reordering the observations leaves the hash input, and so the hash, unchanged |
| Indexer.HashInputCoversObservations | services/indexer/indexer.py:167-177 | the hash input determines the multiset of whole observations: two sets of observations with equal hash inputs are permutations of each other |
| Indexer.Compute | services/indexer/indexer.py:44-84 | succeeds iff the date resolves, every configured index computes and the hash can be built. It then holds exactly the indices whose value is not `None`, each equal to its single-index result, with the ISO date, the hash, the version (default `1.0.0`) and `observation_count` = number of observations |
| Indexer.ComputeIndices | services/indexer/indexer.py:61-70 | the loop succeeds iff every configured index computes; each name is present exactly when its index is not `None`, with that value; only configured names appear; a failure is the exception of some index |
| Drift.NormalizeModelId | services/collector/drift.py:33-50 | an id with exactly one `/` becomes the slash-free part after it; any other id comes back unchanged |
| Drift.NormalizeTwice | services/collector/drift.py:33-50 | normalising is idempotent for every id; the result has no slash left or is the id unchanged (no slash, or two or more) |
| Drift.KeysSpec | services/collector/drift.py:69-77 | grouping keys exist iff every observation's `model_id` (default `""`) is text, and then are its normalized id, one per observation |
| Drift.DiffPct | services/collector/drift.py:133-140 | 0 when both prices are zero, 1 when exactly one is, else \|a−b\| divided by their mean (the result times the sum is twice the absolute difference); equal prices give 0 |
| Drift.DiffPctSymmetric | services/collector/drift.py:133-140 | the difference is symmetric in its arguments |
| Drift.DiffPctExample | services/collector/drift.py:133-140 | prices 1 and 3 differ by 1.0: their difference is their whole mean |
| Drift.RelativeBelowTwo | services/collector/drift.py:137-140 | for positive prices the relative difference is in [0, 2) |
| Drift.ExtractSourceName | services/collector/drift.py:143-155 | one rung per case, each taking the earlier ones as failed: a lower-cased source containing `openrouter`, else `openai`, else `anthropic`, else `google` gives that name; otherwise `config_file` gives `config` and anything else its first 20 characters (a short source unchanged) |
| Drift.CloudGoogleRedundant | services/collector/drift.py:150 | the `cloud.google` test is subsumed by the `google` test before it |
| Drift.ComparePairSpec | services/collector/drift.py:86-128 | a pair is recorded iff the input or output difference strictly exceeds the threshold. The discrepancy then carries both source names and differences, and its warning names the side that exceeded |
| Drift.Grouped | services/collector/drift.py:69-77 | grouping succeeds iff every `model_id` (default `""`) is text, and its key order lists exactly the grouped keys |
| Drift.GroupedNonEmpty | services/collector/drift.py:69-77 | every group holds at least one observation |
| Drift.GroupsShareKey | services/collector/drift.py:69-77 | every member of a group is an input observation with that group's normalized id |
| Drift.RowScanRecords | services/collector/drift.py:86-88 | every comparison (i, j) with j after i succeeds, the discrepancy of each over-threshold pair is in the row, and every discrepancy in the row comes from such a pair |
| Drift.RowScanCount | services/collector/drift.py:87-111 | row i holds exactly as many discrepancies as there are partners j after i whose pair went over the threshold |
| Drift.GroupScanRecords | services/collector/drift.py:86-88 | within a group every pair i<j compares successfully, each over-threshold pair's discrepancy is recorded, and every recorded discrepancy comes from such a pair |
| Drift.GroupScanCount | services/collector/drift.py:86-111 | a group's discrepancies number exactly its over-threshold pairs i<j, summed row by row |
| Drift.ReportScanRecords | services/collector/drift.py:79-128 | warnings run in step with discrepancies, every over-threshold same-group pair's discrepancy is in the report, and every discrepancy comes from two observations of one group |
| Drift.ReportScanCount | services/collector/drift.py:79-111 | the report holds exactly one discrepancy per over-threshold pair, summed over the groups |
| Drift.DriftCountsPairs | services/collector/drift.py:79-111 | `discrepancy_count` equals the number of same-id pairs (earlier observation first) that went over the threshold |
| Drift.SmallGroupScansNothing | services/collector/drift.py:81-83 | a group of fewer than two observations produces nothing |
| Drift.DriftWarningsIffDiscrepancies | services/collector/drift.py:22-30 | `has_warnings` holds iff `discrepancy_count > 0` |
| Drift.GroupByModel | services/collector/drift.py:69-77 | the grouping loop computes `Grouped` |
| Drift.CompareGroup | services/collector/drift.py:86-128 | the nested i/j loop computes the group scan |
| Drift.CompareGroups | services/collector/drift.py:79-128 | the loop over the groups, in key order, computes the report scan, skipping groups of fewer than two |
| Drift.DetectDrift | services/collector/drift.py:53-130 | `detect_drift` returns the specified report, `has_warnings` iff discrepancies exist, and `discrepancy_count` is the number of over-threshold same-id pairs |
| Pipeline.Rank | services/collector/pipeline.py:249-256 | the priority is at most 2, 0 exactly for `config_file` and 1 exactly for `aggregator_api` |
| Pipeline.SortByPriorityPermutes | services/collector/pipeline.py:258 | sorting by priority is a permutation |
| Pipeline.SortByPriorityOrders | services/collector/pipeline.py:258 | the sorted list is non-decreasing in priority |
| Pipeline.SortByPriorityHead | services/collector/pipeline.py:258-259 | the head has the least priority in the group, and is the earliest input element of that priority (stable sort) |
| Pipeline.Deduplicated | services/collector/pipeline.py:227-261 | deduplication succeeds iff grouping by normalized id does |
| Pipeline.Deduplicate | services/collector/pipeline.py:227-261 | the method computes `Deduplicated` |
| Pipeline.KeepHeads | services/collector/pipeline.py:246-259 | the selection loop keeps the head of each priority-sorted group, groups in first-seen order |
| Pipeline.DeduplicatedOnePerId | services/collector/pipeline.py:237-261 | the output holds at most as many elements as the input, each one an input element, with pairwise distinct normalized ids |
| Pipeline.KeptKeyed | services/collector/pipeline.py:237-259 | the `i`-th kept observation is an input observation whose normalised id is the `i`-th distinct id |
| Pipeline.KeptCovers | services/collector/pipeline.py:237-259 | every input observation's normalised id is the id of some kept observation |
| Pipeline.DeduplicatedLowestRank | services/collector/pipeline.py:249-259 | each kept observation has the minimum rank among the input observations sharing its id |
| Pipeline.DeduplicatedEarliest | services/collector/pipeline.py:258-259 | the kept observation is the earliest input among those of minimum rank for its id |
| Pipeline.BasicValidate | services/collector/pipeline.py:322-350 | `valid` is the in-order list of observations with all 12 required keys, and `len(valid) + invalid_count` = number of observations |
| Validation.CompleteMembers | services/collector/pipeline.py:324-348 | an observation is kept iff it is an input with every required key |
| Validation.CompletePartitions | services/collector/pipeline.py:339-350 | kept plus rejected equals the input count |
| Comparison.NormalizeId | tests/test_comparison.py:15-50 | the result is lower case, and the empty id gives `""` |
| Comparison.CanonicalKey | tests/test_comparison.py:22-23 | a falsy id (empty or None) gives `""`; a text id gives its normalized form; any other value raises |
| Comparison.NormalizeIdIgnoresProvider | tests/test_comparison.py:26 | everything up to and including the last `/` is ignored |
| Comparison.NormalizeIdAlias | tests/test_comparison.py:28-38 | an aliased id returns the alias target directly, without suffix stripping |
| Comparison.AliasShapes | tests/test_comparison.py:28-38 | every alias target is lower case and slash-free |
| Comparison.NormalizeIdUnaliased | tests/test_comparison.py:40-50 | an unaliased id is lower-cased after stripping dates and then variant suffixes |
| Comparison.NormalizeIdStripsIsoDate | tests/test_comparison.py:41 | a trailing `-YYYY-MM-DD` is dropped |
| Comparison.NormalizeIdStripsCompactDate | tests/test_comparison.py:42 | a trailing `-YYYYMMDD` is dropped |
| Comparison.NormalizeIdStripsVariant | tests/test_comparison.py:44-46 | one trailing `:thinking`, `-preview` or `-001` is dropped |
| Comparison.NormalizeIdKeepsVariants | tests/test_comparison.py:44-48 | an id without those endings (for example `:extended`, `-16k`, `-instruct`) is only lower-cased |
| Comparison.NormalizeIdPreviewThenFirst | tests/test_comparison.py:44-48 | in `x-preview-001` only `-001` goes, because `-preview` is tested before it |
| Comparison.NormalizeIdFirstThenPreview | tests/test_comparison.py:44-48 | in `x-001-preview` both suffixes go, each at most once, in that order |
| Comparison.LatestSpec | tests/test_comparison.py:192-216 | the kept observation of a method is the last one with that id and method, or none exists |
| Comparison.PairedLatest | tests/test_comparison.py:192-216 | the pairing holds exactly the non-empty ids that occur, each with its latest `manual` and `aggregator_api` observation |
| Comparison.Blend | tests/test_comparison.py:221-222 | the blend is the mean of the input and output rate; a missing input rate, else a missing output rate, raises `KeyError` for that key, and a present but non-numeric rate `TypeError` |
| Comparison.AssessInPrices | tests/test_comparison.py:224-241 | markup above 1.5 is an error, above 1.0 up to 1.5 a warning, else valid |
| Comparison.ReviewPartitions | tests/test_comparison.py:218-248 | every compared id counts exactly once, as an error, a warning or valid, and the error list is empty iff no compared id is judged an error |
| Comparison.PairObservations | tests/test_comparison.py:192-216 | the grouping loop computes the pairing |
| Comparison.ReviewPairs | tests/test_comparison.py:218-241 | the classification loop computes the tally: zero official blend or markup > 1.5 is an error, > 1.0 a warning, else valid |
| Comparison.ValidateComparisonData | tests/test_comparison.py:180-248 | returns the specified report |
| Collector.Collect | services/collector/collector.py:37-68 | a non-empty primary result is returned. Otherwise the fallback's result is returned when enabled, else `CollectionError` is raised. Without the fallback, a successful result is non-empty |
| Collector.ValidateObservations | services/collector/collector.py:70-95 | keeps exactly the observations holding all five required keys, in input order, no more than the input |
| Sources.ToFloat | services/collector/sources.py:103-107 | numbers convert to themselves; null, lists and dicts do not convert |
| Sources.ProviderOfSplits | services/collector/sources.py:113-114 | the provider is the slash-free text before the first `/`, or `unknown` without one |
| Sources.ObservationId | services/collector/sources.py:117 | the text is `obs-`, then the date, then `-`, then the id with every `/` made `-`; the result is slash-free when the date is |
| Sources.EntrySkipsUnpriced | services/collector/sources.py:93-100 | a model whose pricing lacks `prompt` or `completion` is skipped |
| Sources.NullPricingRaises | services/collector/sources.py:93 | `"pricing": null` raises rather than skipping |
| Sources.EntrySkipRule | services/collector/sources.py:103-111 | an unconvertible rate, or both rates zero, is skipped; a single zero rate is not |
| Sources.EntryEmits | services/collector/sources.py:92-135 | an emitted observation comes from a model with a text id and both `prompt` and `completion` rates present and convertible, not both zero, and is the observation built from the rates times 1,000,000 |
| Sources.ObservationIds | services/collector/sources.py:113-119 | the observation carries the model id as given, `obs-{date}-{id with / as -}` and the provider prefix before the first `/` (`unknown` without one) |
| Sources.ObservationRates | services/collector/sources.py:121-122 | both rates are the per-million rates rounded to 6 places |
| Sources.ObservationFixed | services/collector/sources.py:123-135 | the observation carries the target date, USD, tier T1, `aggregator_api`, and `context_window` exactly when `context_length` is truthy |
| Sources.NormalizeModels | services/collector/sources.py:92-139 | the per-model loop computes the gathered observations |
| Sources.OpenRouterOrder | services/collector/sources.py:92-139 | observations come out in model order, each from its own model, no more than there are models |
| Sources.RewrittenFields | services/collector/sources.py:187-192 | a rewrite sets the target date, the stamp and `obs-{date}-{provider}-{model_id with / as -}`, and keeps every other key |
| Sources.RewriteFixtures | services/collector/sources.py:186-194 | every element is rewritten in place, or the loop stops at the first one that raises |
| OpenAIDirect.SourceUrl | services/collector/direct_sources/openai_source.py:67 | `source_url` defaults to the OpenAI pricing page |
| OpenAIDirect.FloatOf | services/collector/direct_sources/openai_source.py:83-84 | numbers convert to themselves; text converts exactly when it parses, to the parsed value, and otherwise raises `ValueError`; null, lists and dicts raise `TypeError` |
| OpenAIDirect.BaseObservationId | services/collector/direct_sources/openai_source.py:78 | the observation id is `obs-{date}-openai-{id}`, the id as `str` shows it |
| OpenAIDirect.BaseModelId | services/collector/direct_sources/openai_source.py:80-81 | the model id is `openai/{id}` and the provider `openai` |
| OpenAIDirect.BaseRates | services/collector/direct_sources/openai_source.py:83-84 | both rates are the converted rates rounded to 6 places |
| OpenAIDirect.BaseFixed | services/collector/direct_sources/openai_source.py:88-90 | tier T1, USD and `config_file` |
| OpenAIDirect.BaseDateUrl | services/collector/direct_sources/openai_source.py:85-87 | the target date and the configured (or default) source page |
| OpenAIDirect.BaseNoOptional | services/collector/direct_sources/openai_source.py:77-92 | the fixed fields include neither `context_window` nor `model_tier` |
| OpenAIDirect.ConfigEntrySkipRule | services/collector/direct_sources/openai_source.py:70-75 | an entry whose rates (default 0) are both zero is skipped |
| OpenAIDirect.ConfigObservationFields | services/collector/direct_sources/openai_source.py:94-99 | `context_window` and `model_tier` are present exactly when truthy in the entry |
| OpenAIDirect.ConfigEntryObservation | services/collector/direct_sources/openai_source.py:69-101 | an emitted observation comes from a non-skipped entry whose rates both convert |
| OpenAIDirect.ConfigObservationsOrder | services/collector/direct_sources/openai_source.py:69-101 | one observation per emitting entry, each built from its own entry |
| OpenAIDirect.ConfigObservationsSplit | services/collector/direct_sources/openai_source.py:69-101 | config order is kept: cut the items anywhere and the observations are those of the first part followed by those of the rest |
| OpenAIDirect.OpenAIDirectSource.LoadConfig | services/collector/direct_sources/openai_source.py:43-50 | the config is read once and cached; a missing file raises |
| OpenAIDirect.OpenAIDirectSource.Fetch | services/collector/direct_sources/openai_source.py:52-103 | returns the config-built observations of the (cached or loaded) config |
| Schema.NewModelUsage | functions/enterprise/schema.py:12-21 | construction succeeds iff both token counts are given (else `TypeError`); the other counters default to 0 |
| Schema.ModelUsageRoundTrip | functions/enterprise/schema.py:64-74 | a per-model entry is recovered from its dict form |
| Schema.NormalizedUsage.constructor | functions/enterprise/schema.py:24-51 | a new usage record has zero counters and cost and an empty `by_model` |
| Schema.NormalizedUsageDict | functions/enterprise/schema.py:53-77 | the dict reads back as every field but `raw_response`: provider, date, the six totals, each model's usage under its key, and `synced_at`, which is null iff unset |
| Schema.ModelsRoundTrip | functions/enterprise/schema.py:64-75 | the `by_model` dict reads back as the same map of model usages |
| Schema.WithRates | functions/enterprise/schema.py:114-131 | each effective rate is cost over its token count times 1e6, set only when the denominator is positive; nothing else changes |
| Schema.BlendedRateBounds | functions/enterprise/schema.py:126-131 | with both token counts positive and a non-negative cost, the blended rate is at most the input rate and at most a third of the output rate |
| Schema.UsageSnapshot.CalculateRates | functions/enterprise/schema.py:114-131 | the snapshot's new fields are `WithRates` of the old ones |
| Schema.WithDiscount | functions/enterprise/schema.py:133-140 | the frontier rate is always stored; the discount is set only when both rates are positive; nothing else changes |
| Schema.DiscountMeaning | functions/enterprise/schema.py:138-140 | a computed discount is below 1 and positive iff the blended rate is under the frontier rate |
| Schema.UsageSnapshot.CalculateDiscount | functions/enterprise/schema.py:133-140 | the snapshot's new fields are `WithDiscount` of the old ones |
| Schema.SnapshotDict | functions/enterprise/schema.py:142-171 | the dict reads back as every field of the snapshot: date, totals, rates, benchmark and optimisation figures; `by_provider` has the snapshot's keys, each entry reading back as that provider's usage |
| Schema.TotalsRoundTrip | functions/enterprise/schema.py:146-152 | the `totals` section keeps the five totals |
| Schema.RatesRoundTrip | functions/enterprise/schema.py:153-157 | the `rates` section keeps the three effective rates |
| Schema.BenchmarkRoundTrip | functions/enterprise/schema.py:158-162 | the `benchmark` section keeps frontier rate, discount and percentile rank; the rank is null iff unset |
| Schema.OptimizationRoundTrip | functions/enterprise/schema.py:163-167 | the `optimization` section keeps cache hit rate, batch percentage and potential savings |
| UsageFold.Counted | functions/enterprise/providers/openai_usage.py:214-218 | adding a row to a per-model entry adds each counter and keeps the id and cost |
| UsageFold.ByModelEntries | functions/enterprise/providers/openai_usage.py:212-218 | `by_model` has one entry per model seen, named after it, each counter the sum over that model's rows |
| UsageFold.TotalsMatchByModel | functions/enterprise/providers/openai_usage.py:197-218 | each total equals the sum of that counter over `by_model` |
| UsageFold.CountIntoModel | functions/enterprise/providers/openai_usage.py:211-218 | `by_model` after one more record is the fold extended by that record: a new model starts zeroed, then its entry grows by each count (the OpenAI loop adds no cache-creation tokens, and its records carry 0 there) |
| UsageFold.TracksSums | functions/enterprise/providers/openai_usage.py:197-218 | a usage that tracks the records has every model in `by_model`, and each total equals that counter summed over `by_model` |
| UsageFold.AsWrittenRaises | functions/enterprise/providers/openai_usage.py:212-213 | the fold as written raises `TypeError` on any non-empty input |
| OpenAIUsage.RowOf | functions/enterprise/providers/openai_usage.py:200-204 | each present count is read as given and a missing one as 0, a present model as given and a missing one as `unknown`; no cache-creation tokens |
| OpenAIUsage.NoCacheCreation | functions/enterprise/providers/openai_usage.py:197-218 | the completions never add cache-creation tokens |
| OpenAIUsage.CountResult | functions/enterprise/providers/openai_usage.py:199-218 | one result extends the tracked rows and leaves the rest of the record alone |
| OpenAIUsage.CountResults | functions/enterprise/providers/openai_usage.py:199-218 | the inner loop tracks every result of one bucket, in order |
| OpenAIUsage.CountCompletions | functions/enterprise/providers/openai_usage.py:197-218 | the nested loop tracks every result of every bucket |
| OpenAIUsage.SumCents | functions/enterprise/providers/openai_usage.py:220-226 | the cents are the sum of all present `amount.value`s |
| OpenAIUsage.Normalize | functions/enterprise/providers/openai_usage.py:184-236 | provider `openai`, the date kept. Totals and `by_model` follow the rows, every total equals the sum over `by_model`, and `cache_creation_tokens` stays 0. Cost is cents / 100. Empty input gives zero totals and an empty map (constructor zero-initialised, see Findings) |
| AnthropicUsage.RowOf | functions/enterprise/providers/anthropic_usage.py:178-183 | each present count is read as given and a missing one as 0, a present model as given and a missing one as `unknown`; `message_count` feeds the request count |
| AnthropicUsage.CountBucket | functions/enterprise/providers/anthropic_usage.py:178-199 | one bucket extends the tracked rows and leaves the rest of the record alone |
| AnthropicUsage.CountBuckets | functions/enterprise/providers/anthropic_usage.py:177-199 | the loop tracks every bucket |
| AnthropicUsage.SumCost | functions/enterprise/providers/anthropic_usage.py:201-207 | the cost is the plain sum of the present `cost_usd`s |
| AnthropicUsage.Normalize | functions/enterprise/providers/anthropic_usage.py:163-215 | provider `anthropic`, the date kept. Totals and `by_model` follow the buckets, and every total, cache creation included, equals the sum over `by_model`. Cost is the plain sum. Empty input gives zero totals and an empty map (constructor zero-initialised, see Findings) |

## Left out

- The network calls, file reads (JSONL, YAML, JSON fixtures, JSON schemas), storage backends, HTTP handlers and CLI entry points. Their results enter the model as given sequences and maps, and a missing config file as `None`.
- Clocks: `collected_at`, `synced_at`, `computed_at` and "today" are parameters. `computed_at` is not part of the modelled index output.
- Floating point: rates, costs and ratios are `real`. `round`, `statistics.stdev`, `float()` of text and `str()` of values are uninterpreted functions in `Runtime.Env`. Binary-float equality and formatting are not modelled, and warning and error messages are structured values rather than formatted text.
- SHA-256 and `json.dumps`: the hash is an uninterpreted digest of the hash input, given as 64 hex digits.
- The jsonschema validation in `_validate_observations`, which is a library call.
- Python dict iteration order is modelled only where the output depends on it (group order, `models` config order). Observation dicts are maps.
- The Unicode behaviour of `str.lower` and of `\d`: both are modelled on ASCII letters and digits.
- Indexer.SortById: Python's `sorted` is modelled as a stable insertion sort by id. The hash input is unaffected by ties when ids are distinct. When there are two or more observations and some `observation_id` is not text, the sort is modelled as raising `TypeError`. Python does not raise when every id is a number, and it may not compare every pair, so the model is stricter there.
- Pipeline.SortByPriority: the in-place `list.sort` is modelled as a stable three-band partition by rank. The dedup result depends only on the sorted head.
- OpenRouter: a `data` field that is not a list, and config or `models` values that are not dicts, are not modelled; each model entry is any value.
- FixtureSource: list elements that are not dicts are not modelled.
- Usage clients: token counts are integers; non-integer JSON values are not modelled. `raw_response` is not modelled. `ModelUsage` objects are held as values in `by_model`, so aliasing between them is not captured.
- OpenAIDirect.OpenAIDirectSource.Fetch: the YAML content is passed in as already-parsed `Config`, so malformed YAML is not modelled.
- Logging: the `print` calls in `collect` and `validate_observations` (services/collector/collector.py:62, 65 and 93), the progress and `[INVALID]` lines of the pipeline (services/collector/pipeline.py, `_basic_validate` at line 346 among them) write to standard output only and are not modelled; the CLI's output printing is left out with the entry points.
- Drift.DetectDrift: the `threshold=0.05` default argument (services/collector/drift.py:55) is not modelled; callers pass the threshold explicitly.
- Sources.NullPricingRaises: the code raises `AttributeError` on `"pricing": null` (a `.get` on `None`), while tests/test_collector.py:62 expects such a model to be skipped. The model follows the code.

## Findings

| source | as written | input that shows it | evidently intended | confidence | as-written member | corrected member |
|---|---|---|---|---|---|---|
| functions/enterprise/providers/openai_usage.py:212-213 (and functions/enterprise/providers/anthropic_usage.py:192-193) | `ModelUsage(model_id=model)` leaves out `input_tokens` and `output_tokens`, which have no defaults (functions/enterprise/schema.py:15-17), so the first new model raises `TypeError` | any completions bucket (or usage bucket) with one result | a zero-initialised per-model entry, after which every total equals the sum over `by_model` | not executed | UsageFold.AsWrittenRaises | UsageFold.TotalsMatchByModel |
