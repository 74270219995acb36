/** `AnthropicUsageClient._normalize`: the usage report (one bucket per
    model and period) and the cost report folded into one
    `NormalizedUsage`. The reports are given as their `data` lists; a
    missing list is an empty one. */
module AnthropicUsage {
  import opened Values
  import opened Grouping
  import opened Schema
  import opened UsageFold

  /** One usage bucket; `None` for a field the bucket lacks. */
  datatype UsageBucket = UsageBucket(
    model: Option<string>,
    inputTokens: Option<int>,
    outputTokens: Option<int>,
    cachedInputTokens: Option<int>,
    cacheCreationInputTokens: Option<int>,
    messageCount: Option<int>)

  /** How the loop reads one bucket: missing counts are 0, a missing model
      is `"unknown"`, and the message count is what counts as requests. */
  function RowOf(bucket: UsageBucket): (r: Row)
    ensures bucket.model.None? ==> r.model == "unknown"
    ensures bucket.model.Some? ==> r.model == bucket.model.value
    ensures bucket.inputTokens.None? ==> r.input == 0
    ensures bucket.inputTokens.Some? ==> r.input == bucket.inputTokens.value
    ensures bucket.outputTokens.None? ==> r.output == 0
    ensures bucket.outputTokens.Some? ==> r.output == bucket.outputTokens.value
    ensures bucket.cachedInputTokens.None? ==> r.cached == 0
    ensures bucket.cachedInputTokens.Some? ==> r.cached == bucket.cachedInputTokens.value
    ensures bucket.cacheCreationInputTokens.None? ==> r.cacheCreation == 0
    ensures bucket.cacheCreationInputTokens.Some? ==> r.cacheCreation == bucket.cacheCreationInputTokens.value
    ensures bucket.messageCount.None? ==> r.requests == 0
    ensures bucket.messageCount.Some? ==> r.requests == bucket.messageCount.value
  {
    Row(bucket.model.GetOr("unknown"), bucket.inputTokens.GetOr(0), bucket.outputTokens.GetOr(0),
        bucket.cachedInputTokens.GetOr(0), bucket.cacheCreationInputTokens.GetOr(0), bucket.messageCount.GetOr(0))
  }

  /** The plain sum of `cost_usd` over the cost report, a missing one
      counting 0. */
  function Cost(items: seq<Option<real>>): real {
    if items == [] then 0.0 else Cost(items[..|items| - 1]) + items[|items| - 1].GetOr(0.0)
  }

  /** Counting one usage bucket into the usage. */
  method CountBucket(usage: NormalizedUsage, bucket: UsageBucket, ghost rows: seq<Row>)
    requires Tracks(usage, rows)
    modifies usage`inputTokens, usage`outputTokens, usage`cachedTokens, usage`cacheCreationTokens, usage`requestCount, usage`byModel
    ensures Tracks(usage, rows + [RowOf(bucket)])
  {
    var row := RowOf(bucket);
    TotalsStep(rows, row);
    usage.inputTokens := usage.inputTokens + row.input;
    usage.outputTokens := usage.outputTokens + row.output;
    usage.cachedTokens := usage.cachedTokens + row.cached;
    usage.cacheCreationTokens := usage.cacheCreationTokens + row.cacheCreation;
    usage.requestCount := usage.requestCount + row.requests;
    CountIntoModel(usage, row, rows);
  }

  /** The loop over the usage buckets. */
  method CountBuckets(usage: NormalizedUsage, buckets: seq<UsageBucket>)
    requires Tracks(usage, [])
    modifies usage`inputTokens, usage`outputTokens, usage`cachedTokens, usage`cacheCreationTokens, usage`requestCount, usage`byModel
    ensures Tracks(usage, Records(buckets, RowOf))
  {
    for t := 0 to |buckets|
      invariant Tracks(usage, Records(buckets[..t], RowOf))
    {
      CountBucket(usage, buckets[t], Records(buckets[..t], RowOf));
      RecordsStep([], buckets, RowOf, t);
    }
    assert buckets[..|buckets|] == buckets;
  }

  /** The loop over the cost report. */
  method SumCost(items: seq<Option<real>>) returns (totalCost: real)
    ensures totalCost == Cost(items)
  {
    totalCost := 0.0;
    for t := 0 to |items|
      invariant totalCost == Cost(items[..t])
    {
      totalCost := totalCost + items[t].GetOr(0.0);
      assert items[..t + 1][..t] == items[..t];
    }
    assert items[..|items|] == items;
  }

  /** `_normalize`, with the model constructor zero-initialised (see the
      findings): totals and `by_model` are the fold of every usage bucket,
      each of the five totals equals the sum of its counter over
      `by_model`, and the cost is the plain sum of the cost report. */
  method Normalize(date: string, usageReport: seq<UsageBucket>, costReport: seq<Option<real>>,
                   syncedAt: Option<string>) returns (usage: NormalizedUsage)
    ensures fresh(usage)
    ensures usage.provider == "anthropic" && usage.date == date && usage.syncedAt == syncedAt
    ensures Tracks(usage, Records(usageReport, RowOf))
    ensures usageReport == [] ==> (usage.byModel == map[] && usage.inputTokens == 0 && usage.outputTokens == 0
      && usage.cachedTokens == 0 && usage.cacheCreationTokens == 0 && usage.requestCount == 0)
    ensures costReport == [] ==> usage.totalCostUsd == 0.0
    ensures forall k :: k in Distinct(Models(Records(usageReport, RowOf))) ==> k in usage.byModel
    ensures forall c :: CounterOf(usage, c) == SumOver(Distinct(Models(Records(usageReport, RowOf))), usage.byModel, c)
    ensures usage.totalCostUsd == Cost(costReport)
  {
    usage := new NormalizedUsage("anthropic", date, syncedAt);
    CountBuckets(usage, usageReport);
    var totalCost := SumCost(costReport);
    usage.totalCostUsd := totalCost;

    TracksSums(usage, Records(usageReport, RowOf));
    if usageReport == [] {
      assert Records(usageReport, RowOf) == [];
      TracksNothing(usage);
    }
  }
}
