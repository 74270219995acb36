/** `OpenAIUsageClient._normalize`: the completions usage report (buckets of
    per-model results) and the costs report (buckets of results carrying an
    amount in cents) folded into one `NormalizedUsage`. The two reports are
    given as their bucket lists; a missing `data` or `results` list is an
    empty one. */
module OpenAIUsage {
  import opened Values
  import opened Grouping
  import opened Schema
  import opened UsageFold

  /** One completions result; `None` for a field the result lacks. */
  datatype CompletionResult = CompletionResult(
    model: Option<string>,
    inputTokens: Option<int>,
    outputTokens: Option<int>,
    inputCachedTokens: Option<int>,
    numModelRequests: Option<int>)

  /** How the loop reads one result: a missing count is 0 and a missing
      model `"unknown"`. This source reports no cache-creation tokens. */
  function RowOf(res: CompletionResult): (r: Row)
    ensures r.cacheCreation == 0
    ensures res.model.None? ==> r.model == "unknown"
    ensures res.model.Some? ==> r.model == res.model.value
    ensures res.inputTokens.None? ==> r.input == 0
    ensures res.inputTokens.Some? ==> r.input == res.inputTokens.value
    ensures res.outputTokens.None? ==> r.output == 0
    ensures res.outputTokens.Some? ==> r.output == res.outputTokens.value
    ensures res.inputCachedTokens.None? ==> r.cached == 0
    ensures res.inputCachedTokens.Some? ==> r.cached == res.inputCachedTokens.value
    ensures res.numModelRequests.None? ==> r.requests == 0
    ensures res.numModelRequests.Some? ==> r.requests == res.numModelRequests.value
  {
    Row(res.model.GetOr("unknown"), res.inputTokens.GetOr(0), res.outputTokens.GetOr(0),
        res.inputCachedTokens.GetOr(0), 0, res.numModelRequests.GetOr(0))
  }

  /** The records of all buckets, bucket by bucket. */
  function Rows(buckets: seq<seq<CompletionResult>>): seq<Row> {
    if buckets == [] then []
    else
      var n := |buckets| - 1;
      Rows(buckets[..n]) + Records(buckets[n], RowOf)
  }

  /** The cent amounts of all cost results; a result without an amount or
      an amount without a value counts 0. */
  function Cents(buckets: seq<seq<Option<real>>>): real {
    if buckets == [] then 0.0
    else
      var n := |buckets| - 1;
      Cents(buckets[..n]) + Sum(buckets[n])
  }

  function Sum(amounts: seq<Option<real>>): real {
    if amounts == [] then 0.0 else Sum(amounts[..|amounts| - 1]) + amounts[|amounts| - 1].GetOr(0.0)
  }

  /** A result without cache-creation tokens leaves that counter alone, so
      the fold over such records keeps it at zero. */
  lemma {:induction false} NoCacheCreation(buckets: seq<seq<CompletionResult>>)
    ensures Total(Rows(buckets), CacheCreation) == 0
  {
    if buckets != [] {
      var n := |buckets| - 1;
      var tail := Records(buckets[n], RowOf);
      NoCacheCreation(buckets[..n]);
      TotalAppend(Rows(buckets[..n]), tail, CacheCreation);
      NoCacheCreationIn(tail);
    }
  }

  lemma {:induction false} NoCacheCreationIn(rows: seq<Row>)
    requires forall i :: 0 <= i < |rows| ==> rows[i].cacheCreation == 0
    ensures Total(rows, CacheCreation) == 0
  {
    if rows != [] {
      NoCacheCreationIn(rows[..|rows| - 1]);
    }
  }

  /** Counting one completions result into the usage. */
  method CountResult(usage: NormalizedUsage, result: CompletionResult, ghost rows: seq<Row>)
    requires Tracks(usage, rows)
    modifies usage`inputTokens, usage`outputTokens, usage`cachedTokens, usage`requestCount, usage`byModel
    ensures Tracks(usage, rows + [RowOf(result)])
  {
    var row := RowOf(result);
    TotalsStep(rows, row);
    usage.inputTokens := usage.inputTokens + row.input;
    usage.outputTokens := usage.outputTokens + row.output;
    usage.cachedTokens := usage.cachedTokens + row.cached;
    usage.requestCount := usage.requestCount + row.requests;
    CountIntoModel(usage, row, rows);
  }

  /** The loop over the completions buckets. */
  method CountCompletions(usage: NormalizedUsage, completions: seq<seq<CompletionResult>>)
    requires Tracks(usage, [])
    modifies usage`inputTokens, usage`outputTokens, usage`cachedTokens, usage`requestCount, usage`byModel
    ensures Tracks(usage, Rows(completions))
  {
    for b := 0 to |completions|
      invariant Tracks(usage, Rows(completions[..b]))
    {
      CountResults(usage, completions[b], Rows(completions[..b]));
      assert completions[..b + 1][..b] == completions[..b];
    }
    assert completions[..|completions|] == completions;
  }

  /** The inner loop over one bucket's results. */
  method CountResults(usage: NormalizedUsage, results: seq<CompletionResult>, ghost before: seq<Row>)
    requires Tracks(usage, before)
    modifies usage`inputTokens, usage`outputTokens, usage`cachedTokens, usage`requestCount, usage`byModel
    ensures Tracks(usage, before + Records(results, RowOf))
  {
    assert before + Records(results[..0], RowOf) == before;
    for j := 0 to |results|
      invariant Tracks(usage, before + Records(results[..j], RowOf))
    {
      ghost var done := Records(results[..j], RowOf);
      CountResult(usage, results[j], before + done);
      RecordsStep(before, results, RowOf, j);
    }
    assert results[..|results|] == results;
  }

  /** The loop over the cost buckets and their results, in cents. */
  method SumCents(costs: seq<seq<Option<real>>>) returns (totalCostCents: real)
    ensures totalCostCents == Cents(costs)
  {
    totalCostCents := 0.0;
    for b := 0 to |costs|
      invariant totalCostCents == Cents(costs[..b])
    {
      var bucket := costs[b];
      for j := 0 to |bucket|
        invariant totalCostCents == Cents(costs[..b]) + Sum(bucket[..j])
      {
        var costCents := bucket[j].GetOr(0.0);
        totalCostCents := totalCostCents + costCents;
        assert bucket[..j + 1][..j] == bucket[..j];
      }
      assert bucket[..|bucket|] == bucket;
      assert costs[..b + 1][..b] == costs[..b];
    }
    assert costs[..|costs|] == costs;
  }

  /** `_normalize`, with the model constructor zero-initialised (see the
      findings): totals and `by_model` are the fold of every completions
      result, each total equals the sum of its counter over `by_model`, no
      cache-creation tokens are counted, and the cost is the sum of the
      cent amounts over 100. */
  method Normalize(date: string, completions: seq<seq<CompletionResult>>, costs: seq<seq<Option<real>>>,
                   syncedAt: Option<string>) returns (usage: NormalizedUsage)
    ensures fresh(usage)
    ensures usage.provider == "openai" && usage.date == date && usage.syncedAt == syncedAt
    ensures Tracks(usage, Rows(completions))
    ensures completions == [] ==> (usage.byModel == map[] && usage.inputTokens == 0 && usage.outputTokens == 0
      && usage.cachedTokens == 0 && usage.cacheCreationTokens == 0 && usage.requestCount == 0)
    ensures costs == [] ==> usage.totalCostUsd == 0.0
    ensures usage.cacheCreationTokens == 0
    ensures forall k :: k in Distinct(Models(Rows(completions))) ==> k in usage.byModel
    ensures forall c :: CounterOf(usage, c) == SumOver(Distinct(Models(Rows(completions))), usage.byModel, c)
    ensures usage.totalCostUsd == Cents(costs) / 100.0
  {
    usage := new NormalizedUsage("openai", date, syncedAt);
    CountCompletions(usage, completions);
    var totalCostCents := SumCents(costs);
    usage.totalCostUsd := totalCostCents / 100.0;

    NoCacheCreation(completions);
    TracksSums(usage, Rows(completions));
    if completions == [] {
      assert Rows(completions) == [];
      TracksNothing(usage);
    }
  }
}
