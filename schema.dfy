/** The enterprise usage schema: per-model usage, one provider's normalised
    usage for a day, and the daily snapshot with its derived rates and
    market discount, plus their dict serialisers. */
module Schema {
  import opened Values

  /** One model's usage. */
  datatype ModelUsage = ModelUsage(
    modelId: string,
    inputTokens: int,
    outputTokens: int,
    cachedTokens: int,
    cacheCreationTokens: int,
    costUsd: real,
    requestCount: int)

  /** The dataclass constructor called with keywords: `model_id`,
      `input_tokens` and `output_tokens` have no default, so leaving one
      out raises `TypeError`; the other counters default to zero. */
  function NewModelUsage(modelId: string, inputTokens: Option<int>, outputTokens: Option<int>): (r: Result<ModelUsage>)
    ensures r.Ok? <==> inputTokens.Some? && outputTokens.Some?
    ensures r.Err? ==> r.exc == TypeError
    ensures r.Ok? ==> (r.value.modelId == modelId && r.value.inputTokens == inputTokens.value
      && r.value.outputTokens == outputTokens.value
      && r.value.cachedTokens == 0 && r.value.cacheCreationTokens == 0
      && r.value.costUsd == 0.0 && r.value.requestCount == 0)
  {
    if inputTokens.None? || outputTokens.None? then Err(TypeError)
    else Ok(ModelUsage(modelId, inputTokens.value, outputTokens.value, 0, 0, 0.0, 0))
  }

  /** A model's usage before anything is counted: the constructor with both
      required counters given as zero. */
  function EmptyModelUsage(modelId: string): (u: ModelUsage)
    ensures NewModelUsage(modelId, Some(0), Some(0)) == Ok(u)
  {
    ModelUsage(modelId, 0, 0, 0, 0, 0.0, 0)
  }

  /** The inner dict `NormalizedUsage.to_dict` writes for one model. */
  function ModelUsageDict(u: ModelUsage): Value {
    Obj(map[
      "model_id" := Str(u.modelId),
      "input_tokens" := Int(u.inputTokens),
      "output_tokens" := Int(u.outputTokens),
      "cached_tokens" := Int(u.cachedTokens),
      "cache_creation_tokens" := Int(u.cacheCreationTokens),
      "cost_usd" := Float(u.costUsd),
      "request_count" := Int(u.requestCount)])
  }

  /** The `by_model` dict: each model's dict under its key. */
  function ModelsDict(byModel: map<string, ModelUsage>): Value {
    Obj(map k | k in byModel :: ModelUsageDict(byModel[k]))
  }

  /** `synced_at.isoformat() if synced_at else None`. */
  function SyncedAtDict(syncedAt: Option<string>): Value {
    if syncedAt.Some? then Str(syncedAt.value) else Null
  }

  /** Reading a model's dict back; `None` when a field is missing or has
      the wrong type. */
  function ModelUsageFromDict(v: Value): Option<ModelUsage> {
    if !v.Obj? then None
    else
      var f := v.fields;
      if "model_id" in f && f["model_id"].Str?
        && "input_tokens" in f && f["input_tokens"].Int?
        && "output_tokens" in f && f["output_tokens"].Int?
        && "cached_tokens" in f && f["cached_tokens"].Int?
        && "cache_creation_tokens" in f && f["cache_creation_tokens"].Int?
        && "cost_usd" in f && f["cost_usd"].Float?
        && "request_count" in f && f["request_count"].Int?
      then Some(ModelUsage(f["model_id"].s, f["input_tokens"].i, f["output_tokens"].i, f["cached_tokens"].i,
                           f["cache_creation_tokens"].i, f["cost_usd"].r, f["request_count"].i))
      else None
  }

  /** The per-model dict keeps every field of the model's usage. */
  lemma ModelUsageRoundTrip(u: ModelUsage)
    ensures ModelUsageFromDict(ModelUsageDict(u)) == Some(u)
  {
  }

  /** The fields of a provider's usage that its dict holds: all but the
      raw response. */
  datatype UsageRecord = UsageRecord(
    provider: string,
    date: string,
    inputTokens: int,
    outputTokens: int,
    cachedTokens: int,
    cacheCreationTokens: int,
    totalCostUsd: real,
    requestCount: int,
    byModel: map<string, ModelUsage>,
    syncedAt: Option<string>)

  /** Reading the `by_model` dict back; `None` unless every entry reads. */
  function ModelsFromDict(v: Value): Option<map<string, ModelUsage>> {
    if v.Obj? && forall k :: k in v.fields ==> ModelUsageFromDict(v.fields[k]).Some?
    then Some(map k | k in v.fields :: ModelUsageFromDict(v.fields[k]).value)
    else None
  }

  /** Reading `synced_at` back: null is unset, text is the ISO time. */
  function SyncedAtFromDict(v: Value): Option<Option<string>> {
    match v
    case Null => Some(None)
    case Str(s) => Some(Some(s))
    case _ => None
  }

  /** Reading a provider's usage dict back; `None` when a field is missing
      or has the wrong type. */
  function UsageFromDict(v: Value): Option<UsageRecord> {
    if !v.Obj? then None
    else
      var f := v.fields;
      if "provider" in f && f["provider"].Str?
        && "date" in f && f["date"].Str?
        && "input_tokens" in f && f["input_tokens"].Int?
        && "output_tokens" in f && f["output_tokens"].Int?
        && "cached_tokens" in f && f["cached_tokens"].Int?
        && "cache_creation_tokens" in f && f["cache_creation_tokens"].Int?
        && "total_cost_usd" in f && f["total_cost_usd"].Float?
        && "request_count" in f && f["request_count"].Int?
        && "by_model" in f && ModelsFromDict(f["by_model"]).Some?
        && "synced_at" in f && SyncedAtFromDict(f["synced_at"]).Some?
      then Some(UsageRecord(f["provider"].s, f["date"].s, f["input_tokens"].i, f["output_tokens"].i,
                            f["cached_tokens"].i, f["cache_creation_tokens"].i, f["total_cost_usd"].r,
                            f["request_count"].i, ModelsFromDict(f["by_model"]).value,
                            SyncedAtFromDict(f["synced_at"]).value))
      else None
  }

  /** One provider's usage for one day. `syncedAt` is the ISO text of the
      sync time, which the model takes as given. */
  class NormalizedUsage {
    var provider: string
    var date: string
    var inputTokens: int
    var outputTokens: int
    var cachedTokens: int
    var cacheCreationTokens: int
    var totalCostUsd: real
    var requestCount: int
    var byModel: map<string, ModelUsage>
    var syncedAt: Option<string>
    var rawResponse: Option<Value>

    /** `NormalizedUsage(provider=…, date=…, synced_at=…)`: every counter
        zero and no models yet. */
    constructor(provider: string, date: string, syncedAt: Option<string>)
      ensures this.provider == provider && this.date == date && this.syncedAt == syncedAt
      ensures inputTokens == 0 && outputTokens == 0 && cachedTokens == 0 && cacheCreationTokens == 0
      ensures totalCostUsd == 0.0 && requestCount == 0
      ensures byModel == map[] && rawResponse == None
    {
      this.provider := provider;
      this.date := date;
      inputTokens, outputTokens, cachedTokens, cacheCreationTokens := 0, 0, 0, 0;
      totalCostUsd := 0.0;
      requestCount := 0;
      byModel := map[];
      this.syncedAt := syncedAt;
      rawResponse := None;
    }

    /** The fields the dict holds. */
    function Record(): UsageRecord
      reads this
    {
      UsageRecord(provider, date, inputTokens, outputTokens, cachedTokens, cacheCreationTokens,
                  totalCostUsd, requestCount, byModel, syncedAt)
    }

    /** `to_dict`: the counters, a per-model dict keyed as `byModel`, and
        the sync time or `None`. */
    function ToDict(): Value
      reads this
    {
      Obj(map[
        "provider" := Str(provider),
        "date" := Str(date),
        "input_tokens" := Int(inputTokens),
        "output_tokens" := Int(outputTokens),
        "cached_tokens" := Int(cachedTokens),
        "cache_creation_tokens" := Int(cacheCreationTokens),
        "total_cost_usd" := Float(totalCostUsd),
        "request_count" := Int(requestCount),
        "by_model" := ModelsDict(byModel),
        "synced_at" := SyncedAtDict(syncedAt)])
    }
  }

  /** The serialised usage reads back as every field of the usage but the
      raw response: the totals, the provider and date, each model's usage
      under its own key, and the sync time, null exactly when it is unset. */
  lemma NormalizedUsageDict(u: NormalizedUsage)
    ensures UsageFromDict(u.ToDict()) == Some(u.Record())
    ensures var d := u.ToDict();
      && d.Obj? && "by_model" in d.fields && d.fields["by_model"].Obj?
      && d.fields["by_model"].fields.Keys == u.byModel.Keys
      && "synced_at" in d.fields && (d.fields["synced_at"] == Null <==> u.syncedAt.None?)
  {
    var f := u.ToDict().fields;
    UsageTokens(u);
    UsageHeader(u);
    ModelsRoundTrip(u.byModel);
    assert f["by_model"] == ModelsDict(u.byModel);
    assert f["synced_at"] == SyncedAtDict(u.syncedAt);
  }

  /** The token counters of the serialised usage. */
  lemma UsageTokens(u: NormalizedUsage)
    ensures var f := u.ToDict().fields;
      && "input_tokens" in f && f["input_tokens"] == Int(u.inputTokens)
      && "output_tokens" in f && f["output_tokens"] == Int(u.outputTokens)
      && "cached_tokens" in f && f["cached_tokens"] == Int(u.cachedTokens)
      && "cache_creation_tokens" in f && f["cache_creation_tokens"] == Int(u.cacheCreationTokens)
  {
  }

  /** The provider, date, cost and request count of the serialised usage. */
  lemma UsageHeader(u: NormalizedUsage)
    ensures var f := u.ToDict().fields;
      && "provider" in f && f["provider"] == Str(u.provider)
      && "date" in f && f["date"] == Str(u.date)
      && "total_cost_usd" in f && f["total_cost_usd"] == Float(u.totalCostUsd)
      && "request_count" in f && f["request_count"] == Int(u.requestCount)
  {
  }

  /** Each model's dict reads back as its usage, under the same key. */
  lemma ModelsRoundTrip(byModel: map<string, ModelUsage>)
    ensures ModelsFromDict(ModelsDict(byModel)) == Some(byModel)
  {
    var d := ModelsDict(byModel);
    forall k | k in byModel
      ensures ModelUsageFromDict(d.fields[k]) == Some(byModel[k])
    {
      ModelUsageRoundTrip(byModel[k]);
    }
    assert (map k | k in d.fields :: ModelUsageFromDict(d.fields[k]).value) == byModel;
  }

  /** Every field of a daily snapshot, as one value. */
  datatype Snapshot = Snapshot(
    date: string,
    totalInputTokens: int,
    totalOutputTokens: int,
    totalCachedTokens: int,
    totalCostUsd: real,
    totalRequestCount: int,
    effectiveInputRate: real,
    effectiveOutputRate: real,
    effectiveBlendedRate: real,
    stciFrontierRate: real,
    discountVsMarket: real,
    percentileRank: Option<int>,
    cacheHitRate: real,
    batchPercentage: real,
    potentialSavingsUsd: real,
    byProvider: map<string, NormalizedUsage>)

  /** Rates are quoted per million tokens. */
  const PerMillion: real := 1000000.0

  /** Output tokens weigh three times as much as input tokens in the
      blended rate. */
  const OutputWeight: int := 3

  /** `calculate_rates` as a function of the snapshot: each effective rate
      is the total cost per million tokens of its kind, set only when the
      divisor is positive and otherwise left as it was; nothing else
      changes. */
  function WithRates(s: Snapshot): (r: Snapshot)
    ensures s.totalInputTokens > 0 ==>
      r.effectiveInputRate == s.totalCostUsd / (s.totalInputTokens as real) * PerMillion
    ensures s.totalInputTokens <= 0 ==> r.effectiveInputRate == s.effectiveInputRate
    ensures s.totalOutputTokens > 0 ==>
      r.effectiveOutputRate == s.totalCostUsd / (s.totalOutputTokens as real) * PerMillion
    ensures s.totalOutputTokens <= 0 ==> r.effectiveOutputRate == s.effectiveOutputRate
    ensures var blended := s.totalInputTokens + s.totalOutputTokens * OutputWeight;
      && (blended > 0 ==> r.effectiveBlendedRate == s.totalCostUsd / (blended as real) * PerMillion)
      && (blended <= 0 ==> r.effectiveBlendedRate == s.effectiveBlendedRate)
    ensures r.(effectiveInputRate := s.effectiveInputRate,
               effectiveOutputRate := s.effectiveOutputRate,
               effectiveBlendedRate := s.effectiveBlendedRate) == s
  {
    var withInput :=
      if s.totalInputTokens > 0
      then s.(effectiveInputRate := s.totalCostUsd / (s.totalInputTokens as real) * PerMillion)
      else s;
    var withOutput :=
      if s.totalOutputTokens > 0
      then withInput.(effectiveOutputRate := s.totalCostUsd / (s.totalOutputTokens as real) * PerMillion)
      else withInput;
    var blended := s.totalInputTokens + s.totalOutputTokens * OutputWeight;
    if blended > 0
    then withOutput.(effectiveBlendedRate := s.totalCostUsd / (blended as real) * PerMillion)
    else withOutput
  }

  /** With both kinds of tokens counted and a non-negative cost, the blended
      rate is at most the input rate and at most a third of the output
      rate: the blend spreads the same cost over more weighted tokens. */
  lemma BlendedRateBounds(s: Snapshot)
    requires s.totalInputTokens > 0 && s.totalOutputTokens > 0 && s.totalCostUsd >= 0.0
    ensures var r := WithRates(s);
      && r.effectiveBlendedRate <= r.effectiveInputRate
      && 3.0 * r.effectiveBlendedRate <= r.effectiveOutputRate
  {
    var c := s.totalCostUsd;
    var i, o := s.totalInputTokens as real, s.totalOutputTokens as real;
    var b := (s.totalInputTokens + s.totalOutputTokens * OutputWeight) as real;
    assert b == i + 3.0 * o;
    DivideByLarger(c, i, b);
    DivideByLarger(c, 3.0 * o, b);
    assert c / o == 3.0 * (c / (3.0 * o));
  }

  /** A non-negative amount spread over more is smaller. */
  lemma DivideByLarger(c: real, small: real, large: real)
    requires c >= 0.0 && 0.0 < small <= large
    ensures c / large <= c / small
  {
    var x, y := c / large, c / small;
    assert x * large == c && y * small == c;
    assert x >= 0.0 && y >= 0.0;
    assert y * large >= y * small;
  }

  /** `calculate_discount` as a function of the snapshot: the frontier rate
      is always stored; the discount is the frontier's excess over the
      blended rate as a fraction of the frontier, set only when both rates
      are positive; nothing else changes. */
  function WithDiscount(s: Snapshot, frontierRate: real): (r: Snapshot)
    ensures r.stciFrontierRate == frontierRate
    ensures frontierRate > 0.0 && s.effectiveBlendedRate > 0.0 ==>
      r.discountVsMarket == (frontierRate - s.effectiveBlendedRate) / frontierRate
    ensures !(frontierRate > 0.0 && s.effectiveBlendedRate > 0.0) ==> r.discountVsMarket == s.discountVsMarket
    ensures r.(stciFrontierRate := s.stciFrontierRate, discountVsMarket := s.discountVsMarket) == s
  {
    var stored := s.(stciFrontierRate := frontierRate);
    if frontierRate > 0.0 && s.effectiveBlendedRate > 0.0
    then stored.(discountVsMarket := (frontierRate - s.effectiveBlendedRate) / frontierRate)
    else stored
  }

  /** A computed discount is below 1, and it is positive exactly when the
      enterprise pays less than the frontier rate. */
  lemma DiscountMeaning(s: Snapshot, frontierRate: real)
    requires frontierRate > 0.0 && s.effectiveBlendedRate > 0.0
    ensures var d := WithDiscount(s, frontierRate).discountVsMarket;
      && d < 1.0
      && (d > 0.0 <==> s.effectiveBlendedRate < frontierRate)
  {
    var d := (frontierRate - s.effectiveBlendedRate) / frontierRate;
    assert d * frontierRate == frontierRate - s.effectiveBlendedRate;
  }

  /** A daily usage snapshot; its per-provider usage objects are shared
      with the caller. */
  class UsageSnapshot {
    var date: string
    var totalInputTokens: int
    var totalOutputTokens: int
    var totalCachedTokens: int
    var totalCostUsd: real
    var totalRequestCount: int
    var effectiveInputRate: real
    var effectiveOutputRate: real
    var effectiveBlendedRate: real
    var stciFrontierRate: real
    var discountVsMarket: real
    var percentileRank: Option<int>
    var cacheHitRate: real
    var batchPercentage: real
    var potentialSavingsUsd: real
    var byProvider: map<string, NormalizedUsage>

    /** The whole state of the snapshot. */
    function Fields(): Snapshot
      reads this
    {
      Snapshot(date, totalInputTokens, totalOutputTokens, totalCachedTokens, totalCostUsd, totalRequestCount,
               effectiveInputRate, effectiveOutputRate, effectiveBlendedRate, stciFrontierRate, discountVsMarket,
               percentileRank, cacheHitRate, batchPercentage, potentialSavingsUsd, byProvider)
    }

    /** `UsageSnapshot(date=…)`: every other field at its default. */
    constructor(date: string)
      ensures Fields() == Snapshot(date, 0, 0, 0, 0.0, 0, 0.0, 0.0, 0.0, 0.0, 0.0, None, 0.0, 0.0, 0.0, map[])
    {
      this.date := date;
      totalInputTokens, totalOutputTokens, totalCachedTokens := 0, 0, 0;
      totalCostUsd := 0.0;
      totalRequestCount := 0;
      effectiveInputRate, effectiveOutputRate, effectiveBlendedRate := 0.0, 0.0, 0.0;
      stciFrontierRate, discountVsMarket := 0.0, 0.0;
      percentileRank := None;
      cacheHitRate, batchPercentage, potentialSavingsUsd := 0.0, 0.0, 0.0;
      byProvider := map[];
    }

    /** `calculate_rates`. */
    method CalculateRates()
      modifies this
      ensures Fields() == WithRates(old(Fields()))
    {
      if totalInputTokens > 0 {
        effectiveInputRate := totalCostUsd / (totalInputTokens as real) * PerMillion;
      }
      if totalOutputTokens > 0 {
        effectiveOutputRate := totalCostUsd / (totalOutputTokens as real) * PerMillion;
      }
      var totalBlended := totalInputTokens + totalOutputTokens * OutputWeight;
      if totalBlended > 0 {
        effectiveBlendedRate := totalCostUsd / (totalBlended as real) * PerMillion;
      }
    }

    /** `calculate_discount`. */
    method CalculateDiscount(frontierRate: real)
      modifies this
      ensures Fields() == WithDiscount(old(Fields()), frontierRate)
    {
      stciFrontierRate := frontierRate;
      if frontierRate > 0.0 && effectiveBlendedRate > 0.0 {
        discountVsMarket := (frontierRate - effectiveBlendedRate) / frontierRate;
      }
    }

    /** `to_dict`: the totals, rates, benchmark and optimisation figures in
        nested dicts, and each provider's usage serialised under its key. */
    function ToDict(): Value
      reads this, byProvider.Values
    {
      var s := Fields();
      Obj(map[
        "date" := Str(date),
        "totals" := TotalsDict(s),
        "rates" := RatesDict(s),
        "benchmark" := BenchmarkDict(s),
        "optimization" := OptimizationDict(s),
        "by_provider" := Obj(map k | k in byProvider :: byProvider[k].ToDict())])
    }
  }

  /** The `totals` section of a snapshot's dict. */
  function TotalsDict(s: Snapshot): Value {
    Obj(map[
      "input_tokens" := Int(s.totalInputTokens),
      "output_tokens" := Int(s.totalOutputTokens),
      "cached_tokens" := Int(s.totalCachedTokens),
      "cost_usd" := Float(s.totalCostUsd),
      "request_count" := Int(s.totalRequestCount)])
  }

  /** The `rates` section. */
  function RatesDict(s: Snapshot): Value {
    Obj(map[
      "effective_input_rate" := Float(s.effectiveInputRate),
      "effective_output_rate" := Float(s.effectiveOutputRate),
      "effective_blended_rate" := Float(s.effectiveBlendedRate)])
  }

  /** The `benchmark` section; an unset percentile rank is `None`. */
  function BenchmarkDict(s: Snapshot): Value {
    Obj(map[
      "stci_frontier_rate" := Float(s.stciFrontierRate),
      "discount_vs_market" := Float(s.discountVsMarket),
      "percentile_rank" := if s.percentileRank.Some? then Int(s.percentileRank.value) else Null])
  }

  /** The `optimization` section. */
  function OptimizationDict(s: Snapshot): Value {
    Obj(map[
      "cache_hit_rate" := Float(s.cacheHitRate),
      "batch_percentage" := Float(s.batchPercentage),
      "potential_savings_usd" := Float(s.potentialSavingsUsd)])
  }

  /** Reading the `totals` section back: input, output and cached tokens,
      cost and request count. */
  function TotalsFromDict(v: Value): Option<(int, int, int, real, int)> {
    if !v.Obj? then None
    else
      var f := v.fields;
      if "input_tokens" in f && f["input_tokens"].Int?
        && "output_tokens" in f && f["output_tokens"].Int?
        && "cached_tokens" in f && f["cached_tokens"].Int?
        && "cost_usd" in f && f["cost_usd"].Float?
        && "request_count" in f && f["request_count"].Int?
      then Some((f["input_tokens"].i, f["output_tokens"].i, f["cached_tokens"].i, f["cost_usd"].r, f["request_count"].i))
      else None
  }

  /** Reading the `rates` section back: input, output and blended rates. */
  function RatesFromDict(v: Value): Option<(real, real, real)> {
    if !v.Obj? then None
    else
      var f := v.fields;
      if "effective_input_rate" in f && f["effective_input_rate"].Float?
        && "effective_output_rate" in f && f["effective_output_rate"].Float?
        && "effective_blended_rate" in f && f["effective_blended_rate"].Float?
      then Some((f["effective_input_rate"].r, f["effective_output_rate"].r, f["effective_blended_rate"].r))
      else None
  }

  /** Reading a percentile rank back: null is unset. */
  function RankFromDict(v: Value): Option<Option<int>> {
    match v
    case Null => Some(None)
    case Int(i) => Some(Some(i))
    case _ => None
  }

  /** Reading the `benchmark` section back: frontier rate, discount and
      percentile rank. */
  function BenchmarkFromDict(v: Value): Option<(real, real, Option<int>)> {
    if !v.Obj? then None
    else
      var f := v.fields;
      if "stci_frontier_rate" in f && f["stci_frontier_rate"].Float?
        && "discount_vs_market" in f && f["discount_vs_market"].Float?
        && "percentile_rank" in f && RankFromDict(f["percentile_rank"]).Some?
      then Some((f["stci_frontier_rate"].r, f["discount_vs_market"].r, RankFromDict(f["percentile_rank"]).value))
      else None
  }

  /** Reading the `optimization` section back: cache hit rate, batch
      percentage and potential savings. */
  function OptimizationFromDict(v: Value): Option<(real, real, real)> {
    if !v.Obj? then None
    else
      var f := v.fields;
      if "cache_hit_rate" in f && f["cache_hit_rate"].Float?
        && "batch_percentage" in f && f["batch_percentage"].Float?
        && "potential_savings_usd" in f && f["potential_savings_usd"].Float?
      then Some((f["cache_hit_rate"].r, f["batch_percentage"].r, f["potential_savings_usd"].r))
      else None
  }

  /** Reading a snapshot's dict back. The per-provider usage objects are
      not rebuilt from their dicts: the caller's map is taken as given. */
  function SnapshotFromDict(v: Value, byProvider: map<string, NormalizedUsage>): Option<Snapshot> {
    if !v.Obj? then None
    else
      var f := v.fields;
      if "date" in f && f["date"].Str? && "totals" in f && "rates" in f && "benchmark" in f && "optimization" in f
      then
        match (TotalsFromDict(f["totals"]), RatesFromDict(f["rates"]),
               BenchmarkFromDict(f["benchmark"]), OptimizationFromDict(f["optimization"]))
        case (Some(t), Some(r), Some(b), Some(o)) =>
          Some(Snapshot(f["date"].s, t.0, t.1, t.2, t.3, t.4, r.0, r.1, r.2, b.0, b.1, b.2, o.0, o.1, o.2, byProvider))
        case _ => None
      else None
  }

  /** The `totals` section keeps the five totals. */
  lemma TotalsRoundTrip(s: Snapshot)
    ensures TotalsFromDict(TotalsDict(s)) ==
      Some((s.totalInputTokens, s.totalOutputTokens, s.totalCachedTokens, s.totalCostUsd, s.totalRequestCount))
  {
  }

  /** The `rates` section keeps the three effective rates. */
  lemma RatesRoundTrip(s: Snapshot)
    ensures RatesFromDict(RatesDict(s)) == Some((s.effectiveInputRate, s.effectiveOutputRate, s.effectiveBlendedRate))
  {
  }

  /** The `benchmark` section keeps the frontier rate, the discount and the
      percentile rank, which is null exactly when it is unset. */
  lemma BenchmarkRoundTrip(s: Snapshot)
    ensures BenchmarkFromDict(BenchmarkDict(s)) == Some((s.stciFrontierRate, s.discountVsMarket, s.percentileRank))
    ensures BenchmarkDict(s).fields["percentile_rank"] == Null <==> s.percentileRank.None?
  {
  }

  /** The `optimization` section keeps the three optimisation figures. */
  lemma OptimizationRoundTrip(s: Snapshot)
    ensures OptimizationFromDict(OptimizationDict(s)) == Some((s.cacheHitRate, s.batchPercentage, s.potentialSavingsUsd))
  {
  }

  /** The serialised snapshot reads back as every field of the snapshot:
      the date, the totals, rates, benchmark and optimisation figures from
      their sections, and `by_provider` keyed as the snapshot, each entry
      reading back as that provider's usage. */
  lemma SnapshotDict(s: UsageSnapshot)
    ensures SnapshotFromDict(s.ToDict(), s.byProvider) == Some(s.Fields())
    ensures var d := s.ToDict();
      && d.Obj? && "by_provider" in d.fields && d.fields["by_provider"].Obj?
      && d.fields["by_provider"].fields.Keys == s.byProvider.Keys
      && (forall k :: k in s.byProvider ==> UsageFromDict(d.fields["by_provider"].fields[k]) == Some(s.byProvider[k].Record()))
  {
    var f := s.ToDict().fields;
    var v := s.Fields();
    SnapshotSections(s);
    TotalsRoundTrip(v);
    RatesRoundTrip(v);
    BenchmarkRoundTrip(v);
    OptimizationRoundTrip(v);
    forall k | k in s.byProvider
      ensures UsageFromDict(f["by_provider"].fields[k]) == Some(s.byProvider[k].Record())
    {
      NormalizedUsageDict(s.byProvider[k]);
    }
  }

  /** Where each section sits in the serialised snapshot. */
  lemma SnapshotSections(s: UsageSnapshot)
    ensures var f := s.ToDict().fields;
      && "date" in f && f["date"] == Str(s.date)
      && "totals" in f && f["totals"] == TotalsDict(s.Fields())
      && "rates" in f && f["rates"] == RatesDict(s.Fields())
      && "benchmark" in f && f["benchmark"] == BenchmarkDict(s.Fields())
      && "optimization" in f && f["optimization"] == OptimizationDict(s.Fields())
      && "by_provider" in f && f["by_provider"] == Obj(map k | k in s.byProvider :: s.byProvider[k].ToDict())
  {
  }
}
