/** `OpenAIDirectSource`: official OpenAI prices kept in a YAML file and
    turned into observations. The parsed file is given to the model as a
    `Config`: its top-level `source_url` and its `models` mapping as the
    ordered list of (model id, model data) items that `.items()` yields. */
module OpenAIDirect {
  import opened Values
  import opened Runtime
  import opened Sources

  /** The parsed pricing file. `None` stands for a key the file lacks. */
  datatype Config = Config(sourceUrl: Option<Value>, models: Option<seq<(Value, Value)>>)

  /** Where the source looks when it is given no path. */
  const DefaultConfigPath: string := "data/fixtures/openai_pricing.yaml"

  /** The page cited when the file names no `source_url`. */
  const DefaultSourceUrl: string := "https://openai.com/api/pricing/"

  /** `config.get("source_url", DefaultSourceUrl)`. */
  function SourceUrl(config: Config): (r: Value)
    ensures config.sourceUrl.None? ==> r == Str(DefaultSourceUrl)
    ensures config.sourceUrl.Some? ==> r == config.sourceUrl.value
  {
    config.sourceUrl.GetOr(Str(DefaultSourceUrl))
  }

  /** `float(v)` where a failure is not caught: text that does not parse
      raises `ValueError`, anything else that is not a number `TypeError`. */
  function FloatOf(env: Env, v: Value): (r: Result<real>)
    ensures AsNumber(v).Some? ==> r == Ok(AsNumber(v).value)
    ensures v.Null? || v.Arr? || v.Obj? ==> r == Err(TypeError)
    ensures v.Str? ==> (r.Ok? <==> env.parseFloat(v.s).Some?) && (r.Ok? ==> r.value == env.parseFloat(v.s).value)
    ensures r.Err? ==> (v.Str? && r.exc == ValueError) || (!v.Str? && r.exc == TypeError)
  {
    match v
    case Str(s) => if env.parseFloat(s).Some? then Ok(env.parseFloat(s).value) else Err(ValueError)
    case Bool(b) => Ok(if b then 1.0 else 0.0)
    case Int(i) => Ok(i as real)
    case Float(x) => Ok(x)
    case _ => Err(TypeError)
  }

  /** The fourteen fields every observation of this source carries. */
  function BaseObservation(env: Env, modelId: Value, inputRate: real, outputRate: real,
                           date: string, collectedAt: string, sourceUrl: Value): Obs
  {
    var name := Show(modelId, env.repr);
    map[
      "observation_id" := Str("obs-" + date + "-openai-" + name),
      "schema_version" := Str("1.0.0"),
      "provider" := Str("openai"),
      "model_id" := Str("openai/" + name),
      "model_display_name" := modelId,
      "input_rate_usd_per_1m" := Float(env.round(inputRate, 6)),
      "output_rate_usd_per_1m" := Float(env.round(outputRate, 6)),
      "effective_date" := Str(date),
      "collected_at" := Str(collectedAt),
      "source_url" := sourceUrl,
      "source_tier" := Str("T1"),
      "currency" := Str("USD"),
      "collection_method" := Str("config_file"),
      "confidence_level" := Str("high")]
  }

  /** The observation id `obs-{date}-openai-{id}`, the id shown as
      Python's `str` shows it. */
  lemma BaseObservationId(env: Env, modelId: Value, inputRate: real, outputRate: real,
                          date: string, collectedAt: string, sourceUrl: Value)
    ensures var obs := BaseObservation(env, modelId, inputRate, outputRate, date, collectedAt, sourceUrl);
      "observation_id" in obs && obs["observation_id"] == Str("obs-" + date + "-openai-" + Show(modelId, env.repr))
  {
  }

  /** The model id `openai/{id}` and the provider `openai`. */
  lemma BaseModelId(env: Env, modelId: Value, inputRate: real, outputRate: real,
                    date: string, collectedAt: string, sourceUrl: Value)
    ensures var obs := BaseObservation(env, modelId, inputRate, outputRate, date, collectedAt, sourceUrl);
      && "model_id" in obs && obs["model_id"] == Str("openai/" + Show(modelId, env.repr))
      && "provider" in obs && obs["provider"] == Str("openai")
  {
  }

  /** Both rates, rounded to six places. */
  lemma BaseRates(env: Env, modelId: Value, inputRate: real, outputRate: real,
                  date: string, collectedAt: string, sourceUrl: Value)
    ensures var obs := BaseObservation(env, modelId, inputRate, outputRate, date, collectedAt, sourceUrl);
      && "input_rate_usd_per_1m" in obs && obs["input_rate_usd_per_1m"] == Float(env.round(inputRate, 6))
      && "output_rate_usd_per_1m" in obs && obs["output_rate_usd_per_1m"] == Float(env.round(outputRate, 6))
  {
  }

  /** The tier, currency and method, fixed for this source. */
  lemma BaseFixed(env: Env, modelId: Value, inputRate: real, outputRate: real,
                  date: string, collectedAt: string, sourceUrl: Value)
    ensures var obs := BaseObservation(env, modelId, inputRate, outputRate, date, collectedAt, sourceUrl);
      && "source_tier" in obs && obs["source_tier"] == Str("T1")
      && "currency" in obs && obs["currency"] == Str("USD")
      && "collection_method" in obs && obs["collection_method"] == Str("config_file")
  {
  }

  /** The target date and the cited page. */
  lemma BaseDateUrl(env: Env, modelId: Value, inputRate: real, outputRate: real,
                    date: string, collectedAt: string, sourceUrl: Value)
    ensures var obs := BaseObservation(env, modelId, inputRate, outputRate, date, collectedAt, sourceUrl);
      && "effective_date" in obs && obs["effective_date"] == Str(date)
      && "source_url" in obs && obs["source_url"] == sourceUrl
  {
  }

  /** Neither optional field is among the base fields. */
  lemma BaseNoOptional(env: Env, modelId: Value, inputRate: real, outputRate: real,
                       date: string, collectedAt: string, sourceUrl: Value)
    ensures var obs := BaseObservation(env, modelId, inputRate, outputRate, date, collectedAt, sourceUrl);
      "context_window" !in obs && "model_tier" !in obs
  {
  }

  /** The observation for model `modelId` with the two converted rates:
      the base fields plus the context window and tier when truthy. */
  function ConfigObservation(env: Env, modelId: Value, data: Obs, inputRate: real, outputRate: real,
                             date: string, collectedAt: string, sourceUrl: Value): Obs
  {
    var base := BaseObservation(env, modelId, inputRate, outputRate, date, collectedAt, sourceUrl);
    var contextWindow := GetOr(data, "context_window", Null);
    var withContext := if Truthy(contextWindow) then base["context_window" := contextWindow] else base;
    var tier := GetOr(data, "tier", Null);
    if Truthy(tier) then withContext["model_tier" := tier] else withContext
  }

  /** The loop body of `fetch` for one (model id, model data) item: raise,
      skip an entry without pricing, or emit an observation. */
  function ConfigEntry(env: Env, item: (Value, Value), date: string, collectedAt: string, sourceUrl: Value): Result<Option<Obs>> {
    var (modelId, data) := item;
    if !data.Obj? then Err(AttributeError)
    else
      var input := GetOr(data.fields, "input_rate", Int(0));
      var output := GetOr(data.fields, "output_rate", Int(0));
      if EqualsZero(input) && EqualsZero(output) then Ok(None)
      else
        match FloatOf(env, input)
        case Err(e) => Err(e)
        case Ok(inputRate) =>
          match FloatOf(env, output)
          case Err(e) => Err(e)
          case Ok(outputRate) =>
            Ok(Some(ConfigObservation(env, modelId, data.fields, inputRate, outputRate, date, collectedAt, sourceUrl)))
  }

  function ConfigEntryFor(env: Env, date: string, collectedAt: string, sourceUrl: Value): ((Value, Value)) -> Result<Option<Obs>> {
    item => ConfigEntry(env, item, date, collectedAt, sourceUrl)
  }

  /** The list `fetch` returns once the configuration is loaded, or the
      exception it raises. A file without `models` gives no observations. */
  function ConfigObservations(env: Env, config: Config, date: string, collectedAt: string): Result<seq<Obs>> {
    Gather(ConfigEntryFor(env, date, collectedAt, SourceUrl(config)), config.models.GetOr([]))
  }

  /** An entry is skipped exactly when both of its rates, each defaulting
      to 0, equal zero. */
  lemma ConfigEntrySkipRule(env: Env, modelId: Value, data: Obs, date: string, collectedAt: string, sourceUrl: Value)
    ensures ConfigEntry(env, (modelId, Obj(data)), date, collectedAt, sourceUrl) == Ok(None)
      <==> EqualsZero(GetOr(data, "input_rate", Int(0))) && EqualsZero(GetOr(data, "output_rate", Int(0)))
  {
  }

  /** A built observation is the base observation, plus a context window
      and a tier exactly when the entry gives truthy ones. */
  lemma ConfigObservationFields(env: Env, modelId: Value, data: Obs, inputRate: real, outputRate: real,
                                date: string, collectedAt: string, sourceUrl: Value)
    ensures var obs := ConfigObservation(env, modelId, data, inputRate, outputRate, date, collectedAt, sourceUrl);
      var base := BaseObservation(env, modelId, inputRate, outputRate, date, collectedAt, sourceUrl);
      && (forall k :: k in base ==> k in obs && obs[k] == base[k])
      && ("context_window" in obs <==> Truthy(GetOr(data, "context_window", Null)))
      && ("model_tier" in obs <==> Truthy(GetOr(data, "tier", Null)))
  {
    BaseNoOptional(env, modelId, inputRate, outputRate, date, collectedAt, sourceUrl);
  }

  /** An observation is emitted only for a data dict whose rates are not
      both zero and both convert; it is built from those converted rates.
      The `Base` lemmas and `ConfigObservationFields` say what it holds. */
  lemma ConfigEntryObservation(env: Env, modelId: Value, data: Value, date: string, collectedAt: string, sourceUrl: Value, obs: Obs)
    requires ConfigEntry(env, (modelId, data), date, collectedAt, sourceUrl) == Ok(Some(obs))
    ensures data.Obj?
    ensures var input, output := GetOr(data.fields, "input_rate", Int(0)), GetOr(data.fields, "output_rate", Int(0));
      && !(EqualsZero(input) && EqualsZero(output))
      && FloatOf(env, input).Ok? && FloatOf(env, output).Ok?
      && obs == ConfigObservation(env, modelId, data.fields, FloatOf(env, input).value, FloatOf(env, output).value,
                                  date, collectedAt, sourceUrl)
  {
  }

  /** How many elements the loop emits an observation for. */
  function Emitted<T>(entry: T -> Result<Option<Obs>>, xs: seq<T>): nat {
    if xs == [] then 0
    else
      var n := |xs| - 1;
      Emitted(entry, xs[..n]) + (if entry(xs[n]).Ok? && entry(xs[n]).value.Some? then 1 else 0)
  }

  /** One observation per entry that is not skipped. */
  lemma {:induction false} GatherLength<T>(entry: T -> Result<Option<Obs>>, xs: seq<T>)
    requires Gather(entry, xs).Ok?
    ensures |Gather(entry, xs).value| == Emitted(entry, xs)
  {
    if xs != [] {
      GatherLength(entry, xs[..|xs| - 1]);
    }
  }

  /** `fetch` emits one observation per priced entry, in the order of the
      `models` mapping, each built from its own entry. */
  lemma ConfigObservationsOrder(env: Env, config: Config, date: string, collectedAt: string)
    requires ConfigObservations(env, config, date, collectedAt).Ok?
    ensures var step := ConfigEntryFor(env, date, collectedAt, SourceUrl(config));
      var items := config.models.GetOr([]);
      var r := ConfigObservations(env, config, date, collectedAt).value;
      && |r| == Emitted(step, items)
      && forall o :: o in r ==> exists i :: 0 <= i < |items| && ConfigEntry(env, items[i], date, collectedAt, SourceUrl(config)) == Ok(Some(o))
  {
    var step := ConfigEntryFor(env, date, collectedAt, SourceUrl(config));
    var items := config.models.GetOr([]);
    GatherLength(step, items);
    GatherFromEntries(step, items);
  }

  /** The loop keeps the order of the `models` mapping: cut the items
      anywhere, and the observations are those of the first part followed
      by those of the rest. */
  lemma ConfigObservationsSplit(env: Env, config: Config, date: string, collectedAt: string, t: nat)
    requires ConfigObservations(env, config, date, collectedAt).Ok?
    requires t <= |config.models.GetOr([])|
    ensures var step := ConfigEntryFor(env, date, collectedAt, SourceUrl(config));
      var items := config.models.GetOr([]);
      && Gather(step, items[..t]).Ok? && Gather(step, items[t..]).Ok?
      && ConfigObservations(env, config, date, collectedAt).value
         == Gather(step, items[..t]).value + Gather(step, items[t..]).value
  {
    var step := ConfigEntryFor(env, date, collectedAt, SourceUrl(config));
    var items := config.models.GetOr([]);
    assert items[..t] + items[t..] == items;
    GatherAppend(step, items[..t], items[t..]);
  }

  class OpenAIDirectSource {
    var configPath: string
    /** The configuration once loaded; `None` until the first fetch. */
    var config: Option<Config>

    constructor(configPath: Option<string>)
      ensures this.configPath == configPath.GetOr(DefaultConfigPath)
      ensures config == None
    {
      this.configPath := configPath.GetOr(DefaultConfigPath);
      config := None;
    }

    /** `_load_config`: read `file` (what parsing the file at `configPath`
        gives, `None` when it does not exist) only when nothing is cached,
        and keep it. */
    method LoadConfig(file: Option<Config>) returns (r: Result<Config>)
      modifies this
      ensures configPath == old(configPath)
      ensures old(config).Some? ==> r == Ok(old(config).value) && config == old(config)
      ensures old(config).None? && file.None? ==> r == Err(FileNotFound) && config == None
      ensures old(config).None? && file.Some? ==> r == Ok(file.value) && config == file
    {
      if config.None? {
        if file.None? {
          return Err(FileNotFound);
        }
        config := file;
      }
      r := Ok(config.value);
    }

    /** `fetch`: load the configuration, then build one observation per
        priced model entry. */
    method Fetch(env: Env, file: Option<Config>, date: string, collectedAt: string) returns (r: Result<seq<Obs>>)
      modifies this
      ensures configPath == old(configPath)
      ensures var loaded := if old(config).Some? then old(config) else file;
        && config == loaded
        && (loaded.None? ==> r == Err(FileNotFound))
        && (loaded.Some? ==> r == ConfigObservations(env, loaded.value, date, collectedAt))
    {
      var loaded := LoadConfig(file);
      if loaded.Err? {
        return Err(loaded.exc);
      }
      var cfg := loaded.value;
      var items := cfg.models.GetOr([]);
      var sourceUrl := SourceUrl(cfg);
      var step := ConfigEntryFor(env, date, collectedAt, sourceUrl);
      var observations: seq<Obs> := [];
      for t := 0 to |items|
        invariant Gather(step, items[..t]) == Ok(observations)
      {
        assert items[..t + 1][..t] == items[..t];
        var entry := ConfigEntry(env, items[t], date, collectedAt, sourceUrl);
        assert entry == step(items[t]);
        if entry.Err? {
          GatherKeepsError(step, items, t + 1, entry.exc);
          return Err(entry.exc);
        }
        if entry.value.Some? {
          observations := observations + [entry.value.value];
        }
      }
      assert items[..|items|] == items;
      r := Ok(observations);
    }
  }
}
