/** The observation builders of the collector's data sources: the
    per-model normalisation loop of `OpenRouterSource.fetch`, run on the
    `data` list of the API response, and the rewrite loop of
    `FixtureSource.fetch`, run on the loaded fixture list. */
module Sources {
  import opened Values
  import opened Text
  import opened Runtime

  /** Rates arrive in dollars per token and are stored per million tokens. */
  const PerMillion: real := 1000000.0

  /** `float(v)`, or `None` where it raises `ValueError` or `TypeError`.
      Booleans and integers convert as Python converts them. */
  function ToFloat(env: Env, v: Value): (r: Option<real>)
    ensures v.Null? || v.Arr? || v.Obj? ==> r.None?
    ensures AsNumber(v).Some? ==> r == AsNumber(v)
  {
    match v
    case Str(s) => env.parseFloat(s)
    case _ => AsNumber(v)
  }

  /** The text before the first `/` of a model id, or `"unknown"` when it
      has none. */
  function ProviderOf(id: string): string {
    if '/' in id then Split(id, '/')[0] else "unknown"
  }

  /** The first piece of a split stops at the first separator. */
  lemma {:induction false} SplitFirst(s: string, c: char)
    ensures c !in Split(s, c)[0]
    ensures c in s ==> exists tail :: s == Split(s, c)[0] + [c] + tail
  {
    if s != [] {
      SplitFirst(s[1..], c);
      if s[0] == c {
        assert s == [] + [c] + s[1..];
      } else if c in s {
        assert c in s[1..];
        var tail :| s[1..] == Split(s[1..], c)[0] + [c] + tail;
        assert s == ([s[0]] + Split(s[1..], c)[0]) + [c] + tail;
      }
    }
  }

  /** The provider is the id's leading segment: the id is the provider, a
      `/` and the rest, and the provider holds no `/`. Without a `/` it is
      `"unknown"`. */
  lemma ProviderOfSplits(id: string)
    ensures '/' in id ==> '/' !in ProviderOf(id) && exists rest :: id == ProviderOf(id) + "/" + rest
    ensures '/' !in id ==> ProviderOf(id) == "unknown"
  {
    SplitFirst(id, '/');
  }

  /** `"obs-{date}-{id}"` with every `/` of the id turned into `-`. */
  function ObservationId(date: string, id: string): (r: string)
    ensures |r| == 5 + |date| + |id|
    ensures r[..4] == "obs-" && r[4..4 + |date|] == date && r[4 + |date|] == '-'
    ensures r[5 + |date|..] == ReplaceChar(id, '/', '-')
    ensures '/' !in date ==> '/' !in r
  {
    var tail := ReplaceChar(id, '/', '-');
    var r := "obs-" + date + "-" + tail;
    assert r[..4] == "obs-" && r[4..4 + |date|] == date && r[5 + |date|..] == tail;
    assert forall i :: 0 <= i < |tail| ==> tail[i] != '/';
    assert forall i :: 0 <= i < |r| ==> r[i] in "obs-" || r[i] in date || r[i] in tail;
    r
  }

  /** The fourteen fields of the observation for a priced model `m` with id
      `id` and the per-million rates `inputRate` and `outputRate`. */
  function BaseObservation(env: Env, m: Obs, id: string, inputRate: real, outputRate: real,
                           date: string, collectedAt: string, apiUrl: string): Obs
  {
    map[
      "observation_id" := Str(ObservationId(date, id)),
      "schema_version" := Str("1.0.0"),
      "provider" := Str(ProviderOf(id)),
      "model_id" := Str(id),
      "model_display_name" := GetOr(m, "name", Str(id)),
      "input_rate_usd_per_1m" := Float(env.round(inputRate, 6)),
      "output_rate_usd_per_1m" := Float(env.round(outputRate, 6)),
      "effective_date" := Str(date),
      "collected_at" := Str(collectedAt),
      "source_url" := Str(apiUrl),
      "source_tier" := Str("T1"),
      "currency" := Str("USD"),
      "collection_method" := Str("aggregator_api"),
      "confidence_level" := Str("high")]
  }

  /** The observation emitted for a priced model: the base fields, plus a
      context window when the model gives a truthy `context_length`. */
  function Observation(env: Env, m: Obs, id: string, inputRate: real, outputRate: real,
                       date: string, collectedAt: string, apiUrl: string): Obs
  {
    var base := BaseObservation(env, m, id, inputRate, outputRate, date, collectedAt, apiUrl);
    var contextLength := GetOr(m, "context_length", Null);
    if Truthy(contextLength) then base["context_window" := contextLength] else base
  }

  /** The loop body for one entry of the model list: raise, skip (`None`),
      or emit an observation. */
  function Entry(env: Env, model: Value, date: string, collectedAt: string, apiUrl: string): Result<Option<Obs>> {
    if !model.Obj? then Err(AttributeError)
    else
      var m := model.fields;
      var pricing := GetOr(m, "pricing", Obj(map[]));
      if !pricing.Obj? then Err(AttributeError)
      else
        var prompt := GetOr(pricing.fields, "prompt", Null);
        var completion := GetOr(pricing.fields, "completion", Null);
        if prompt.Null? || completion.Null? then Ok(None)
        else
          var p, c := ToFloat(env, prompt), ToFloat(env, completion);
          if p.None? || c.None? then Ok(None)
          else
            var inputRate := p.value * PerMillion;
            var outputRate := c.value * PerMillion;
            if inputRate == 0.0 && outputRate == 0.0 then Ok(None)
            else
              match GetOr(m, "id", Str(""))
              case Str(id) => Ok(Some(Observation(env, m, id, inputRate, outputRate, date, collectedAt, apiUrl)))
              case Arr(_) => Err(AttributeError)
              case Obj(_) => Err(AttributeError)
              case _ => Err(TypeError)
  }

  /** A loop that runs `entry` on each element in turn, appends what it
      emits, skips what it drops and stops at the first exception. */
  function Gather<T>(entry: T -> Result<Option<Obs>>, xs: seq<T>): Result<seq<Obs>> {
    if xs == [] then Ok([])
    else
      var n := |xs| - 1;
      match Gather(entry, xs[..n])
      case Err(e) => Err(e)
      case Ok(observations) =>
        match entry(xs[n])
        case Err(e) => Err(e)
        case Ok(None) => Ok(observations)
        case Ok(Some(obs)) => Ok(observations + [obs])
  }

  /** The loop body of `OpenRouterSource.fetch` for one target date. */
  function EntryFor(env: Env, date: string, collectedAt: string, apiUrl: string): Value -> Result<Option<Obs>> {
    model => Entry(env, model, date, collectedAt, apiUrl)
  }

  /** The list `OpenRouterSource.fetch` returns for the model list `models`,
      or the exception it raises. */
  function OpenRouterObservations(env: Env, models: seq<Value>, date: string, collectedAt: string, apiUrl: string): Result<seq<Obs>> {
    Gather(EntryFor(env, date, collectedAt, apiUrl), models)
  }

  /** The normalisation loop of `OpenRouterSource.fetch`, after the HTTP
      call. */
  method NormalizeModels(env: Env, models: seq<Value>, date: string, collectedAt: string, apiUrl: string)
    returns (r: Result<seq<Obs>>)
    ensures r == OpenRouterObservations(env, models, date, collectedAt, apiUrl)
  {
    var step := EntryFor(env, date, collectedAt, apiUrl);
    var observations: seq<Obs> := [];
    for t := 0 to |models|
      invariant Gather(step, models[..t]) == Ok(observations)
    {
      assert models[..t + 1][..t] == models[..t];
      var entry := Entry(env, models[t], date, collectedAt, apiUrl);
      assert entry == step(models[t]);
      if entry.Err? {
        GatherKeepsError(step, models, t + 1, entry.exc);
        return Err(entry.exc);
      }
      if entry.value.Some? {
        observations := observations + [entry.value.value];
      }
    }
    assert models[..|models|] == models;
    r := Ok(observations);
  }

  /** An exception on a prefix ends the whole loop. */
  lemma {:induction false} GatherKeepsError<T>(entry: T -> Result<Option<Obs>>, xs: seq<T>, t: nat, e: Exc)
    requires t <= |xs| && Gather(entry, xs[..t]) == Err(e)
    ensures Gather(entry, xs) == Err(e)
    decreases |xs| - t
  {
    if t == |xs| {
      assert xs[..t] == xs;
    } else {
      assert xs[..t + 1][..t] == xs[..t];
      GatherKeepsError(entry, xs, t + 1, e);
    }
  }

  /** A model whose pricing dict lacks `prompt` or `completion`, or holds
      `null` there, is skipped. */
  lemma EntrySkipsUnpriced(env: Env, m: Obs, pricing: Obs, date: string, collectedAt: string, apiUrl: string)
    requires GetOr(m, "pricing", Obj(map[])) == Obj(pricing)
    requires GetOr(pricing, "prompt", Null) == Null || GetOr(pricing, "completion", Null) == Null
    ensures Entry(env, Obj(m), date, collectedAt, apiUrl) == Ok(None)
  {
  }

  /** An explicit `"pricing": null` is not skipped: `.get` on `None` raises
      `AttributeError` and ends the fetch. */
  lemma NullPricingRaises(env: Env, m: Obs, date: string, collectedAt: string, apiUrl: string)
    requires "pricing" in m && m["pricing"] == Null
    ensures Entry(env, Obj(m), date, collectedAt, apiUrl) == Err(AttributeError)
  {
  }

  /** A priced model whose two rates convert to floats is skipped exactly
      when both per-million rates are zero; a single zero rate is kept. A
      rate that does not convert skips the model. */
  lemma EntrySkipRule(env: Env, m: Obs, pricing: Obs, date: string, collectedAt: string, apiUrl: string)
    requires GetOr(m, "pricing", Obj(map[])) == Obj(pricing)
    requires "prompt" in pricing && pricing["prompt"] != Null
    requires "completion" in pricing && pricing["completion"] != Null
    requires GetOr(m, "id", Str("")).Str?
    ensures var p, c := ToFloat(env, pricing["prompt"]), ToFloat(env, pricing["completion"]);
      && (p.None? || c.None? ==> Entry(env, Obj(m), date, collectedAt, apiUrl) == Ok(None))
      && (p.Some? && c.Some? ==>
            (Entry(env, Obj(m), date, collectedAt, apiUrl) == Ok(None)
             <==> (p.value * PerMillion == 0.0 && c.value * PerMillion == 0.0)))
  {
  }

  /** The observation's identifying fields: the model id as given, the
      observation id built from date and id, and the provider prefix. */
  lemma ObservationIds(env: Env, m: Obs, id: string, inputRate: real, outputRate: real,
                       date: string, collectedAt: string, apiUrl: string)
    ensures var obs := Observation(env, m, id, inputRate, outputRate, date, collectedAt, apiUrl);
      && Get(obs, "model_id") == Some(Str(id))
      && Get(obs, "observation_id") == Some(Str(ObservationId(date, id)))
      && Get(obs, "provider") == Some(Str(ProviderOf(id)))
  {
    ObservationFields(env, m, id, inputRate, outputRate, date, collectedAt, apiUrl);
    BaseModelId(env, m, id, inputRate, outputRate, date, collectedAt, apiUrl);
    BaseObservationId(env, m, id, inputRate, outputRate, date, collectedAt, apiUrl);
    BaseProvider(env, m, id, inputRate, outputRate, date, collectedAt, apiUrl);
  }

  /** The observation's rates are the given per-million rates rounded to
      six places. */
  lemma ObservationRates(env: Env, m: Obs, id: string, inputRate: real, outputRate: real,
                         date: string, collectedAt: string, apiUrl: string)
    ensures var obs := Observation(env, m, id, inputRate, outputRate, date, collectedAt, apiUrl);
      && Get(obs, "input_rate_usd_per_1m") == Some(Float(env.round(inputRate, 6)))
      && Get(obs, "output_rate_usd_per_1m") == Some(Float(env.round(outputRate, 6)))
  {
    ObservationFields(env, m, id, inputRate, outputRate, date, collectedAt, apiUrl);
    BaseInputRate(env, m, id, inputRate, outputRate, date, collectedAt, apiUrl);
    BaseOutputRate(env, m, id, inputRate, outputRate, date, collectedAt, apiUrl);
  }

  /** The observation's fixed fields, and a context window exactly when the
      model's `context_length` is truthy. */
  lemma ObservationFixed(env: Env, m: Obs, id: string, inputRate: real, outputRate: real,
                         date: string, collectedAt: string, apiUrl: string)
    ensures var obs := Observation(env, m, id, inputRate, outputRate, date, collectedAt, apiUrl);
      && Get(obs, "effective_date") == Some(Str(date))
      && Get(obs, "currency") == Some(Str("USD"))
      && Get(obs, "source_tier") == Some(Str("T1"))
      && Get(obs, "collection_method") == Some(Str("aggregator_api"))
      && var contextLength := GetOr(m, "context_length", Null);
      && Get(obs, "context_window") == (if Truthy(contextLength) then Some(contextLength) else None)
  {
    ObservationFields(env, m, id, inputRate, outputRate, date, collectedAt, apiUrl);
    BaseDateCurrency(env, m, id, inputRate, outputRate, date, collectedAt, apiUrl);
    BaseTierMethod(env, m, id, inputRate, outputRate, date, collectedAt, apiUrl);
  }

  /** An emitted observation comes from a model dict with a text id and
      two convertible rates, not both zero, and is built from them. */
  lemma EntryEmits(env: Env, model: Value, date: string, collectedAt: string, apiUrl: string, obs: Obs)
    requires Entry(env, model, date, collectedAt, apiUrl) == Ok(Some(obs))
    ensures model.Obj? && var m := model.fields;
      && GetOr(m, "id", Str("")).Str?
      && var id := GetOr(m, "id", Str("")).s;
      && GetOr(m, "pricing", Obj(map[])).Obj?
      && var pricing := GetOr(m, "pricing", Obj(map[])).fields;
      && "prompt" in pricing && "completion" in pricing
      && ToFloat(env, pricing["prompt"]).Some? && ToFloat(env, pricing["completion"]).Some?
      && var p, c := ToFloat(env, pricing["prompt"]).value, ToFloat(env, pricing["completion"]).value;
      && (p != 0.0 || c != 0.0)
      && obs == Observation(env, m, id, p * PerMillion, c * PerMillion, date, collectedAt, apiUrl)
  {
  }

  /** The emitted observation keeps every base field and adds the context
      window exactly when `context_length` is truthy. */
  lemma ObservationFields(env: Env, m: Obs, id: string, inputRate: real, outputRate: real,
                          date: string, collectedAt: string, apiUrl: string)
    ensures var obs := Observation(env, m, id, inputRate, outputRate, date, collectedAt, apiUrl);
      var base := BaseObservation(env, m, id, inputRate, outputRate, date, collectedAt, apiUrl);
      && (forall k :: k in base ==> k in obs && obs[k] == base[k])
      && ("context_window" in obs <==> Truthy(GetOr(m, "context_length", Null)))
      && ("context_window" in obs ==> obs["context_window"] == m["context_length"])
  {
    BaseNoContext(env, m, id, inputRate, outputRate, date, collectedAt, apiUrl);
  }

  /** The model id, as given. */
  lemma BaseModelId(env: Env, m: Obs, id: string, inputRate: real, outputRate: real,
      date: string, collectedAt: string, apiUrl: string)
    ensures var obs := BaseObservation(env, m, id, inputRate, outputRate, date, collectedAt, apiUrl);
      "model_id" in obs && obs["model_id"] == Str(id)
  {
  }

  /** The observation id, derived from the date and the model id. */
  lemma BaseObservationId(env: Env, m: Obs, id: string, inputRate: real, outputRate: real,
      date: string, collectedAt: string, apiUrl: string)
    ensures var obs := BaseObservation(env, m, id, inputRate, outputRate, date, collectedAt, apiUrl);
      "observation_id" in obs && obs["observation_id"] == Str(ObservationId(date, id))
  {
  }

  /** The provider, derived from the model id. */
  lemma BaseProvider(env: Env, m: Obs, id: string, inputRate: real, outputRate: real,
      date: string, collectedAt: string, apiUrl: string)
    ensures var obs := BaseObservation(env, m, id, inputRate, outputRate, date, collectedAt, apiUrl);
      "provider" in obs && obs["provider"] == Str(ProviderOf(id))
  {
  }

  /** The input rate, rounded to six places. */
  lemma BaseInputRate(env: Env, m: Obs, id: string, inputRate: real, outputRate: real,
      date: string, collectedAt: string, apiUrl: string)
    ensures var obs := BaseObservation(env, m, id, inputRate, outputRate, date, collectedAt, apiUrl);
      "input_rate_usd_per_1m" in obs && obs["input_rate_usd_per_1m"] == Float(env.round(inputRate, 6))
  {
  }

  /** The output rate, rounded to six places. */
  lemma BaseOutputRate(env: Env, m: Obs, id: string, inputRate: real, outputRate: real,
      date: string, collectedAt: string, apiUrl: string)
    ensures var obs := BaseObservation(env, m, id, inputRate, outputRate, date, collectedAt, apiUrl);
      "output_rate_usd_per_1m" in obs && obs["output_rate_usd_per_1m"] == Float(env.round(outputRate, 6))
  {
  }

  /** The target date and the currency. */
  lemma BaseDateCurrency(env: Env, m: Obs, id: string, inputRate: real, outputRate: real,
      date: string, collectedAt: string, apiUrl: string)
    ensures var obs := BaseObservation(env, m, id, inputRate, outputRate, date, collectedAt, apiUrl);
      && "effective_date" in obs && obs["effective_date"] == Str(date)
      && "currency" in obs && obs["currency"] == Str("USD")
  {
  }

  /** The source tier and the collection method. */
  lemma BaseTierMethod(env: Env, m: Obs, id: string, inputRate: real, outputRate: real,
      date: string, collectedAt: string, apiUrl: string)
    ensures var obs := BaseObservation(env, m, id, inputRate, outputRate, date, collectedAt, apiUrl);
      && "source_tier" in obs && obs["source_tier"] == Str("T1")
      && "collection_method" in obs && obs["collection_method"] == Str("aggregator_api")
  {
  }

  /** The base fields hold no context window. */
  lemma BaseNoContext(env: Env, m: Obs, id: string, inputRate: real, outputRate: real,
      date: string, collectedAt: string, apiUrl: string)
    ensures var obs := BaseObservation(env, m, id, inputRate, outputRate, date, collectedAt, apiUrl);
      "context_window" !in obs
  {
  }

  /** The loop keeps input order: on a concatenation it yields the
      concatenation of the two results. */
  lemma {:induction false} GatherAppend<T>(entry: T -> Result<Option<Obs>>, a: seq<T>, b: seq<T>)
    requires Gather(entry, a + b).Ok?
    ensures Gather(entry, a).Ok? && Gather(entry, b).Ok?
    ensures Gather(entry, a + b).value == Gather(entry, a).value + Gather(entry, b).value
    decreases |b|
  {
    if b == [] {
      assert a + b == a;
    } else {
      var n := |b| - 1;
      assert (a + b)[..|a + b| - 1] == a + b[..n];
      assert (a + b)[|a + b| - 1] == b[n];
      GatherAppend(entry, a, b[..n]);
    }
  }

  /** Every emitted observation comes from one element, and there are at
      most as many observations as elements. */
  lemma {:induction false} GatherFromEntries<T>(entry: T -> Result<Option<Obs>>, xs: seq<T>)
    requires Gather(entry, xs).Ok?
    ensures |Gather(entry, xs).value| <= |xs|
    ensures forall o :: o in Gather(entry, xs).value ==> exists i :: 0 <= i < |xs| && entry(xs[i]) == Ok(Some(o))
  {
    if xs != [] {
      var n := |xs| - 1;
      GatherFromEntries(entry, xs[..n]);
      assert forall i :: 0 <= i < n ==> xs[..n][i] == xs[i];
    }
  }

  /** `OpenRouterSource.fetch` keeps the order of the model list, yields at
      most one observation per model, and every observation it yields is
      built from one model entry. */
  lemma OpenRouterOrder(env: Env, a: seq<Value>, b: seq<Value>, date: string, collectedAt: string, apiUrl: string)
    requires OpenRouterObservations(env, a + b, date, collectedAt, apiUrl).Ok?
    ensures var whole := OpenRouterObservations(env, a + b, date, collectedAt, apiUrl).value;
      && OpenRouterObservations(env, a, date, collectedAt, apiUrl).Ok?
      && OpenRouterObservations(env, b, date, collectedAt, apiUrl).Ok?
      && whole == OpenRouterObservations(env, a, date, collectedAt, apiUrl).value
                  + OpenRouterObservations(env, b, date, collectedAt, apiUrl).value
      && |whole| <= |a + b|
      && forall o :: o in whole ==> exists i :: 0 <= i < |a + b| && Entry(env, (a + b)[i], date, collectedAt, apiUrl) == Ok(Some(o))
  {
    var step := EntryFor(env, date, collectedAt, apiUrl);
    GatherAppend(step, a, b);
    GatherFromEntries(step, a + b);
  }

  /** One fixture observation after the rewrite: the target date, the
      collection stamp, and an observation id built from the date, the
      provider and the model id (default `"unknown"`) with `/` turned into
      `-`. A non-text model id raises `AttributeError`; a missing provider
      raises `KeyError`. */
  function Rewritten(o: Obs, date: string, collectedAt: string, repr: Value -> string): Result<Obs> {
    var dated := o["effective_date" := Str(date)]["collected_at" := Str(collectedAt)];
    match GetOr(o, "model_id", Str("unknown"))
    case Str(id) =>
      if "provider" !in o then Err(KeyError("provider"))
      else Ok(dated["observation_id" := Str("obs-" + date + "-" + Show(o["provider"], repr) + "-" + ReplaceChar(id, '/', '-'))])
    case _ => Err(AttributeError)
  }

  /** The rewrite touches only the date, the stamp and the observation id;
      every other field is kept. */
  lemma RewrittenFields(o: Obs, date: string, collectedAt: string, repr: Value -> string, o': Obs)
    requires Rewritten(o, date, collectedAt, repr) == Ok(o')
    ensures o'.Keys == o.Keys + {"effective_date", "collected_at", "observation_id"}
    ensures o'["effective_date"] == Str(date) && o'["collected_at"] == Str(collectedAt)
    ensures "provider" in o && GetOr(o, "model_id", Str("unknown")).Str?
    ensures o'["observation_id"] == Str("obs-" + date + "-" + Show(o["provider"], repr) + "-"
      + ReplaceChar(GetOr(o, "model_id", Str("unknown")).s, '/', '-'))
    ensures forall k :: k in o && k !in {"effective_date", "collected_at", "observation_id"} ==> o'[k] == o[k]
  {
    RewrittenId(o, date, collectedAt, repr, o');
    RewrittenKeeps(o, date, collectedAt, repr, o');
  }

  /** The rewritten observation id, and the date and stamp. */
  lemma RewrittenId(o: Obs, date: string, collectedAt: string, repr: Value -> string, o': Obs)
    requires Rewritten(o, date, collectedAt, repr) == Ok(o')
    ensures "provider" in o && GetOr(o, "model_id", Str("unknown")).Str?
    ensures "effective_date" in o' && o'["effective_date"] == Str(date)
    ensures "collected_at" in o' && o'["collected_at"] == Str(collectedAt)
    ensures "observation_id" in o' && o'["observation_id"] == Str("obs-" + date + "-" + Show(o["provider"], repr) + "-"
      + ReplaceChar(GetOr(o, "model_id", Str("unknown")).s, '/', '-'))
  {
    var oid := Str("obs-" + date + "-" + Show(o["provider"], repr) + "-"
      + ReplaceChar(GetOr(o, "model_id", Str("unknown")).s, '/', '-'));
    assert o' == o["effective_date" := Str(date)]["collected_at" := Str(collectedAt)]["observation_id" := oid];
    StampsKeep(o, Str(date), Str(collectedAt), oid);
  }

  /** The rewrite adds the three keys and keeps every other field. */
  lemma RewrittenKeeps(o: Obs, date: string, collectedAt: string, repr: Value -> string, o': Obs)
    requires Rewritten(o, date, collectedAt, repr) == Ok(o')
    ensures o'.Keys == o.Keys + {"effective_date", "collected_at", "observation_id"}
    ensures forall k :: k in o && k !in {"effective_date", "collected_at", "observation_id"} ==> o'[k] == o[k]
  {
    var oid := Str("obs-" + date + "-" + Show(o["provider"], repr) + "-"
      + ReplaceChar(GetOr(o, "model_id", Str("unknown")).s, '/', '-'));
    assert o' == o["effective_date" := Str(date)]["collected_at" := Str(collectedAt)]["observation_id" := oid];
    StampsKeep(o, Str(date), Str(collectedAt), oid);
  }

  /** The three rewritten keys are different keys. */
  lemma StampKeysDistinct()
    ensures "effective_date" != "collected_at" && "effective_date" != "observation_id"
    ensures "collected_at" != "observation_id"
  {
    assert |"effective_date"| != |"collected_at"|;
    assert "effective_date"[0] != "observation_id"[0];
    assert |"collected_at"| != |"observation_id"|;
  }

  /** Setting the date, the stamp and the id adds those keys and keeps
      every other field. */
  lemma StampsKeep(o: Obs, date: Value, collectedAt: Value, oid: Value)
    ensures var o' := o["effective_date" := date]["collected_at" := collectedAt]["observation_id" := oid];
      && o'.Keys == o.Keys + {"effective_date", "collected_at", "observation_id"}
      && o'["effective_date"] == date && o'["collected_at"] == collectedAt && o'["observation_id"] == oid
      && forall k :: k in o && k !in {"effective_date", "collected_at", "observation_id"} ==> o'[k] == o[k]
  {
    StampKeysDistinct();
  }

  /** The rewrite loop of `FixtureSource.fetch`, in place on the loaded
      list. It stops at the first observation that raises. */
  method RewriteFixtures(observations: array<Obs>, date: string, collectedAt: string, repr: Value -> string)
    returns (err: Option<Exc>)
    modifies observations
    ensures err.None? ==> forall i :: 0 <= i < observations.Length ==>
      Rewritten(old(observations[i]), date, collectedAt, repr) == Ok(observations[i])
    ensures err.Some? ==> exists i :: (0 <= i < observations.Length
      && Rewritten(old(observations[i]), date, collectedAt, repr) == Err(err.value)
      && forall j :: 0 <= j < i ==> Rewritten(old(observations[j]), date, collectedAt, repr).Ok?)
  {
    err := RewriteEach(observations, o => Rewritten(o, date, collectedAt, repr));
  }

  /** The loop itself, for any per-observation rewrite: each element is
      replaced by its rewrite until one raises. */
  method RewriteEach(observations: array<Obs>, rewrite: Obs -> Result<Obs>) returns (err: Option<Exc>)
    modifies observations
    ensures err.None? ==> forall i :: 0 <= i < observations.Length ==> rewrite(old(observations[i])) == Ok(observations[i])
    ensures err.Some? ==> exists i :: (0 <= i < observations.Length
      && rewrite(old(observations[i])) == Err(err.value)
      && forall j :: 0 <= j < i ==> rewrite(old(observations[j])).Ok?)
  {
    for i := 0 to observations.Length
      invariant forall j :: 0 <= j < i ==> rewrite(old(observations[j])) == Ok(observations[j])
      invariant forall j :: i <= j < observations.Length ==> observations[j] == old(observations[j])
    {
      var rewritten := rewrite(observations[i]);
      if rewritten.Err? {
        return Some(rewritten.exc);
      }
      observations[i] := rewritten.value;
    }
    return None;
  }
}
