/** The STCI indexer (services/indexer/indexer.py): per configured index it
    filters the observations to a basket, omits the index when the basket is
    empty or under-covered, averages the input and output rates, blends them
    with `output_ratio` and adds a dispersion for more than one observation;
    it also builds the verification-hash input from the observations sorted
    by `observation_id`. */
module Indexer {
  import opened Values
  import opened Text
  import opened Runtime

  const InputRateKey := "input_rate_usd_per_1m"
  const OutputRateKey := "output_rate_usd_per_1m"

  /** One entry of the methodology's `indices` mapping. */
  datatype IndexConfig = IndexConfig(
    /** `config.get("models", [])`: empty means "every observation". */
    models: seq<string>)

  /** The methodology YAML: each optional key is `None` when absent. */
  datatype Methodology = Methodology(
    /** `methodology.get("indices", {})` as its items, in file order. */
    indices: seq<(string, IndexConfig)>,
    minBasketCoverage: Option<real>,
    outputRatio: Option<real>,
    outputDecimals: Option<int>,
    version: Option<string>)

  /** Keys of a Python dict are distinct. */
  predicate DistinctNames(indices: seq<(string, IndexConfig)>) {
    forall i, j :: 0 <= i < j < |indices| ==> indices[i].0 != indices[j].0
  }

  datatype IndexValue = IndexValue(
    inputRate: real,
    outputRate: real,
    blendedRate: real,
    modelCount: nat,
    modelsIncluded: seq<Value>,
    /** The `dispersion` key, present or absent. */
    dispersion: Option<real>)

  /** The target date: a `date` object, or whatever truthy non-text value
      `_infer_date` found under `effective_date`. */
  datatype DateLike = IsoDate(text: string) | NotADate(v: Value)

  datatype HashInput = HashInput(date: string, methodologyVersion: Option<string>, observations: seq<Obs>)

  predicate IsHexDigit(c: char) { '0' <= c <= '9' || 'a' <= c <= 'f' }

  /** `hashlib.sha256(...).hexdigest()`: 64 lower-case hex digits. */
  type HexDigest = s: string | |s| == 64 && forall i :: 0 <= i < |s| ==> IsHexDigit(s[i])
    witness seq(64, _ => '0')

  /** The daily output dict, without the wall-clock `computed_at`. */
  datatype DailyIndex = DailyIndex(
    date: string,
    indices: map<string, IndexValue>,
    methodologyVersion: string,
    verificationHash: string,
    observationCount: nat)

  // ---------------------------------------------------------------- basket

  /** Whether an explicit basket lists the observation, by `model_id` or by
      `"{provider}/{model_id}"`. */
  predicate InBasket(o: Obs, models: seq<string>, repr: Value -> string) {
    (match Get(o, "model_id") { case Some(Str(m)) => m in models case _ => false })
    || ShowField(o, "provider", repr) + "/" + ShowField(o, "model_id", repr) in models
  }

  /** The observations an explicit basket keeps, in input order. */
  function Basket(observations: seq<Obs>, models: seq<string>, repr: Value -> string): seq<Obs> {
    if observations == [] then []
    else
      (if InBasket(observations[0], models, repr) then [observations[0]] else [])
      + Basket(observations[1..], models, repr)
  }

  /** An explicit basket keeps exactly the listed observations. */
  lemma {:induction false} BasketMembers(observations: seq<Obs>, models: seq<string>, repr: Value -> string)
    ensures |Basket(observations, models, repr)| <= |observations|
    ensures forall o :: o in Basket(observations, models, repr) <==> o in observations && InBasket(o, models, repr)
  {
    if observations != [] {
      BasketMembers(observations[1..], models, repr);
      assert observations == [observations[0]] + observations[1..];
    }
  }

  /** Filtering keeps input order: the basket of a concatenation is the
      concatenation of the baskets. */
  lemma {:induction false} BasketOfConcat(a: seq<Obs>, b: seq<Obs>, models: seq<string>, repr: Value -> string)
    ensures Basket(a + b, models, repr) == Basket(a, models, repr) + Basket(b, models, repr)
  {
    if a != [] {
      assert (a + b)[1..] == a[1..] + b;
      BasketOfConcat(a[1..], b, models, repr);
    } else {
      assert a + b == b;
    }
  }

  /** The observations an index is computed from. */
  function Candidates(observations: seq<Obs>, config: IndexConfig, repr: Value -> string): seq<Obs> {
    if |config.models| > 0 then Basket(observations, config.models, repr) else observations
  }

  /** An explicit basket whose observation count falls short of the coverage. */
  predicate UnderCovered(m: Methodology, config: IndexConfig, count: nat) {
    |config.models| > 0 && (count as real) / (|config.models| as real) < m.minBasketCoverage.GetOr(0.5)
  }

  // -------------------------------------------------------------- aggregates

  function Sum(xs: seq<real>): real {
    if xs == [] then 0.0 else xs[0] + Sum(xs[1..])
  }

  /** `statistics.mean`, exactly. */
  function Mean(xs: seq<real>): real
    requires |xs| > 0
  {
    Sum(xs) / (|xs| as real)
  }

  lemma {:induction false} SumBounds(xs: seq<real>, lo: real, hi: real)
    requires forall i :: 0 <= i < |xs| ==> lo <= xs[i] <= hi
    ensures (|xs| as real) * lo <= Sum(xs) <= (|xs| as real) * hi
  {
    if xs != [] {
      SumBounds(xs[1..], lo, hi);
    }
  }

  /** A mean lies between the smallest and the largest rate. */
  lemma MeanBounds(xs: seq<real>, lo: real, hi: real)
    requires |xs| > 0
    requires forall i :: 0 <= i < |xs| ==> lo <= xs[i] <= hi
    ensures lo <= Mean(xs) <= hi
  {
    SumBounds(xs, lo, hi);
    var n := |xs| as real;
    assert lo * n <= Sum(xs) <= hi * n;
    assert Sum(xs) / n <= hi by {
      assert Sum(xs) / n * n == Sum(xs);
    }
    assert lo <= Sum(xs) / n by {
      assert Sum(xs) / n * n == Sum(xs);
    }
  }

  /** Averaging input rates 2 and 4 gives 3, output rates 8 and 12 give 10. */
  lemma MeanExample()
    ensures Mean([2.0, 4.0]) == 3.0 && Mean([8.0, 12.0]) == 10.0
  {
    assert Sum([2.0, 4.0]) == 2.0 + Sum([4.0]);
    assert Sum([8.0, 12.0]) == 8.0 + Sum([12.0]);
  }

  /** `(avg_input + r * avg_output) / (1 + r)`. */
  function Blend(avgInput: real, avgOutput: real, ratio: real): real
    requires 1.0 + ratio != 0.0
  {
    (avgInput + ratio * avgOutput) / (1.0 + ratio)
  }

  /** With a non-negative ratio the blended rate is a weighted average of
      the input and output rates, so it lies between them. */
  lemma BlendBetween(avgInput: real, avgOutput: real, ratio: real)
    requires ratio >= 0.0
    ensures avgInput <= avgOutput ==> avgInput <= Blend(avgInput, avgOutput, ratio) <= avgOutput
    ensures avgOutput <= avgInput ==> avgOutput <= Blend(avgInput, avgOutput, ratio) <= avgInput
  {
    var d := 1.0 + ratio;
    var b := Blend(avgInput, avgOutput, ratio);
    assert b * d == avgInput + ratio * avgOutput;
    assert b - avgInput == ratio * (avgOutput - avgInput) / d;
    assert avgOutput - b == (avgOutput - avgInput) / d;
  }

  /** The default ratio 3 on input 1 and output 4 blends to 3.25. */
  lemma BlendExample()
    ensures Blend(1.0, 4.0, 3.0) == 3.25
  {
  }

  // ---------------------------------------------------------- rate columns

  predicate AllHave(obs: seq<Obs>, key: string) {
    forall i :: 0 <= i < |obs| ==> key in obs[i]
  }

  /** `[obs[key] for obs in filtered]`. */
  function Column(obs: seq<Obs>, key: string): (vs: seq<Value>)
    requires AllHave(obs, key)
    ensures |vs| == |obs| && forall i :: 0 <= i < |obs| ==> vs[i] == obs[i][key]
  {
    if obs == [] then [] else [obs[0][key]] + Column(obs[1..], key)
  }

  /** The values as numbers, or `None` where `mean` raises `TypeError`. */
  function Numbers(vs: seq<Value>): (r: Option<seq<real>>)
    ensures r.Some? <==> forall i :: 0 <= i < |vs| ==> AsNumber(vs[i]).Some?
    ensures r.Some? ==> |r.value| == |vs| && forall i :: 0 <= i < |vs| ==> Some(r.value[i]) == AsNumber(vs[i])
  {
    if vs == [] then Some([])
    else
      match (AsNumber(vs[0]), Numbers(vs[1..]))
      case (Some(x), Some(rest)) => Some([x] + rest)
      case _ => None
  }

  /** `models_included`: the `model_id`, or `"{provider}/unknown"` when it is
      missing or falsy. */
  function Label(o: Obs, repr: Value -> string): Value {
    if "model_id" in o && Truthy(o["model_id"]) then o["model_id"]
    else Str(ShowField(o, "provider", repr) + "/unknown")
  }

  function Labels(obs: seq<Obs>, repr: Value -> string): (ls: seq<Value>)
    ensures |ls| == |obs| && forall i :: 0 <= i < |obs| ==> ls[i] == Label(obs[i], repr)
  {
    if obs == [] then [] else [Label(obs[0], repr)] + Labels(obs[1..], repr)
  }

  // ------------------------------------------------------------ one index

  /** Whether nothing in the aggregation raises once the basket is kept. */
  predicate Computable(m: Methodology, obs: seq<Obs>) {
    && AllHave(obs, InputRateKey) && AllHave(obs, OutputRateKey)
    && Numbers(Column(obs, InputRateKey)).Some? && Numbers(Column(obs, OutputRateKey)).Some?
    && 1.0 + m.outputRatio.GetOr(3.0) != 0.0
  }

  /** `_compute_single_index`: `Ok(None)` when the index is omitted,
      `Err` where Python raises. */
  function ComputeSingleIndex(m: Methodology, env: Env, observations: seq<Obs>, config: IndexConfig)
    : (r: Result<Option<IndexValue>>)
    ensures var filtered := Candidates(observations, config, env.repr);
      && (|filtered| == 0 || UnderCovered(m, config, |filtered|) ==> r == Ok(None))
      && (|filtered| > 0 && !UnderCovered(m, config, |filtered|) ==>
            (r.Ok? <==> Computable(m, filtered)) && (r.Ok? ==> r.value.Some?))
      && (r.Ok? && r.value.Some? ==>
            var v := r.value.value;
            var ins := Numbers(Column(filtered, InputRateKey)).value;
            var outs := Numbers(Column(filtered, OutputRateKey)).value;
            var d := m.outputDecimals.GetOr(2);
            && v.modelCount == |filtered| > 0
            && v.inputRate == env.round(Mean(ins), d)
            && v.outputRate == env.round(Mean(outs), d)
            && v.blendedRate == env.round(Blend(Mean(ins), Mean(outs), m.outputRatio.GetOr(3.0)), d)
            && |v.modelsIncluded| == v.modelCount
            && (forall i :: 0 <= i < v.modelCount ==> v.modelsIncluded[i] == Label(filtered[i], env.repr))
            && (v.dispersion.Some? <==> v.modelCount > 1)
            && (v.dispersion.Some? ==> v.dispersion.value == env.round(env.stdev(ins), d)))
    ensures |config.models| == 0 && r.Ok? && r.value.Some? ==> r.value.value.modelCount == |observations|
  {
    var filtered := Candidates(observations, config, env.repr);
    if |filtered| == 0 then Ok(None)
    else if UnderCovered(m, config, |filtered|) then Ok(None)
    else if !AllHave(filtered, InputRateKey) then Err(KeyError(InputRateKey))
    else if !AllHave(filtered, OutputRateKey) then Err(KeyError(OutputRateKey))
    else
      var ins := Numbers(Column(filtered, InputRateKey));
      var outs := Numbers(Column(filtered, OutputRateKey));
      if ins.None? || outs.None? then Err(TypeError)
      else
        var avgInput := Mean(ins.value);
        var avgOutput := Mean(outs.value);
        var ratio := m.outputRatio.GetOr(3.0);
        if 1.0 + ratio == 0.0 then Err(ZeroDivisionError)
        else
          var d := m.outputDecimals.GetOr(2);
          Ok(Some(IndexValue(
            env.round(avgInput, d),
            env.round(avgOutput, d),
            env.round(Blend(avgInput, avgOutput, ratio), d),
            |filtered|,
            Labels(filtered, env.repr),
            if |ins.value| > 1 then Some(env.round(env.stdev(ins.value), d)) else None)))
  }

  // --------------------------------------------------------- target date

  function EffectiveDate(o: Obs): Value { GetOr(o, "effective_date", Null) }

  /** The first truthy `effective_date`, if any. */
  function FirstEffectiveDate(observations: seq<Obs>): (r: Option<Value>)
    ensures r.None? <==> forall i :: 0 <= i < |observations| ==> !Truthy(EffectiveDate(observations[i]))
    ensures r.Some? ==> exists k :: (0 <= k < |observations| && r.value == EffectiveDate(observations[k])
      && Truthy(r.value) && forall j :: 0 <= j < k ==> !Truthy(EffectiveDate(observations[j])))
  {
    if observations == [] then None
    else if Truthy(EffectiveDate(observations[0])) then Some(EffectiveDate(observations[0]))
    else
      var r := FirstEffectiveDate(observations[1..]);
      if r.Some? then
        var k :| 0 <= k < |observations[1..]| && r.value == EffectiveDate(observations[1..][k])
          && Truthy(r.value) && forall j :: 0 <= j < k ==> !Truthy(EffectiveDate(observations[1..][j]));
        assert forall j :: 0 <= j < k + 1 ==> !Truthy(EffectiveDate(observations[j])) by {
          forall j | 0 <= j < k + 1 ensures !Truthy(EffectiveDate(observations[j])) {
            if j > 0 { assert observations[j] == observations[1..][j - 1]; }
          }
        }
        r
      else r
  }

  /** What `_infer_date` returns for the date it found. */
  function DateFrom(found: Option<Value>, parseIsoDate: string -> Option<string>, today: string): Result<DateLike> {
    match found
    case None => Ok(IsoDate(today))
    case Some(Str(s)) => (match parseIsoDate(s) { case Some(d) => Ok(IsoDate(d)) case None => Err(ValueError) })
    case Some(v) => Ok(NotADate(v))
  }

  /** `_infer_date`: the first truthy `effective_date`, parsed when it is text,
      or today's date when no observation has one. */
  method InferDate(observations: seq<Obs>, parseIsoDate: string -> Option<string>, today: string)
    returns (r: Result<DateLike>)
    ensures r == DateFrom(FirstEffectiveDate(observations), parseIsoDate, today)
    ensures (forall i :: 0 <= i < |observations| ==> !Truthy(EffectiveDate(observations[i]))) ==> r == Ok(IsoDate(today))
  {
    var i := 0;
    while i < |observations|
      invariant 0 <= i <= |observations|
      invariant forall j :: 0 <= j < i ==> !Truthy(EffectiveDate(observations[j]))
    {
      var effectiveDate := EffectiveDate(observations[i]);
      if Truthy(effectiveDate) {
        FirstIsAt(observations, i);
        if effectiveDate.Str? {
          var parsed := parseIsoDate(effectiveDate.s);
          if parsed.None? { return Err(ValueError); }
          return Ok(IsoDate(parsed.value));
        }
        return Ok(NotADate(effectiveDate));
      }
      i := i + 1;
    }
    return Ok(IsoDate(today));
  }

  lemma FirstIsAt(observations: seq<Obs>, k: nat)
    requires k < |observations| && Truthy(EffectiveDate(observations[k]))
    requires forall j :: 0 <= j < k ==> !Truthy(EffectiveDate(observations[j]))
    ensures FirstEffectiveDate(observations) == Some(EffectiveDate(observations[k]))
  {
    var r := FirstEffectiveDate(observations);
    if r.Some? {
      var k' :| 0 <= k' < |observations| && r.value == EffectiveDate(observations[k'])
        && Truthy(r.value) && forall j :: 0 <= j < k' ==> !Truthy(EffectiveDate(observations[j]));
      assert k' == k;
    }
  }

  /** `target_date.isoformat()`. */
  function IsoFormat(d: DateLike): Result<string> {
    match d
    case IsoDate(t) => Ok(t)
    case NotADate(_) => Err(AttributeError)
  }

  // ------------------------------------------------------ hash ordering

  /** `x.get("observation_id", "")` as a sort key. */
  function IdKey(o: Obs): string {
    match Get(o, "observation_id")
    case Some(Str(s)) => s
    case _ => ""
  }

  /** Every `observation_id` is text or absent, so `sorted` compares strings. */
  predicate TextualId(o: Obs) {
    "observation_id" !in o || o["observation_id"].Str?
  }

  predicate TextualIds(observations: seq<Obs>) {
    forall o :: o in observations ==> TextualId(o)
  }

  predicate SortedById(s: seq<Obs>) {
    forall i, j :: 0 <= i < j < |s| ==> !Less(IdKey(s[j]), IdKey(s[i]))
  }

  /** Insert `o` before the first element whose key is not smaller: an
      element that came earlier in the input stays ahead of equal keys. */
  function InsertById(o: Obs, s: seq<Obs>): (r: seq<Obs>)
    ensures multiset(r) == multiset(s) + multiset{o}
    ensures |r| == |s| + 1
  {
    if s == [] then [o]
    else if Less(IdKey(s[0]), IdKey(o)) then
      assert s == [s[0]] + s[1..];
      [s[0]] + InsertById(o, s[1..])
    else
      assert [o] + s == [o] + ([s[0]] + s[1..]);
      [o] + s
  }

  /** `sorted(observations, key=...)`: a stable insertion sort. */
  function SortById(s: seq<Obs>): (r: seq<Obs>)
    ensures multiset(r) == multiset(s)
    ensures |r| == |s|
  {
    if s == [] then []
    else
      assert s == [s[0]] + s[1..];
      InsertById(s[0], SortById(s[1..]))
  }

  lemma NotLessIsAtLeast(a: string, b: string)
    requires !Less(a, b)
    ensures a == b || Less(b, a)
  {
    LessTotal(a, b);
  }

  lemma {:induction false} InsertSorted(o: Obs, s: seq<Obs>)
    requires SortedById(s)
    ensures SortedById(InsertById(o, s))
  {
    if s != [] {
      if Less(IdKey(s[0]), IdKey(o)) {
        InsertSorted(o, s[1..]);
        InsertAfterHead(o, s);
      } else {
        InsertAtHead(o, s);
      }
    }
  }

  /** Inserting behind a smaller head keeps the head in front. */
  lemma InsertAfterHead(o: Obs, s: seq<Obs>)
    requires s != [] && SortedById(s) && Less(IdKey(s[0]), IdKey(o))
    requires SortedById(InsertById(o, s[1..]))
    ensures SortedById(InsertById(o, s))
  {
    var r := InsertById(o, s);
    var tail := InsertById(o, s[1..]);
    assert r == [s[0]] + tail;
    forall j | 0 < j < |r| ensures !Less(IdKey(r[j]), IdKey(s[0])) {
      assert r[j] == tail[j - 1];
      InsertMember(o, s[1..], r[j]);
      if r[j] == o {
        LessAsymmetric(IdKey(s[0]), IdKey(o));
      } else {
        BehindHead(s, r[j]);
      }
    }
  }

  /** Whatever `InsertById` returns is the inserted element or came from `s`. */
  lemma InsertMember(o: Obs, s: seq<Obs>, x: Obs)
    requires x in InsertById(o, s)
    ensures x == o || x in s
  {
    assert x in multiset(InsertById(o, s));
  }

  /** No element behind the head of a sorted sequence is smaller than it. */
  lemma BehindHead(s: seq<Obs>, x: Obs)
    requires s != [] && SortedById(s) && x in s[1..]
    ensures !Less(IdKey(x), IdKey(s[0]))
  {
    var k :| 0 <= k < |s[1..]| && s[1..][k] == x;
    assert s[k + 1] == x;
  }

  /** Inserting ahead of a head that is not smaller keeps the order. */
  lemma InsertAtHead(o: Obs, s: seq<Obs>)
    requires s != [] && SortedById(s) && !Less(IdKey(s[0]), IdKey(o))
    ensures SortedById(InsertById(o, s))
  {
    var r := InsertById(o, s);
    assert r == [o] + s;
    NotLessIsAtLeast(IdKey(s[0]), IdKey(o));
    forall j | 0 < j < |r| ensures !Less(IdKey(r[j]), IdKey(o)) {
      var k := IdKey(s[j - 1]);
      assert r[j] == s[j - 1];
      if Less(k, IdKey(o)) {
        LessThenAtMost(k, IdKey(o), IdKey(s[0]));
        if j - 1 == 0 {
          LessIrreflexive(k);
        }
        assert false;
      }
    }
  }

  lemma LessThenAtMost(a: string, b: string, c: string)
    requires Less(a, b) && (b == c || Less(b, c))
    ensures Less(a, c)
  {
    if b != c {
      LessTransitive(a, b, c);
    }
  }

  /** The hash input lists the observations in `observation_id` order. */
  lemma {:induction false} SortByIdSorted(s: seq<Obs>)
    ensures SortedById(SortById(s))
  {
    if s != [] {
      SortByIdSorted(s[1..]);
      InsertSorted(s[0], SortById(s[1..]));
    }
  }

  /** Observations with equal keys are equal. */
  predicate KeysIdentify(s: seq<Obs>) {
    forall x, y :: x in s && y in s && IdKey(x) == IdKey(y) ==> x == y
  }

  /** Sorting is determined by the multiset once keys identify observations. */
  lemma {:induction false} SortedUnique(a: seq<Obs>, b: seq<Obs>)
    requires SortedById(a) && SortedById(b) && multiset(a) == multiset(b)
    requires KeysIdentify(a)
    ensures a == b
  {
    assert |a| == |multiset(a)| == |multiset(b)| == |b|;
    if a != [] {
      SortedHeadsEqual(a, b);
      DropEqualHeads(a, b);
      assert KeysIdentify(a[1..]) by {
        forall x | x in a[1..] ensures x in a { }
      }
      SortedUnique(a[1..], b[1..]);
      assert a == [a[0]] + a[1..] && b == [b[0]] + b[1..];
    }
  }

  lemma SortedHeadsEqual(a: seq<Obs>, b: seq<Obs>)
    requires SortedById(a) && SortedById(b) && multiset(a) == multiset(b)
    requires KeysIdentify(a) && |a| > 0 && |b| > 0
    ensures a[0] == b[0]
  {
    assert a[0] in multiset(b) && b[0] in multiset(a);
    var i :| 0 <= i < |a| && a[i] == b[0];
    var j :| 0 <= j < |b| && b[j] == a[0];
    SortedHeadLeast(a, i);
    SortedHeadLeast(b, j);
    AtMostBothWays(IdKey(a[0]), IdKey(b[0]));
  }

  lemma AtMostBothWays(x: string, y: string)
    requires x == y || Less(x, y)
    requires y == x || Less(y, x)
    ensures x == y
  {
    if x != y {
      LessAsymmetric(x, y);
    }
  }

  /** The head of a sorted sequence has the smallest key. */
  lemma SortedHeadLeast(s: seq<Obs>, i: nat)
    requires SortedById(s) && i < |s|
    ensures IdKey(s[i]) == IdKey(s[0]) || Less(IdKey(s[0]), IdKey(s[i]))
  {
    if i > 0 {
      NotLessIsAtLeast(IdKey(s[i]), IdKey(s[0]));
    }
  }

  lemma DropEqualHeads(a: seq<Obs>, b: seq<Obs>)
    requires multiset(a) == multiset(b) && |a| > 0 && |b| > 0 && a[0] == b[0]
    ensures multiset(a[1..]) == multiset(b[1..])
  {
    assert a == [a[0]] + a[1..] && b == [b[0]] + b[1..];
    assert multiset(a[1..]) == multiset(a) - multiset{a[0]};
    assert multiset(b[1..]) == multiset(b) - multiset{b[0]};
  }

  /** `sorted(...)` as Python evaluates it: comparing a non-text id raises. */
  function HashOrder(observations: seq<Obs>): (r: Result<seq<Obs>>)
    ensures r.Ok? ==> SortedById(r.value) && multiset(r.value) == multiset(observations)
  {
    SortByIdSorted(observations);
    if |observations| <= 1 || TextualIds(observations) then Ok(SortById(observations)) else Err(TypeError)
  }

  /** `_compute_hash` up to the digest: the sorted observations, whole. */
  function HashInputOf(observations: seq<Obs>, date: DateLike, version: Option<string>): Result<HashInput> {
    match HashOrder(observations)
    case Err(e) => Err(e)
    case Ok(sorted) =>
      match IsoFormat(date)
      case Err(e) => Err(e)
      case Ok(d) => Ok(HashInput(d, version, sorted))
  }

  /** The first 16 hex characters of the digest of the hash input. */
  function VerificationHash(digest: HashInput -> HexDigest, observations: seq<Obs>, date: DateLike, version: Option<string>)
    : (r: Result<string>)
    ensures r.Ok? <==> HashInputOf(observations, date, version).Ok?
    ensures r.Ok? ==> |r.value| == 16 && forall i :: 0 <= i < 16 ==> IsHexDigit(r.value[i])
    ensures r.Ok? ==> r.value <= digest(HashInputOf(observations, date, version).value)
  {
    match HashInputOf(observations, date, version)
    case Err(e) => Err(e)
    case Ok(h) => Ok(digest(h)[..16])
  }

  predicate DistinctIds(observations: seq<Obs>) {
    forall i, j :: 0 <= i < j < |observations| ==> IdKey(observations[i]) != IdKey(observations[j])
  }

  /** Observations with distinct ids are identified by their ids, in any
      order. */
  lemma DistinctIdsIdentify(a: seq<Obs>, s: seq<Obs>)
    requires multiset(s) == multiset(a) && DistinctIds(a)
    ensures KeysIdentify(s)
  {
    forall x, y | x in s && y in s && IdKey(x) == IdKey(y) ensures x == y {
      assert x in multiset(a) && y in multiset(a);
      var i :| 0 <= i < |a| && a[i] == x;
      var j :| 0 <= j < |a| && a[j] == y;
      if i < j {
        assert false;
      } else if j < i {
        assert false;
      }
    }
  }

  /** Whether every id is text does not depend on the order. */
  lemma TextualIdsPermuted(a: seq<Obs>, b: seq<Obs>)
    requires multiset(a) == multiset(b)
    ensures TextualIds(a) <==> TextualIds(b)
  {
    forall o ensures o in a <==> o in b {
      assert o in a <==> o in multiset(a);
      assert o in b <==> o in multiset(b);
    }
  }

  /** Reordering observations with distinct ids leaves the hash input, and
      so the verification hash, unchanged. */
  lemma HashOrderInvariant(a: seq<Obs>, b: seq<Obs>, date: DateLike, version: Option<string>)
    requires multiset(a) == multiset(b) && DistinctIds(a)
    ensures HashInputOf(a, date, version) == HashInputOf(b, date, version)
  {
    assert |a| == |multiset(a)| == |b|;
    TextualIdsPermuted(a, b);
    if |a| <= 1 || TextualIds(a) {
      var sa, sb := SortById(a), SortById(b);
      SortByIdSorted(a);
      SortByIdSorted(b);
      DistinctIdsIdentify(a, sa);
      SortedUnique(sa, sb);
      assert HashOrder(a) == Ok(sa) && HashOrder(b) == Ok(sb);
    } else {
      assert HashOrder(a) == Err(TypeError) == HashOrder(b);
    }
  }

  /** The hash input covers whole observations: equal hash inputs mean the
      same observations, so changing any field of one changes the input. */
  lemma HashInputCoversObservations(a: seq<Obs>, b: seq<Obs>, date: DateLike, version: Option<string>)
    requires HashInputOf(a, date, version).Ok? && HashInputOf(a, date, version) == HashInputOf(b, date, version)
    ensures multiset(a) == multiset(b)
  {
  }

  // ---------------------------------------------------------------- compute

  /** The date the output is stamped with. */
  function ResolveDate(targetDate: Option<string>, observations: seq<Obs>, parseIsoDate: string -> Option<string>, today: string)
    : Result<DateLike>
  {
    if targetDate.Some? then Ok(IsoDate(targetDate.value))
    else DateFrom(FirstEffectiveDate(observations), parseIsoDate, today)
  }

  predicate IndicesComputable(m: Methodology, env: Env, observations: seq<Obs>) {
    forall i :: 0 <= i < |m.indices| ==> ComputeSingleIndex(m, env, observations, m.indices[i].1).Ok?
  }

  function SingleIndexOf(m: Methodology, env: Env, observations: seq<Obs>): IndexConfig -> Result<Option<IndexValue>> {
    config => ComputeSingleIndex(m, env, observations, config)
  }

  /** `Indexer.compute`: every configured index whose value is not `None`,
      the verification hash and the observation count. */
  method Compute(m: Methodology, env: Env, digest: HashInput -> HexDigest, today: string,
                 observations: seq<Obs>, targetDate: Option<string>)
    returns (r: Result<DailyIndex>)
    requires DistinctNames(m.indices)
    ensures var date := ResolveDate(targetDate, observations, env.parseIsoDate, today);
      r.Ok? <==> date.Ok? && IndicesComputable(m, env, observations)
                 && VerificationHash(digest, observations, date.value, m.version).Ok?
    ensures r.Ok? ==>
      var date := ResolveDate(targetDate, observations, env.parseIsoDate, today).value;
      && IsoFormat(date) == Ok(r.value.date)
      && r.value.verificationHash == VerificationHash(digest, observations, date, m.version).value
      && r.value.methodologyVersion == m.version.GetOr("1.0.0")
      && r.value.observationCount == |observations|
    ensures r.Ok? ==> forall i :: 0 <= i < |m.indices| ==>
      var v := ComputeSingleIndex(m, env, observations, m.indices[i].1).value;
      (m.indices[i].0 in r.value.indices <==> v.Some?)
      && (v.Some? ==> r.value.indices[m.indices[i].0] == v.value)
    ensures r.Ok? ==> forall name :: name in r.value.indices ==> exists i :: 0 <= i < |m.indices| && m.indices[i].0 == name
  {
    var date: DateLike;
    if targetDate.Some? {
      date := IsoDate(targetDate.value);
    } else {
      var inferred := InferDate(observations, env.parseIsoDate, today);
      if inferred.Err? {
        return Err(inferred.exc);
      }
      date := inferred.value;
    }

    var single := SingleIndexOf(m, env, observations);
    var indices := ComputeIndices(m.indices, single);
    assert forall i :: 0 <= i < |m.indices| ==> single(m.indices[i].1) == ComputeSingleIndex(m, env, observations, m.indices[i].1);
    if indices.Err? {
      return Err(indices.exc);
    }

    var hash := VerificationHash(digest, observations, date, m.version);
    if hash.Err? {
      return Err(hash.exc);
    }
    var iso := IsoFormat(date);
    return Ok(DailyIndex(iso.value, indices.value, m.version.GetOr("1.0.0"), hash.value, |observations|));
  }

  /** The loop of `compute` over the configured indices, with
      `_compute_single_index` as `single`: the first index that raises stops
      it; otherwise every index whose value is not `None` is entered under
      its name. */
  method ComputeIndices(indices: seq<(string, IndexConfig)>, single: IndexConfig -> Result<Option<IndexValue>>)
    returns (r: Result<map<string, IndexValue>>)
    requires DistinctNames(indices)
    ensures r.Ok? <==> forall i :: 0 <= i < |indices| ==> single(indices[i].1).Ok?
    ensures r.Ok? ==> forall i :: 0 <= i < |indices| ==>
      var v := single(indices[i].1).value;
      (indices[i].0 in r.value <==> v.Some?) && (v.Some? ==> r.value[indices[i].0] == v.value)
    ensures r.Ok? ==> forall name :: name in r.value ==> exists i :: 0 <= i < |indices| && indices[i].0 == name
    ensures r.Err? ==> exists i :: 0 <= i < |indices| && single(indices[i].1) == Err(r.exc)
  {
    var computed: map<string, IndexValue> := map[];
    var i := 0;
    while i < |indices|
      invariant 0 <= i <= |indices|
      invariant forall j :: 0 <= j < i ==> single(indices[j].1).Ok?
      invariant forall j :: 0 <= j < i ==>
        var v := single(indices[j].1).value;
        (indices[j].0 in computed <==> v.Some?) && (v.Some? ==> computed[indices[j].0] == v.value)
      invariant forall name :: name in computed ==> exists j :: 0 <= j < i && indices[j].0 == name
    {
      var (name, config) := indices[i];
      var indexValue := single(config);
      if indexValue.Err? {
        return Err(indexValue.exc);
      }
      if indexValue.value.Some? {
        computed := computed[name := indexValue.value.value];
      }
      i := i + 1;
    }
    return Ok(computed);
  }
}
