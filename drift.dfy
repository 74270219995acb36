/** Drift detection: observations of the same model from different sources
    are compared pairwise, and price differences above a threshold are
    reported (services/collector/drift.py). */
module Drift {
  import opened Values
  import opened Text
  import opened Grouping

  const InputRateKey := "input_rate_usd_per_1m"
  const OutputRateKey := "output_rate_usd_per_1m"

  /** One (model_id, source1, source2, input_diff_pct, output_diff_pct) tuple. */
  datatype Discrepancy = Discrepancy(modelId: string, source1: string, source2: string, inputDiff: real, outputDiff: real)

  /** Which of the two rates went over the threshold; it selects the wording
      of the warning. */
  datatype Exceeded = InputAndOutput | InputOnly | OutputOnly

  /** A warning line; its text is an f-string over these fields. */
  datatype Warning = Warning(modelId: string, source1: string, source2: string, exceeded: Exceeded, inputDiff: real, outputDiff: real)

  datatype DriftReport = DriftReport(discrepancies: seq<Discrepancy>, warnings: seq<Warning>) {
    predicate HasWarnings() { |warnings| > 0 }

    function DiscrepancyCount(): nat { |discrepancies| }
  }

  function Concat(a: DriftReport, b: DriftReport): DriftReport {
    DriftReport(a.discrepancies + b.discrepancies, a.warnings + b.warnings)
  }

  /** `normalize_model_id`: a single provider prefix `provider/` is dropped;
      ids with no slash or with several slashes are kept. */
  function NormalizeModelId(modelId: string): (r: string)
    ensures CountChar(modelId, '/') != 1 ==> r == modelId
    ensures CountChar(modelId, '/') == 1 ==> '/' !in r && modelId == Split(modelId, '/')[0] + "/" + r
  {
    CountCharPositive(modelId, '/');
    if '/' in modelId then
      var parts := Split(modelId, '/');
      SplitPiecesFree(modelId, '/');
      JoinSplit(modelId, '/');
      if |parts| == 2 then parts[1] else modelId
    else modelId
  }

  /** Normalising is idempotent: the result either has no slash left or is
      the id unchanged (no slash, or two or more). */
  lemma NormalizeTwice(modelId: string)
    ensures CountChar(NormalizeModelId(modelId), '/') == 0 || NormalizeModelId(modelId) == modelId
    ensures NormalizeModelId(NormalizeModelId(modelId)) == NormalizeModelId(modelId)
  {
    CountCharPositive(NormalizeModelId(modelId), '/');
  }

  /** `normalize_model_id(obs.get("model_id", ""))` on any JSON value: text is
      normalised; `in` on a list or dict finds no "/" unless one is an
      element or key (then `.split` raises AttributeError), and the list or
      dict cannot be a dict key (TypeError); anything else fails the `in`. */
  function NormalizedKey(v: Value): (r: Result<string>)
    ensures r.Ok? <==> v.Str?
    ensures v.Str? ==> r.value == NormalizeModelId(v.s)
  {
    match v
    case Str(s) => Ok(NormalizeModelId(s))
    case Arr(items) => if Str("/") in items then Err(AttributeError) else Err(TypeError)
    case Obj(fields) => if "/" in fields then Err(AttributeError) else Err(TypeError)
    case _ => Err(TypeError)
  }

  function KeyOf(o: Obs): Result<string> {
    NormalizedKey(GetOr(o, "model_id", Str("")))
  }

  /** The keys of all observations, or the first failure. */
  function Keys(observations: seq<Obs>): Result<seq<string>> {
    if observations == [] then Ok([])
    else
      var n := |observations| - 1;
      match Keys(observations[..n])
      case Err(e) => Err(e)
      case Ok(ks) =>
        match KeyOf(observations[n])
        case Err(e) => Err(e)
        case Ok(k) => Ok(ks + [k])
  }

  /** The keys are the observations' own normalised ids, and they exist
      exactly when every observation has one. */
  lemma {:induction false} KeysSpec(observations: seq<Obs>)
    ensures Keys(observations).Ok? <==> forall i :: 0 <= i < |observations| ==> KeyOf(observations[i]).Ok?
    ensures Keys(observations).Ok? ==> (|Keys(observations).value| == |observations|
      && forall i :: 0 <= i < |observations| ==> KeyOf(observations[i]) == Ok(Keys(observations).value[i]))
  {
    if observations != [] {
      var n := |observations| - 1;
      KeysSpec(observations[..n]);
      assert forall i :: 0 <= i < n ==> observations[..n][i] == observations[i];
    }
  }

  lemma {:induction false} KeysKeepError(a: seq<Obs>, b: seq<Obs>, e: Exc)
    requires Keys(a) == Err(e)
    ensures Keys(a + b) == Err(e)
  {
    if b != [] {
      var n := |b| - 1;
      KeysKeepError(a, b[..n], e);
      assert (a + b)[..|a + b| - 1] == a + b[..n];
    } else {
      assert a + b == a;
    }
  }

  /** A failure in a prefix is the failure of the whole. */
  lemma KeysErrorInPrefix(observations: seq<Obs>, t: nat, e: Exc)
    requires t <= |observations| && Keys(observations[..t]) == Err(e)
    ensures Keys(observations) == Err(e)
  {
    KeysKeepError(observations[..t], observations[t..], e);
    assert observations[..t] + observations[t..] == observations;
  }

  lemma KeysStep(a: seq<Obs>, o: Obs)
    ensures Keys(a + [o]) == match Keys(a)
      case Err(e) => Err(e)
      case Ok(ks) => (match KeyOf(o) case Err(e) => Err(e) case Ok(k) => Ok(ks + [k]))
  {
    assert (a + [o])[..|a|] == a;
  }

  function Abs(x: real): real { if x < 0.0 then -x else x }

  /** `_calc_diff_pct`: the difference relative to the mean of the two
      values; 0 when both are zero and 1 when exactly one is. Values other
      than numbers reach `(val1 + val2) / 2` and raise TypeError; two
      opposite non-zero numbers divide by zero. */
  function DiffPct(a: Value, b: Value): (r: Result<real>)
    ensures EqualsZero(a) && EqualsZero(b) ==> r == Ok(0.0)
    ensures EqualsZero(a) != EqualsZero(b) ==> r == Ok(1.0)
    ensures !EqualsZero(a) && !EqualsZero(b) ==>
      (r.Ok? <==> AsNumber(a).Some? && AsNumber(b).Some? && AsNumber(a).value + AsNumber(b).value != 0.0)
    ensures r.Ok? && AsNumber(a).Some? && AsNumber(b).Some? && AsNumber(a).value == AsNumber(b).value ==> r == Ok(0.0)
    ensures r.Ok? && AsNumber(a).Some? && AsNumber(b).Some? && AsNumber(a).value > 0.0 && AsNumber(b).value > 0.0 ==>
      0.0 <= r.value < 2.0
    ensures r.Ok? && !EqualsZero(a) && !EqualsZero(b) ==>
      r.value * (AsNumber(a).value + AsNumber(b).value) == 2.0 * Abs(AsNumber(a).value - AsNumber(b).value)
  {
    if EqualsZero(a) && EqualsZero(b) then Ok(0.0)
    else if EqualsZero(a) || EqualsZero(b) then Ok(1.0)
    else
      match (AsNumber(a), AsNumber(b))
      case (Some(x), Some(y)) =>
        if x + y == 0.0 then Err(ZeroDivisionError)
        else
          RelativeBelowTwo(x, y);
          Ok(Abs(x - y) / ((x + y) / 2.0))
      case _ => Err(TypeError)
  }

  lemma RelativeBelowTwo(x: real, y: real)
    requires x + y != 0.0
    ensures x == y ==> Abs(x - y) / ((x + y) / 2.0) == 0.0
    ensures x > 0.0 && y > 0.0 ==> 0.0 <= Abs(x - y) / ((x + y) / 2.0) < 2.0
  {
    var avg := (x + y) / 2.0;
    var q := Abs(x - y) / avg;
    assert q * avg == Abs(x - y);
    if x > 0.0 && y > 0.0 {
      assert Abs(x - y) < 2.0 * avg;
      NonNegativeQuotient(Abs(x - y), avg);
      if q >= 2.0 {
        NonNegativeProduct(q - 2.0, avg);
      }
    }
  }

  lemma NonNegativeQuotient(a: real, b: real)
    requires a >= 0.0 && b > 0.0
    ensures a / b >= 0.0
  {
  }

  lemma NonNegativeProduct(a: real, b: real)
    requires a >= 0.0 && b >= 0.0
    ensures a * b >= 0.0
  {
  }

  /** Prices of 1 and 3 differ by their whole mean of 2. */
  lemma DiffPctExample()
    ensures DiffPct(Int(1), Int(3)) == Ok(1.0)
  {
  }

  /** The difference does not depend on which source comes first. */
  lemma DiffPctSymmetric(a: Value, b: Value)
    ensures DiffPct(a, b) == DiffPct(b, a)
  {
  }

  /** `_extract_source_name`: a known provider name when one occurs in the
      lower-cased text, "config" for the configuration file, otherwise the
      first 20 characters. */
  function ExtractSourceName(source: string): (r: string)
    ensures Contains(Lower(source), "openrouter") ==> r == "openrouter"
    ensures !Contains(Lower(source), "openrouter") && Contains(Lower(source), "openai") ==> r == "openai"
    ensures (!Contains(Lower(source), "openrouter") && !Contains(Lower(source), "openai")
      && Contains(Lower(source), "anthropic")) ==> r == "anthropic"
    ensures (!Contains(Lower(source), "openrouter") && !Contains(Lower(source), "openai")
      && !Contains(Lower(source), "anthropic") && Contains(Lower(source), "google")) ==> r == "google"
    ensures (!Contains(Lower(source), "openrouter") && !Contains(Lower(source), "openai")
      && !Contains(Lower(source), "anthropic") && !Contains(Lower(source), "google")) ==>
      r == if source == "config_file" then "config" else Take(source, 20)
    ensures r in ["openrouter", "openai", "anthropic", "google", "config"] || (r <= source && |r| <= 20)
    ensures (|source| <= 20 && !Contains(Lower(source), "openrouter") && !Contains(Lower(source), "openai")
      && !Contains(Lower(source), "anthropic") && !Contains(Lower(source), "google") && source != "config_file")
      ==> r == source
  {
    var low := Lower(source);
    CloudGoogleRedundant(low);
    if Contains(low, "openrouter") then "openrouter"
    else if Contains(low, "openai") then "openai"
    else if Contains(low, "anthropic") then "anthropic"
    else if Contains(low, "google") || Contains(low, "cloud.google") then "google"
    else if source == "config_file" then "config"
    else
      var r := Take(source, 20);
      assert |source| <= 20 ==> r == source;
      r
  }

  lemma {:induction false} ContainsPrefix(s: string, sub: string)
    requires sub <= s
    ensures Contains(s, sub)
  {
  }

  /** Text containing `a + b` contains `b`. */
  lemma {:induction false} ContainsSuffixOf(s: string, a: string, b: string)
    requires Contains(s, a + b)
    ensures Contains(s, b)
    decreases |s|
  {
    if a + b <= s {
      ContainsAfter(s, |a|, b);
    } else {
      ContainsSuffixOf(s[1..], a, b);
    }
  }

  lemma {:induction false} ContainsAfter(s: string, k: nat, b: string)
    requires k <= |s| && b <= s[k..]
    ensures Contains(s, b)
    decreases k
  {
    if k > 0 {
      assert s[1..][k - 1..] == s[k..];
      ContainsAfter(s[1..], k - 1, b);
    }
  }

  /** The "cloud.google" test in `_extract_source_name` never decides
      anything: text containing it also contains "google". */
  lemma CloudGoogleRedundant(s: string)
    ensures Contains(s, "cloud.google") ==> Contains(s, "google")
  {
    if Contains(s, "cloud.google") {
      assert "cloud.google" == "cloud." + "google";
      ContainsSuffixOf(s, "cloud.", "google");
    }
  }

  /** `_extract_source_name(source)` on any value: `.lower()` exists on text only. */
  function SourceName(v: Value): (r: Result<string>)
    ensures r.Ok? <==> v.Str?
  {
    if v.Str? then Ok(ExtractSourceName(v.s)) else Err(AttributeError)
  }

  /** `obs.get("source_url", obs.get("collection_method", fallback))`. */
  function SourceOf(o: Obs, fallback: string): Value {
    if "source_url" in o then o["source_url"] else GetOr(o, "collection_method", Str(fallback))
  }

  function InputDiff(o1: Obs, o2: Obs): Result<real> {
    DiffPct(GetOr(o1, InputRateKey, Int(0)), GetOr(o2, InputRateKey, Int(0)))
  }

  function OutputDiff(o1: Obs, o2: Obs): Result<real> {
    DiffPct(GetOr(o1, OutputRateKey, Int(0)), GetOr(o2, OutputRateKey, Int(0)))
  }

  /** A warning says the same as the discrepancy it accompanies, and names
      exactly the rates that went over the threshold. */
  predicate Agrees(d: Discrepancy, w: Warning, threshold: real) {
    && w.modelId == d.modelId && w.source1 == d.source1 && w.source2 == d.source2
    && w.inputDiff == d.inputDiff && w.outputDiff == d.outputDiff
    && (w.exceeded == InputAndOutput <==> d.inputDiff > threshold && d.outputDiff > threshold)
    && (w.exceeded == InputOnly <==> d.inputDiff > threshold && !(d.outputDiff > threshold))
    && (w.exceeded == OutputOnly <==> !(d.inputDiff > threshold) && d.outputDiff > threshold)
  }

  /** The body of the inner loop for one pair: both differences are
      computed; a pair is recorded exactly when either exceeds the
      threshold, and only then are the source names extracted. */
  function ComparePair(modelId: string, o1: Obs, o2: Obs, threshold: real): Result<Option<(Discrepancy, Warning)>>
  {
    var source1 := SourceOf(o1, "source1");
    var source2 := SourceOf(o2, "source2");
    match (InputDiff(o1, o2), OutputDiff(o1, o2))
    case (Err(e), _) => Err(e)
    case (Ok(_), Err(e)) => Err(e)
    case (Ok(inDiff), Ok(outDiff)) =>
      if inDiff > threshold || outDiff > threshold then
        match (SourceName(source1), SourceName(source2))
        case (Err(e), _) => Err(e)
        case (Ok(_), Err(e)) => Err(e)
        case (Ok(name1), Ok(name2)) =>
          var exceeded :=
            if inDiff > threshold && outDiff > threshold then InputAndOutput
            else if inDiff > threshold then InputOnly
            else OutputOnly;
          Ok(Some((Discrepancy(modelId, name1, name2, inDiff, outDiff),
                   Warning(modelId, name1, name2, exceeded, inDiff, outDiff))))
      else Ok(None)
  }

  /** A pair is recorded exactly when either difference exceeds the
      threshold; the source names are needed, and extracted, only then. */
  lemma ComparePairSpec(modelId: string, o1: Obs, o2: Obs, threshold: real)
    ensures var c := ComparePair(modelId, o1, o2, threshold);
      var inDiff, outDiff := InputDiff(o1, o2), OutputDiff(o1, o2);
      && (c.Ok? <==> (inDiff.Ok? && outDiff.Ok?
            && (inDiff.value > threshold || outDiff.value > threshold ==>
                  SourceOf(o1, "source1").Str? && SourceOf(o2, "source2").Str?)))
      && (c.Ok? ==> (c.value.Some? <==> inDiff.value > threshold || outDiff.value > threshold))
      && (c.Ok? && c.value.Some? ==>
            && c.value.value.0 == Discrepancy(modelId, ExtractSourceName(SourceOf(o1, "source1").s),
                                              ExtractSourceName(SourceOf(o2, "source2").s), inDiff.value, outDiff.value)
            && Agrees(c.value.value.0, c.value.value.1, threshold))
  {
  }

  /** The report with one comparison's outcome appended. */
  function Record(rep: DriftReport, c: Option<(Discrepancy, Warning)>): DriftReport {
    match c
    case None => rep
    case Some((d, w)) => DriftReport(rep.discrepancies + [d], rep.warnings + [w])
  }

  /** The comparison the inner loop applies to two observations. */
  type Comparison = (Obs, Obs) -> Result<Option<(Discrepancy, Warning)>>

  /** `ComparePair` for one group's normalised id. */
  function Comparer(modelId: string, threshold: real): Comparison {
    (o1, o2) => ComparePair(modelId, o1, o2, threshold)
  }

  /** The comparison of members `a` and `b` of a group succeeds. */
  predicate Compares(cmp: Comparison, group: seq<Obs>, a: nat, b: nat)
    requires a < |group| && b < |group|
  {
    cmp(group[a], group[b]).Ok?
  }

  /** The comparison of members `a` and `b` of a group records `d`. */
  predicate Records(cmp: Comparison, group: seq<Obs>, a: nat, b: nat, d: Discrepancy)
    requires a < |group| && b < |group|
  {
    var c := cmp(group[a], group[b]);
    c.Ok? && c.value.Some? && c.value.value.0 == d
  }

  /** The inner loop of row `i` over `j in range(i + 1, end)`: what it adds
      to the report, or the first failure. */
  function RowScan(cmp: Comparison, group: seq<Obs>, i: nat, end: nat): Result<DriftReport>
    requires i < |group| && end <= |group|
    decreases end
  {
    if end <= i + 1 then Ok(DriftReport([], []))
    else
      match RowScan(cmp, group, i, end - 1)
      case Err(e) => Err(e)
      case Ok(rep) =>
        match cmp(group[i], group[end - 1])
        case Err(e) => Err(e)
        case Ok(c) => Ok(Record(rep, c))
  }

  /** The outer loop over the first `i` rows of a group. */
  function GroupScan(cmp: Comparison, group: seq<Obs>, i: nat): Result<DriftReport>
    requires i <= |group|
  {
    if i == 0 then Ok(DriftReport([], []))
    else
      match GroupScan(cmp, group, i - 1)
      case Err(e) => Err(e)
      case Ok(rep) =>
        match RowScan(cmp, group, i - 1, |group|)
        case Err(e) => Err(e)
        case Ok(row) => Ok(Concat(rep, row))
  }

  lemma {:induction false} RowScanKeepsError(cmp: Comparison, group: seq<Obs>, i: nat, j: nat, end: nat, e: Exc)
    requires i < |group| && j <= end <= |group|
    requires RowScan(cmp, group, i, j) == Err(e)
    ensures RowScan(cmp, group, i, end) == Err(e)
    decreases end
  {
    if j < end {
      RowScanKeepsError(cmp, group, i, j, end - 1, e);
    }
  }

  lemma {:induction false} GroupScanKeepsError(cmp: Comparison, group: seq<Obs>, i: nat, k: nat, e: Exc)
    requires i <= k <= |group|
    requires GroupScan(cmp, group, i) == Err(e)
    ensures GroupScan(cmp, group, k) == Err(e)
  {
    if i < k {
      GroupScanKeepsError(cmp, group, i, k - 1, e);
    }
  }

  /** A failing comparison makes the whole group fail with its exception. */
  lemma PairFailureFailsGroup(cmp: Comparison, group: seq<Obs>, i: nat, j: nat, row: DriftReport, e: Exc)
    requires i < j < |group|
    requires GroupScan(cmp, group, i).Ok? && RowScan(cmp, group, i, j) == Ok(row)
    requires cmp(group[i], group[j]) == Err(e)
    ensures GroupScan(cmp, group, |group|) == Err(e)
  {
    assert RowScan(cmp, group, i, j + 1) == Err(e);
    RowScanKeepsError(cmp, group, i, j + 1, |group|, e);
    assert GroupScan(cmp, group, i + 1) == Err(e);
    GroupScanKeepsError(cmp, group, i + 1, |group|, e);
  }

  /** The warnings run in step with the discrepancies, each saying the
      same thing. */
  predicate Aligned(rep: DriftReport, threshold: real) {
    && |rep.warnings| == |rep.discrepancies|
    && forall k :: 0 <= k < |rep.discrepancies| ==> Agrees(rep.discrepancies[k], rep.warnings[k], threshold)
  }

  lemma AlignedRecord(rep: DriftReport, c: Option<(Discrepancy, Warning)>, threshold: real)
    requires Aligned(rep, threshold)
    requires c.Some? ==> Agrees(c.value.0, c.value.1, threshold)
    ensures Aligned(Record(rep, c), threshold)
  {
  }

  lemma AlignedConcat(a: DriftReport, b: DriftReport, threshold: real)
    requires Aligned(a, threshold) && Aligned(b, threshold)
    ensures Aligned(Concat(a, b), threshold)
  {
    var all := Concat(a, b);
    forall k | 0 <= k < |all.discrepancies|
      ensures Agrees(all.discrepancies[k], all.warnings[k], threshold)
    {
      if k >= |a.discrepancies| {
        assert all.discrepancies[k] == b.discrepancies[k - |a.discrepancies|];
        assert all.warnings[k] == b.warnings[k - |a.discrepancies|];
      }
    }
  }

  /** Every outcome of the comparison has a warning that agrees with its
      discrepancy. */
  ghost predicate AgreesAll(cmp: Comparison, threshold: real) {
    forall o1, o2 :: cmp(o1, o2).Ok? && cmp(o1, o2).value.Some? ==>
      Agrees(cmp(o1, o2).value.value.0, cmp(o1, o2).value.value.1, threshold)
  }

  lemma ComparerAgrees(modelId: string, threshold: real)
    ensures AgreesAll(Comparer(modelId, threshold), threshold)
  {
    forall o1, o2 ensures var c := Comparer(modelId, threshold)(o1, o2);
      c.Ok? && c.value.Some? ==> Agrees(c.value.value.0, c.value.value.1, threshold)
    {
      ComparePairSpec(modelId, o1, o2, threshold);
    }
  }

  /** Row `i` records exactly the pairs `(i, j)` that went over the
      threshold, each as its comparison produced it. */
  lemma {:induction false} RowScanRecords(cmp: Comparison, group: seq<Obs>, i: nat, end: nat, threshold: real)
    requires i < |group| && end <= |group|
    requires AgreesAll(cmp, threshold)
    requires RowScan(cmp, group, i, end).Ok?
    ensures var rep := RowScan(cmp, group, i, end).value;
      && Aligned(rep, threshold)
      && (forall j :: i < j < end ==> Compares(cmp, group, i, j))
      && (forall j, d :: i < j < end && Records(cmp, group, i, j, d) ==> d in rep.discrepancies)
      && (forall d :: d in rep.discrepancies ==> exists j :: i < j < end && Records(cmp, group, i, j, d))
    decreases end
  {
    if end > i + 1 {
      RowScanRecords(cmp, group, i, end - 1, threshold);
      var rep := RowScan(cmp, group, i, end - 1).value;
      var c := cmp(group[i], group[end - 1]).value;
      AlignedRecord(rep, c, threshold);
      var all := Record(rep, c);
      assert RowScan(cmp, group, i, end) == Ok(all);
      forall d | d in all.discrepancies
        ensures exists j :: i < j < end && Records(cmp, group, i, j, d)
      {
        if d !in rep.discrepancies {
          assert Records(cmp, group, i, end - 1, d);
        }
      }
    }
  }

  /** A group's share of the report records exactly the pairs `i < j` that
      went over the threshold, each as its comparison produced it. */
  lemma {:induction false} GroupScanRecords(cmp: Comparison, group: seq<Obs>, i: nat, threshold: real)
    requires i <= |group|
    requires AgreesAll(cmp, threshold)
    requires GroupScan(cmp, group, i).Ok?
    ensures var rep := GroupScan(cmp, group, i).value;
      && Aligned(rep, threshold)
      && (forall a, b :: 0 <= a < i && a < b < |group| ==> Compares(cmp, group, a, b))
      && (forall a, b, d :: 0 <= a < i && a < b < |group| && Records(cmp, group, a, b, d) ==> d in rep.discrepancies)
      && (forall d :: d in rep.discrepancies ==>
            exists a, b :: 0 <= a < i && a < b < |group| && Records(cmp, group, a, b, d))
  {
    if i > 0 {
      GroupScanRecords(cmp, group, i - 1, threshold);
      RowScanRecords(cmp, group, i - 1, |group|, threshold);
      var rep := GroupScan(cmp, group, i - 1).value;
      var row := RowScan(cmp, group, i - 1, |group|).value;
      AlignedConcat(rep, row, threshold);
      var all := Concat(rep, row);
      assert GroupScan(cmp, group, i) == Ok(all);
      forall a, b | 0 <= a < i && a < b < |group|
        ensures Compares(cmp, group, a, b)
      {
        if a == i - 1 {
          assert i - 1 < b < |group|;
        }
      }
      forall a, b, d | 0 <= a < i && a < b < |group| && Records(cmp, group, a, b, d)
        ensures d in all.discrepancies
      {
        if a == i - 1 {
          assert d in row.discrepancies;
        } else {
          assert d in rep.discrepancies;
        }
      }
      forall d | d in all.discrepancies
        ensures exists a, b :: 0 <= a < i && a < b < |group| && Records(cmp, group, a, b, d)
      {
        if d in row.discrepancies {
          var b :| i - 1 < b < |group| && Records(cmp, group, i - 1, b, d);
        }
      }
    }
  }

  /** The report over the groups listed in `order`, or the first failure. */
  function ReportScan(order: seq<string>, groups: map<string, seq<Obs>>, threshold: real): Result<DriftReport>
    requires forall k :: k in order ==> k in groups
  {
    if order == [] then Ok(DriftReport([], []))
    else
      var n := |order| - 1;
      var key := order[n];
      assert forall k :: k in order[..n] ==> k in order;
      match ReportScan(order[..n], groups, threshold)
      case Err(e) => Err(e)
      case Ok(rep) =>
        match GroupScan(Comparer(key, threshold), groups[key], |groups[key]|)
        case Err(e) => Err(e)
        case Ok(g) => Ok(Concat(rep, g))
  }

  lemma {:induction false} ReportScanKeepsError(order: seq<string>, groups: map<string, seq<Obs>>, g: nat, k: nat, threshold: real, e: Exc)
    requires g <= k <= |order| && forall x :: x in order ==> x in groups
    requires ReportScan(order[..g], groups, threshold) == Err(e)
    ensures ReportScan(order[..k], groups, threshold) == Err(e)
  {
    if g < k {
      ReportScanKeepsError(order, groups, g, k - 1, threshold, e);
      assert order[..k][..k - 1] == order[..k - 1];
    }
  }

  /** The ids in first-seen order and the observations under each, or the
      first failure. */
  function Grouped(observations: seq<Obs>): (r: Result<(seq<string>, map<string, seq<Obs>>)>)
    ensures r.Ok? <==> forall i :: 0 <= i < |observations| ==> KeyOf(observations[i]).Ok?
    ensures r.Ok? ==> forall k :: k in r.value.0 <==> k in r.value.1
  {
    KeysSpec(observations);
    match Keys(observations)
    case Err(e) => Err(e)
    case Ok(ks) =>
      GroupsSpec(observations, ks);
      Ok((Distinct(ks), Groups(observations, ks)))
  }

  /** Every group holds at least one observation. */
  lemma GroupedNonEmpty(observations: seq<Obs>)
    requires Grouped(observations).Ok?
    ensures forall k :: k in Grouped(observations).value.1 ==> |Grouped(observations).value.1[k]| > 0
  {
    KeysSpec(observations);
    var ks := Keys(observations).value;
    GroupsSpec(observations, ks);
    forall k | k in ks
      ensures |Members(observations, ks, k)| > 0
    {
      MembersNonEmpty(observations, ks, k);
    }
  }

  /** A finished group extends the report. */
  lemma ReportStep(order: seq<string>, groups: map<string, seq<Obs>>, g: nat, threshold: real, report: DriftReport, found: DriftReport)
    requires g < |order| && forall k :: k in order ==> k in groups
    requires ReportScan(order[..g], groups, threshold) == Ok(report)
    requires GroupScan(Comparer(order[g], threshold), groups[order[g]], |groups[order[g]]|) == Ok(found)
    ensures ReportScan(order[..g + 1], groups, threshold) == Ok(Concat(report, found))
  {
    assert order[..g + 1][..g] == order[..g];
  }

  /** A failing group makes the whole report fail with its exception. */
  lemma GroupFailureFailsReport(order: seq<string>, groups: map<string, seq<Obs>>, g: nat, threshold: real, e: Exc)
    requires g < |order| && forall k :: k in order ==> k in groups
    requires ReportScan(order[..g], groups, threshold).Ok?
    requires GroupScan(Comparer(order[g], threshold), groups[order[g]], |groups[order[g]]|) == Err(e)
    ensures ReportScan(order, groups, threshold) == Err(e)
  {
    assert order[..g + 1][..g] == order[..g];
    assert ReportScan(order[..g + 1], groups, threshold) == Err(e);
    ReportScanKeepsError(order, groups, g + 1, |order|, threshold, e);
    assert order[..|order|] == order;
  }

  /** The comparison of members `a` and `b` of a group went over the
      threshold: it produced a discrepancy. */
  predicate Over(cmp: Comparison, group: seq<Obs>, a: nat, b: nat)
    requires a < |group| && b < |group|
  {
    var c := cmp(group[a], group[b]);
    c.Ok? && c.value.Some?
  }

  /** The partners `j` with `i < j < end` whose pair with `i` went over. */
  function OverPartners(cmp: Comparison, group: seq<Obs>, i: nat, end: nat): set<nat>
    requires i < |group| && end <= |group|
  {
    set j: nat | i < j < end && Over(cmp, group, i, j)
  }

  /** The number of pairs `a < b` with `a` among the first `i` rows of a
      group that went over the threshold. */
  function GroupOver(cmp: Comparison, group: seq<Obs>, i: nat): nat
    requires i <= |group|
  {
    if i == 0 then 0
    else GroupOver(cmp, group, i - 1) + |OverPartners(cmp, group, i - 1, |group|)|
  }

  /** The number of same-id pairs, over all the groups, that went over the
      threshold. */
  function ReportOver(order: seq<string>, groups: map<string, seq<Obs>>, threshold: real): nat
    requires forall k :: k in order ==> k in groups
  {
    if order == [] then 0
    else
      var n := |order| - 1;
      var key := order[n];
      assert forall k :: k in order[..n] ==> k in order;
      ReportOver(order[..n], groups, threshold) + GroupOver(Comparer(key, threshold), groups[key], |groups[key]|)
  }

  /** Row `i` holds one discrepancy per partner that went over: no pair is
      recorded twice and none is missed. */
  lemma {:induction false} RowScanCount(cmp: Comparison, group: seq<Obs>, i: nat, end: nat)
    requires i < |group| && end <= |group|
    requires RowScan(cmp, group, i, end).Ok?
    ensures |RowScan(cmp, group, i, end).value.discrepancies| == |OverPartners(cmp, group, i, end)|
    decreases end
  {
    if end <= i + 1 {
      assert OverPartners(cmp, group, i, end) == {};
    } else {
      RowScanCount(cmp, group, i, end - 1);
      PartnersStep(cmp, group, i, end);
    }
  }

  /** Widening the row by one partner adds it exactly when it went over. */
  lemma PartnersStep(cmp: Comparison, group: seq<Obs>, i: nat, end: nat)
    requires i + 1 < end <= |group|
    ensures |OverPartners(cmp, group, i, end)| ==
      |OverPartners(cmp, group, i, end - 1)| + if Over(cmp, group, i, end - 1) then 1 else 0
  {
    var front := OverPartners(cmp, group, i, end - 1);
    if Over(cmp, group, i, end - 1) {
      assert OverPartners(cmp, group, i, end) == front + {end - 1};
    } else {
      assert OverPartners(cmp, group, i, end) == front;
    }
  }

  /** A group's share of the report holds one discrepancy per pair that
      went over. */
  lemma {:induction false} GroupScanCount(cmp: Comparison, group: seq<Obs>, i: nat)
    requires i <= |group|
    requires GroupScan(cmp, group, i).Ok?
    ensures |GroupScan(cmp, group, i).value.discrepancies| == GroupOver(cmp, group, i)
  {
    if i > 0 {
      GroupScanCount(cmp, group, i - 1);
      RowScanCount(cmp, group, i - 1, |group|);
    }
  }

  /** The report holds one discrepancy per same-id pair that went over. */
  lemma {:induction false} ReportScanCount(order: seq<string>, groups: map<string, seq<Obs>>, threshold: real)
    requires forall k :: k in order ==> k in groups
    requires ReportScan(order, groups, threshold).Ok?
    ensures |ReportScan(order, groups, threshold).value.discrepancies| == ReportOver(order, groups, threshold)
  {
    if order != [] {
      var n := |order| - 1;
      var key := order[n];
      ReportScanStep(order, groups, threshold);
      ReportScanCount(order[..n], groups, threshold);
      GroupScanCount(Comparer(key, threshold), groups[key], |groups[key]|);
    }
  }

  /** The report `detect_drift` returns, or the exception it raises. */
  function DriftSpec(observations: seq<Obs>, threshold: real): Result<DriftReport> {
    match Grouped(observations)
    case Err(e) => Err(e)
    case Ok((order, groups)) => ReportScan(order, groups, threshold)
  }

  /** The warnings run in step with the discrepancies, and the report
      records exactly the pairs of same-id observations that went over the
      threshold. */
  lemma ReportScanRecords(order: seq<string>, groups: map<string, seq<Obs>>, threshold: real)
    requires forall k :: k in order ==> k in groups
    requires ReportScan(order, groups, threshold).Ok?
    ensures var rep := ReportScan(order, groups, threshold).value;
      && Aligned(rep, threshold)
      && (forall key, a, b, d ::
            (key in order && 0 <= a < b < |groups[key]| && Records(Comparer(key, threshold), groups[key], a, b, d))
            ==> d in rep.discrepancies)
      && (forall d :: d in rep.discrepancies ==>
            exists key, a, b :: (key in order && 0 <= a < b < |groups[key]|
              && Records(Comparer(key, threshold), groups[key], a, b, d)))
  {
    ReportScanAligned(order, groups, threshold);
    ReportScanComplete(order, groups, threshold);
    ReportScanSound(order, groups, threshold);
  }

  /** One step of the loop over the ids: the report so far, followed by the
      report of the last id's group. */
  lemma ReportScanStep(order: seq<string>, groups: map<string, seq<Obs>>, threshold: real)
    requires forall k :: k in order ==> k in groups
    requires ReportScan(order, groups, threshold).Ok?
    requires order != []
    ensures forall k :: k in order[..|order| - 1] ==> k in groups
    ensures ReportScan(order[..|order| - 1], groups, threshold).Ok?
    ensures var key := order[|order| - 1];
      && GroupScan(Comparer(key, threshold), groups[key], |groups[key]|).Ok?
      && ReportScan(order, groups, threshold).value ==
           Concat(ReportScan(order[..|order| - 1], groups, threshold).value,
                  GroupScan(Comparer(key, threshold), groups[key], |groups[key]|).value)
  {
    assert forall k :: k in order[..|order| - 1] ==> k in order;
  }

  /** Every discrepancy in the report has its warning beside it. */
  lemma {:induction false} ReportScanAligned(order: seq<string>, groups: map<string, seq<Obs>>, threshold: real)
    requires forall k :: k in order ==> k in groups
    requires ReportScan(order, groups, threshold).Ok?
    ensures Aligned(ReportScan(order, groups, threshold).value, threshold)
  {
    if order != [] {
      var n := |order| - 1;
      var key := order[n];
      ReportScanStep(order, groups, threshold);
      ReportScanAligned(order[..n], groups, threshold);
      ComparerAgrees(key, threshold);
      GroupScanRecords(Comparer(key, threshold), groups[key], |groups[key]|, threshold);
      AlignedConcat(ReportScan(order[..n], groups, threshold).value,
        GroupScan(Comparer(key, threshold), groups[key], |groups[key]|).value, threshold);
    }
  }

  /** Every pair of same-id observations that went over the threshold is in
      the report. */
  lemma {:induction false} ReportScanComplete(order: seq<string>, groups: map<string, seq<Obs>>, threshold: real)
    requires forall k :: k in order ==> k in groups
    requires ReportScan(order, groups, threshold).Ok?
    ensures forall key, a, b, d ::
      (key in order && 0 <= a < b < |groups[key]| && Records(Comparer(key, threshold), groups[key], a, b, d))
      ==> d in ReportScan(order, groups, threshold).value.discrepancies
  {
    if order != [] {
      var n := |order| - 1;
      var key := order[n];
      assert order == order[..n] + [key];
      ReportScanStep(order, groups, threshold);
      ReportScanComplete(order[..n], groups, threshold);
      ComparerAgrees(key, threshold);
      GroupScanRecords(Comparer(key, threshold), groups[key], |groups[key]|, threshold);
    }
  }

  /** Every discrepancy in the report comes from a pair of observations of
      one group. */
  lemma {:induction false} ReportScanSound(order: seq<string>, groups: map<string, seq<Obs>>, threshold: real)
    requires forall k :: k in order ==> k in groups
    requires ReportScan(order, groups, threshold).Ok?
    ensures forall d :: d in ReportScan(order, groups, threshold).value.discrepancies ==>
      exists key, a, b :: (key in order && 0 <= a < b < |groups[key]|
        && Records(Comparer(key, threshold), groups[key], a, b, d))
  {
    if order != [] {
      var n := |order| - 1;
      var key := order[n];
      ReportScanStep(order, groups, threshold);
      ReportScanSound(order[..n], groups, threshold);
      ComparerAgrees(key, threshold);
      var cmp := Comparer(key, threshold);
      GroupScanRecords(cmp, groups[key], |groups[key]|, threshold);
      var g := GroupScan(cmp, groups[key], |groups[key]|).value;
      forall d | d in ReportScan(order, groups, threshold).value.discrepancies
        ensures exists key', a, b :: (key' in order && 0 <= a < b < |groups[key']|
          && Records(Comparer(key', threshold), groups[key'], a, b, d))
      {
        if d in g.discrepancies {
          var a, b :| 0 <= a < |groups[key]| && a < b < |groups[key]| && Records(cmp, groups[key], a, b, d);
        } else {
          var key', a, b :| key' in order[..n] && 0 <= a < b < |groups[key']|
            && Records(Comparer(key', threshold), groups[key'], a, b, d);
        }
      }
    }
  }

  /** Only observations that normalise to the same id are compared: every
      member of a group carries the group's key. */
  lemma GroupsShareKey(observations: seq<Obs>, key: string)
    requires Grouped(observations).Ok? && key in Grouped(observations).value.1
    ensures forall o :: o in Grouped(observations).value.1[key] ==> KeyOf(o) == Ok(key) && o in observations
  {
    GroupedIsGroups(observations);
    var ks := Keys(observations).value;
    GroupMembersKeyed(observations, ks, key);
    forall o | o in Groups(observations, ks)[key]
      ensures KeyOf(o) == Ok(key) && o in observations
    {
      var i :| 0 <= i < |observations| && observations[i] == o && ks[i] == key;
      KeyAt(observations, i);
    }
  }

  /** A successful grouping is the grouping of the observations' keys. */
  lemma GroupedIsGroups(observations: seq<Obs>)
    requires Grouped(observations).Ok?
    ensures Keys(observations).Ok? && |Keys(observations).value| == |observations|
    ensures Grouped(observations).value.1 == Groups(observations, Keys(observations).value)
  {
    KeysSpec(observations);
  }

  /** The key computed for one observation. */
  lemma KeyAt(observations: seq<Obs>, i: nat)
    requires Keys(observations).Ok? && i < |observations|
    ensures |Keys(observations).value| == |observations| && KeyOf(observations[i]) == Ok(Keys(observations).value[i])
  {
    KeysSpec(observations);
  }

  /** The number of pairs of observations with the same normalised id, the
      earlier one first, whose comparison went over the threshold. */
  function DriftOver(observations: seq<Obs>, threshold: real): nat
    requires Grouped(observations).Ok?
  {
    var (order, groups) := Grouped(observations).value;
    ReportOver(order, groups, threshold)
  }

  /** `discrepancy_count` is the number of same-id pairs that went over the
      threshold: each such pair is reported once. */
  lemma DriftCountsPairs(observations: seq<Obs>, threshold: real)
    requires DriftSpec(observations, threshold).Ok?
    ensures Grouped(observations).Ok?
    ensures DriftSpec(observations, threshold).value.DiscrepancyCount() == DriftOver(observations, threshold)
  {
    var (order, groups) := Grouped(observations).value;
    ReportScanCount(order, groups, threshold);
  }

  /** A report has warnings exactly when it has discrepancies. */
  lemma DriftWarningsIffDiscrepancies(observations: seq<Obs>, threshold: real)
    requires DriftSpec(observations, threshold).Ok?
    ensures DriftSpec(observations, threshold).value.HasWarnings() <==> DriftSpec(observations, threshold).value.DiscrepancyCount() > 0
  {
    var (order, groups) := Grouped(observations).value;
    ReportScanRecords(order, groups, threshold);
  }

  /** The grouping loop of `detect_drift`: observations by normalised id,
      ids in first-seen order. */
  method GroupByModel(observations: seq<Obs>) returns (r: Result<(seq<string>, map<string, seq<Obs>>)>)
    ensures r == Grouped(observations)
  {
    var order: seq<string> := [];
    var groups: map<string, seq<Obs>> := map[];
    ghost var ks: seq<string> := [];
    for t := 0 to |observations|
      invariant |ks| == t
      invariant Keys(observations[..t]) == Ok(ks)
      invariant order == Distinct(ks) && groups == Groups(observations[..t], ks)
    {
      var obs := observations[t];
      TakeStep(observations, t);
      KeysStep(observations[..t], obs);
      var key := KeyOf(obs);
      if key.Err? {
        KeysErrorInPrefix(observations, t + 1, key.exc);
        return Err(key.exc);
      }
      var k := key.value;
      GroupInsert(observations[..t], ks, obs, k, order, groups);
      if k !in groups {
        groups := groups[k := []];
        order := order + [k];
      }
      groups := groups[k := groups[k] + [obs]];
      ks := ks + [k];
    }
    assert observations[..|observations|] == observations;
    r := Ok((order, groups));
  }

  /** The nested loops of `detect_drift` over one group: every pair `i < j`
      compared in order, stopping at the first failure. */
  method CompareGroup(cmp: Comparison, group: seq<Obs>) returns (r: Result<DriftReport>)
    ensures r == GroupScan(cmp, group, |group|)
  {
    var n := |group|;
    var report := DriftReport([], []);
    for i := 0 to n
      invariant GroupScan(cmp, group, i) == Ok(report)
    {
      ghost var found := report;
      ghost var row := DriftReport([], []);
      assert Concat(found, row) == found;
      for j := i + 1 to n
        invariant RowScan(cmp, group, i, j) == Ok(row)
        invariant report == Concat(found, row)
      {
        var c := cmp(group[i], group[j]);
        if c.Err? {
          PairFailureFailsGroup(cmp, group, i, j, row, c.exc);
          return Err(c.exc);
        }
        RowStep(cmp, group, i, j, row, c.value);
        ConcatRecord(found, row, c.value);
        if c.value.Some? {
          var (d, w) := c.value.value;
          report := DriftReport(report.discrepancies + [d], report.warnings + [w]);
        }
        row := Record(row, c.value);
      }
      GroupStepScan(cmp, group, i, found, row);
    }
    r := Ok(report);
  }

  /** One comparison extends the row's report by its outcome. */
  lemma RowStep(cmp: Comparison, group: seq<Obs>, i: nat, j: nat, row: DriftReport, c: Option<(Discrepancy, Warning)>)
    requires i < j < |group|
    requires RowScan(cmp, group, i, j) == Ok(row) && cmp(group[i], group[j]) == Ok(c)
    ensures RowScan(cmp, group, i, j + 1) == Ok(Record(row, c))
  {
  }

  /** Recording into the row is recording into the running report. */
  lemma ConcatRecord(found: DriftReport, row: DriftReport, c: Option<(Discrepancy, Warning)>)
    ensures Concat(found, Record(row, c)) == Record(Concat(found, row), c)
  {
    if c.Some? {
      var (d, w) := c.value;
      assert found.discrepancies + (row.discrepancies + [d]) == (found.discrepancies + row.discrepancies) + [d];
      assert found.warnings + (row.warnings + [w]) == (found.warnings + row.warnings) + [w];
    }
  }

  /** A finished row extends the group's report. */
  lemma GroupStepScan(cmp: Comparison, group: seq<Obs>, i: nat, found: DriftReport, row: DriftReport)
    requires i < |group|
    requires GroupScan(cmp, group, i) == Ok(found) && RowScan(cmp, group, i, |group|) == Ok(row)
    ensures GroupScan(cmp, group, i + 1) == Ok(Concat(found, row))
  {
  }

  /** A group of fewer than two observations has no pairs to compare. */
  lemma SmallGroupScansNothing(cmp: Comparison, group: seq<Obs>)
    requires |group| < 2
    ensures GroupScan(cmp, group, |group|) == Ok(DriftReport([], []))
  {
    var empty := DriftReport([], []);
    assert GroupScan(cmp, group, 0) == Ok(empty);
    if |group| == 1 {
      assert RowScan(cmp, group, 0, 1) == Ok(empty);
      assert Concat(empty, empty) == empty;
      assert GroupScan(cmp, group, 1) == Ok(empty);
    }
  }

  /** `detect_drift`: group by normalised id in first-seen order, then
      compare every pair inside each group of two or more. */
  method DetectDrift(observations: seq<Obs>, threshold: real) returns (r: Result<DriftReport>)
    ensures r == DriftSpec(observations, threshold)
    ensures r.Ok? ==> (r.value.HasWarnings() <==> r.value.DiscrepancyCount() > 0)
    ensures r.Ok? ==> Grouped(observations).Ok? && r.value.DiscrepancyCount() == DriftOver(observations, threshold)
  {
    var grouped := GroupByModel(observations);
    if grouped.Err? {
      return Err(grouped.exc);
    }
    var (order, groups) := grouped.value;
    r := CompareGroups(order, groups, threshold);
    if r.Ok? {
      DriftWarningsIffDiscrepancies(observations, threshold);
      DriftCountsPairs(observations, threshold);
    }
  }

  /** The comparison loop of `detect_drift` over the groups, in key order;
      groups of fewer than two observations are skipped. */
  method CompareGroups(order: seq<string>, groups: map<string, seq<Obs>>, threshold: real) returns (r: Result<DriftReport>)
    requires forall k :: k in order ==> k in groups
    ensures r == ReportScan(order, groups, threshold)
  {
    var report := DriftReport([], []);
    for g := 0 to |order|
      invariant ReportScan(order[..g], groups, threshold) == Ok(report)
    {
      var key := order[g];
      var group := groups[key];
      if |group| < 2 {
        SmallGroupScansNothing(Comparer(key, threshold), group);
        ReportStep(order, groups, g, threshold, report, DriftReport([], []));
        assert Concat(report, DriftReport([], [])) == report;
        continue;
      }
      var found := CompareGroup(Comparer(key, threshold), group);
      if found.Err? {
        GroupFailureFailsReport(order, groups, g, threshold, found.exc);
        return Err(found.exc);
      }
      ReportStep(order, groups, g, threshold, report, found.value);
      report := Concat(report, found.value);
    }
    assert order[..|order|] == order;
    r := Ok(report);
  }
}
