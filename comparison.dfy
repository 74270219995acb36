/** The comparison checks kept beside the test suite: a stricter model-id
    normaliser (aliases, date and variant suffixes, lower case) and the
    markup classifier that compares official prices with aggregator prices
    for the same model. */
module Comparison {
  import opened Values
  import opened Text

  /** The alias table: names that denote the same priced product under
      another spelling, and the name they stand for. */
  function Alias(n: string): Option<string> {
    if n == "gpt-4-turbo-preview" then Some("gpt-4-turbo")
    else if n == "gpt-4-1106-preview" then Some("gpt-4-turbo")
    else if n == "chatgpt-4o-latest" then Some("gpt-4o")
    else if n == "gpt-3.5-turbo-0613" then Some("gpt-3.5-turbo")
    else None
  }

  /** A markup above this is an error. */
  const MaxMarkup: real := 1.5

  /** A markup above this (and within the maximum) is a warning. */
  const SuspiciousMarkup: real := 1.0

  predicate AllDigits(s: string) {
    forall i :: 0 <= i < |s| ==> IsAsciiDigit(s[i])
  }

  /** The text of `-\d{4}-\d{2}-\d{2}`. */
  predicate IsoDateTail(t: string) {
    |t| == 11 && t[0] == '-' && AllDigits(t[1..5]) && t[5] == '-' && AllDigits(t[6..8])
    && t[8] == '-' && AllDigits(t[9..])
  }

  /** The text of `-\d{8}`. */
  predicate CompactDateTail(t: string) {
    |t| == 9 && t[0] == '-' && AllDigits(t[1..])
  }

  /** `re.sub(pattern + '$', '', s)` for a pattern whose matches are exactly
      `width` characters long and never end in a newline. Python's `$`
      matches at the end of the text and also just before a final newline,
      so the match is removed from either place (never both: only one of them
      can end in a pattern character). */
  function SubAtEnd(s: string, width: nat, matches: string -> bool): (r: string)
    ensures r == s || |r| + width == |s|
    ensures |s| >= width && matches(s[|s| - width..]) ==> r + s[|s| - width..] == s
    ensures ((|s| < width || !matches(s[|s| - width..]))
      && (|s| < width + 1 || s[|s| - 1] != '\n' || !matches(s[|s| - 1 - width..|s| - 1]))) ==> r == s
  {
    if |s| >= width && matches(s[|s| - width..]) then s[..|s| - width]
    else if |s| >= width + 1 && s[|s| - 1] == '\n' && matches(s[|s| - 1 - width..|s| - 1]) then
      s[..|s| - 1 - width] + "\n"
    else s
  }

  /** Everything up to and including the last `/` is dropped. */
  function StripProvider(s: string): (r: string)
    ensures '/' !in r
    ensures '/' !in s ==> r == s
  {
    if '/' in s then LastPiece(s, '/') else s
  }

  /** A dated snapshot suffix, ISO form first and then the compact form. */
  function StripDates(s: string): string {
    SubAtEnd(SubAtEnd(s, 11, IsoDateTail), 9, CompactDateTail)
  }

  /** The variant suffixes that do not change the priced product, each
      at most once and in this order. */
  function StripVariants(s: string): string {
    SubAtEnd(SubAtEnd(SubAtEnd(s, 9, IsThinking), 8, IsPreview), 4, IsFirstRevision)
  }

  predicate IsThinking(t: string) { t == ":thinking" }

  predicate IsPreview(t: string) { t == "-preview" }

  predicate IsFirstRevision(t: string) { t == "-001" }

  /** `normalize_model_id` on text: empty stays empty; otherwise drop the
      provider, then an alias wins outright, else strip dates and variant
      suffixes; the result is lower case. */
  function NormalizeId(s: string): (r: string)
    ensures IsLowercase(r)
    ensures s == "" ==> r == ""
  {
    if s == "" then ""
    else
      var n := StripProvider(s);
      if Alias(n).Some? then Lower(Alias(n).value) else Lower(StripVariants(StripDates(n)))
  }

  /** `normalize_model_id(obs.get('model_id', ''))` on any JSON value: falsy
      values give the empty id; a list or dict containing "/" reaches
      `.split` (AttributeError); other lists and dicts are unhashable in the
      alias lookup, and numbers fail the `in` test (TypeError). */
  function CanonicalKey(v: Value): (r: Result<string>)
    ensures r.Ok? <==> !Truthy(v) || v.Str?
    ensures !Truthy(v) ==> r == Ok("")
    ensures v.Str? ==> r == Ok(NormalizeId(v.s))
  {
    if !Truthy(v) then Ok("")
    else
      match v
      case Str(s) => Ok(NormalizeId(s))
      case Arr(items) => if Str("/") in items then Err(AttributeError) else Err(TypeError)
      case Obj(fields) => if "/" in fields then Err(AttributeError) else Err(TypeError)
      case _ => Err(TypeError)
  }

  /** The text after the last slash of `p + "/" + s` is `s`. */
  lemma LastPieceAfterSlash(p: string, s: string)
    requires '/' !in s
    ensures LastPiece(p + "/" + s, '/') == s
  {
    var whole := p + "/" + s;
    var r := LastPiece(whole, '/');
    assert whole[|p|] == '/';
    var head :| whole == head + ['/'] + r;
    assert whole[|whole| - |r| - 1] == '/' && whole[|whole| - |s| - 1] == '/';
    assert forall i :: |whole| - |s| <= i < |whole| ==> whole[i] == s[i - (|whole| - |s|)];
    assert forall i :: |whole| - |r| <= i < |whole| ==> whole[i] == r[i - (|whole| - |r|)];
    assert |r| == |s|;
    assert r == whole[|whole| - |r|..] == s;
  }

  /** Only the part after the last `/` matters. */
  lemma NormalizeIdIgnoresProvider(p: string, s: string)
    requires '/' !in s
    ensures NormalizeId(p + "/" + s) == NormalizeId(s)
  {
    LastPieceAfterSlash(p, s);
    assert StripProvider(p + "/" + s) == s;
  }

  /** The alias targets are already lower case, and no alias holds a `/`. */
  lemma AliasesPlain(s: string)
    requires Alias(s).Some?
    ensures '/' !in s && Lower(Alias(s).value) == Alias(s).value
  {
    AliasShapes(s);
    LowerOfLowercase(Alias(s).value);
  }

  lemma AliasShapes(s: string)
    requires Alias(s).Some?
    ensures IsLowercase(Alias(s).value)
    ensures '/' !in s
  {
  }

  /** An alias is looked up before any suffix is stripped, and wins. */
  lemma NormalizeIdAlias(s: string)
    requires Alias(s).Some?
    ensures NormalizeId(s) == Alias(s).value
  {
    AliasesPlain(s);
    assert StripProvider(s) == s;
  }

  /** Past the alias table, an id without a provider is stripped and lowered. */
  lemma NormalizeIdUnaliased(s: string)
    requires '/' !in s && Alias(s).None? && s != ""
    ensures NormalizeId(s) == Lower(StripVariants(StripDates(s)))
  {
  }

  /** No dated or variant suffix at the end of `b`, and no final newline. */
  predicate TailFree(b: string) {
    && (b == [] || b[|b| - 1] != '\n')
    && (|b| < 11 || !IsoDateTail(b[|b| - 11..]))
    && (|b| < 9 || !CompactDateTail(b[|b| - 9..]))
    && !EndsWith(b, ":thinking")
    && !EndsWith(b, "-preview")
    && !EndsWith(b, "-001")
  }

  /** A match at the very end is removed. */
  lemma SubAtEndDrops(b: string, t: string, width: nat, matches: string -> bool)
    requires |t| == width && matches(t)
    ensures SubAtEnd(b + t, width, matches) == b
  {
    assert (b + t)[|b + t| - width..] == t;
    assert (b + t)[..|b|] == b;
  }

  /** Text that does not end in a match (nor in a newline) is kept. */
  lemma SubAtEndKeeps(s: string, width: nat, matches: string -> bool)
    requires s == [] || s[|s| - 1] != '\n'
    requires |s| < width || !matches(s[|s| - width..])
    ensures SubAtEnd(s, width, matches) == s
  {
  }

  /** What a date tail must have where: a digit last, dashes at fixed places. */
  lemma DateShapes(t: string)
    ensures IsoDateTail(t) ==> IsAsciiDigit(t[10]) && t[8] == '-'
    ensures CompactDateTail(t) ==> IsAsciiDigit(t[8]) && IsAsciiDigit(t[5]) && IsAsciiDigit(t[3])
  {
    if IsoDateTail(t) {
      assert t[9..][1] == t[10];
    }
    if CompactDateTail(t) {
      assert t[1..][7] == t[8] && t[1..][4] == t[5] && t[1..][2] == t[3];
    }
  }

  /** Date suffixes are dashes and digits, so hold no `/`. */
  lemma DateTailNoSlash(d: string)
    requires IsoDateTail(d) || CompactDateTail(d)
    ensures '/' !in d
  {
    forall i | 0 <= i < |d|
      ensures d[i] != '/'
    {
      if IsoDateTail(d) {
        if 1 <= i < 5 {
          assert d[1..5][i - 1] == d[i];
        } else if 6 <= i < 8 {
          assert d[6..8][i - 6] == d[i];
        } else if 9 <= i {
          assert d[9..][i - 9] == d[i];
        }
      } else if 1 <= i {
        assert d[1..][i - 1] == d[i];
      }
    }
  }

  /** Every stripping step leaves a suffix-free id alone. */
  lemma StripsKeep(b: string)
    requires TailFree(b)
    ensures StripVariants(StripDates(b)) == b
  {
    SubAtEndKeeps(b, 11, IsoDateTail);
    SubAtEndKeeps(b, 9, CompactDateTail);
    SubAtEndKeeps(b, 9, IsThinking);
    SubAtEndKeeps(b, 8, IsPreview);
    SubAtEndKeeps(b, 4, IsFirstRevision);
  }

  /** An id with none of the stripped suffixes is only lower-cased: so
      `:extended`, `-16k` and `-instruct` variants keep their identity. */
  lemma NormalizeIdKeepsVariants(b: string)
    requires '/' !in b && Alias(b).None? && TailFree(b)
    ensures NormalizeId(b) == Lower(b)
  {
    StripsKeep(b);
  }

  /** A trailing `-YYYY-MM-DD` is removed. */
  lemma NormalizeIdStripsIsoDate(b: string, d: string)
    requires IsoDateTail(d) && '/' !in b && Alias(b + d).None? && TailFree(b)
    ensures NormalizeId(b + d) == Lower(b)
  {
    DateTailNoSlash(d);
    SubAtEndDrops(b, d, 11, IsoDateTail);
    StripsKeep(b);
  }

  /** A trailing `-YYYYMMDD` is removed. */
  lemma NormalizeIdStripsCompactDate(b: string, d: string)
    requires CompactDateTail(d) && '/' !in b && Alias(b + d).None? && TailFree(b)
    ensures NormalizeId(b + d) == Lower(b)
  {
    var s := b + d;
    DateTailNoSlash(d);
    DateShapes(d);
    if |s| >= 11 {
      DateShapes(s[|s| - 11..]);
      assert s[|s| - 11..][8] == d[6];
    }
    assert s[|s| - 1] == d[8];
    SubAtEndKeeps(s, 11, IsoDateTail);
    SubAtEndDrops(b, d, 9, CompactDateTail);
    StripsKeep(b);
  }

  /** Neither date pattern matches at the end of `b + v` for a variant `v`. */
  lemma VariantNotDated(b: string, v: string)
    requires v == ":thinking" || v == "-preview" || v == "-001"
    ensures StripDates(b + v) == b + v
  {
    var s := b + v;
    if v == "-001" {
      assert s[|s| - 1] == '1' && s[|s| - 3] == '0' && s[|s| - 4] == '-';
    } else {
      assert s[|s| - 1] == v[|v| - 1];
    }
    NotDated(s);
  }

  /** Text ending in neither a digit nor a newline, or in a digit without a
      dash three from the end and with a non-digit four from the end, has
      no date suffix. */
  lemma NotDated(s: string)
    requires s != [] && s[|s| - 1] != '\n'
    requires !IsAsciiDigit(s[|s| - 1]) || (|s| >= 4 && s[|s| - 3] != '-' && !IsAsciiDigit(s[|s| - 4]))
    ensures StripDates(s) == s
  {
    if |s| >= 11 {
      var t := s[|s| - 11..];
      DateShapes(t);
      assert t[10] == s[|s| - 1] && t[8] == s[|s| - 3];
    }
    SubAtEndKeeps(s, 11, IsoDateTail);
    if |s| >= 9 {
      var t := s[|s| - 9..];
      DateShapes(t);
      assert t[8] == s[|s| - 1] && t[5] == s[|s| - 4];
    }
    SubAtEndKeeps(s, 9, CompactDateTail);
  }

  /** A variant suffix on a suffix-free id is stripped, and only it. */
  lemma StripVariantsDrops(b: string, v: string)
    requires v == ":thinking" || v == "-preview" || v == "-001"
    requires TailFree(b)
    ensures StripVariants(b + v) == b
  {
    if v == ":thinking" {
      StripThinkingDrops(b);
    } else if v == "-preview" {
      StripPreviewDrops(b);
    } else {
      StripFirstRevisionDrops(b);
    }
  }

  lemma StripThinkingDrops(b: string)
    requires TailFree(b)
    ensures StripVariants(b + ":thinking") == b
  {
    SubAtEndDrops(b, ":thinking", 9, IsThinking);
    SubAtEndKeeps(b, 8, IsPreview);
    SubAtEndKeeps(b, 4, IsFirstRevision);
  }

  lemma StripPreviewDrops(b: string)
    requires TailFree(b)
    ensures StripVariants(b + "-preview") == b
  {
    var s := b + "-preview";
    if |s| >= 9 {
      assert s[|s| - 9..][8] == 'w';
    }
    SubAtEndKeeps(s, 9, IsThinking);
    SubAtEndDrops(b, "-preview", 8, IsPreview);
    SubAtEndKeeps(b, 4, IsFirstRevision);
  }

  lemma StripFirstRevisionDrops(b: string)
    requires TailFree(b)
    ensures StripVariants(b + "-001") == b
  {
    var s := b + "-001";
    if |s| >= 9 {
      assert s[|s| - 9..][8] == '1';
    }
    SubAtEndKeeps(s, 9, IsThinking);
    if |s| >= 8 {
      assert s[|s| - 8..][7] == '1';
    }
    SubAtEndKeeps(s, 8, IsPreview);
    SubAtEndDrops(b, "-001", 4, IsFirstRevision);
  }

  /** `:thinking`, `-preview` and `-001` are each removed from the end. */
  lemma NormalizeIdStripsVariant(b: string, v: string)
    requires v == ":thinking" || v == "-preview" || v == "-001"
    requires '/' !in b && Alias(b + v).None? && TailFree(b)
    ensures NormalizeId(b + v) == Lower(b)
  {
    VariantNotDated(b, v);
    StripVariantsDrops(b, v);
    VariantNoSlash(b, v);
    NormalizeIdUnaliased(b + v);
  }

  /** The variant suffixes hold no `/`. */
  lemma VariantNoSlash(b: string, v: string)
    requires v == ":thinking" || v == "-preview" || v == "-001"
    requires '/' !in b
    ensures '/' !in b + v
  {
    if v == ":thinking" {
      assert v == [':'] + "thinking";
    } else if v == "-preview" {
      assert v == ['-'] + "preview";
    } else {
      assert v == ['-'] + "001";
    }
  }

  /** The variant suffixes are tried in order and each at most once: a
      `-preview` before a removed `-001` stays. */
  lemma NormalizeIdPreviewThenFirst(b: string)
    requires '/' !in b && Alias(b + "-preview" + "-001").None? && TailFree(b)
    ensures NormalizeId(b + "-preview" + "-001") == Lower(b + "-preview")
  {
    NormalizeIdUnaliased(b + "-preview" + "-001");
    VariantNotDated(b + "-preview", "-001");
    PreviewKeptBeforeFirst(b + "-preview");
  }

  lemma PreviewKeptBeforeFirst(bp: string)
    requires EndsWith(bp, "-preview")
    ensures StripVariants(bp + "-001") == bp
  {
    var s := bp + "-001";
    assert s[|s| - 9..][8] == '1';
    SubAtEndKeeps(s, 9, IsThinking);
    assert s[|s| - 8..][7] == '1';
    SubAtEndKeeps(s, 8, IsPreview);
    SubAtEndDrops(bp, "-001", 4, IsFirstRevision);
  }

  /** A `-preview` after `-001` is removed first and exposes the `-001` in
      time for it to be removed too. */
  lemma NormalizeIdFirstThenPreview(b: string)
    requires '/' !in b && Alias(b + "-001" + "-preview").None? && TailFree(b)
    ensures NormalizeId(b + "-001" + "-preview") == Lower(b)
  {
    NormalizeIdUnaliased(b + "-001" + "-preview");
    VariantNotDated(b + "-001", "-preview");
    FirstRemovedAfterPreview(b);
  }

  lemma FirstRemovedAfterPreview(b: string)
    requires TailFree(b)
    ensures StripVariants(b + "-001" + "-preview") == b
  {
    var b1 := b + "-001";
    var t := b1 + "-preview";
    assert t[|t| - 9..][8] == 'w';
    SubAtEndKeeps(t, 9, IsThinking);
    SubAtEndDrops(b1, "-preview", 8, IsPreview);
    SubAtEndDrops(b, "-001", 4, IsFirstRevision);
  }

  /** `normalize_model_id(obs.get('model_id', ''))`. */
  function IdOf(o: Obs): Result<string> {
    CanonicalKey(GetOr(o, "model_id", Str("")))
  }

  /** `obs.get('collection_method', '') == collectionMethod`. */
  predicate MethodIs(o: Obs, collectionMethod: string) {
    GetOr(o, "collection_method", Str("")) == Str(collectionMethod)
  }

  /** The observation is the official (`manual`) or the aggregator price of
      model `k`. */
  predicate Source(id: Obs -> Result<string>, o: Obs, k: string, collectionMethod: string) {
    id(o) == Ok(k) && MethodIs(o, collectionMethod)
  }

  /** `{'official': ..., 'aggregator': ...}` for one normalised id. */
  datatype Pairing = Pairing(official: Option<Obs>, aggregator: Option<Obs>)

  /** The grouping loop of `validate_comparison_data`: ids in first-seen
      order, each with the last official and the last aggregator
      observation seen; empty ids are skipped. */
  function Paired(id: Obs -> Result<string>, observations: seq<Obs>): Result<(seq<string>, map<string, Pairing>)> {
    if observations == [] then Ok(([], map[]))
    else
      var n := |observations| - 1;
      var o := observations[n];
      match Paired(id, observations[..n])
      case Err(e) => Err(e)
      case Ok((order, models)) =>
        match id(o)
        case Err(e) => Err(e)
        case Ok(k) =>
          if k == "" then Ok((order, models))
          else
            var entry := if k in models then models[k] else Pairing(None, None);
            var updated :=
              if MethodIs(o, "manual") then entry.(official := Some(o))
              else if MethodIs(o, "aggregator_api") then entry.(aggregator := Some(o))
              else entry;
            Ok((if k in models then order else order + [k], models[k := updated]))
  }

  /** The last observation that is the `collectionMethod` price of model `k`: an
      independent description of what the overwriting loop keeps. */
  function Latest(id: Obs -> Result<string>, observations: seq<Obs>, k: string, collectionMethod: string): Option<Obs> {
    if observations == [] then None
    else
      var n := |observations| - 1;
      if Source(id, observations[n], k, collectionMethod) then Some(observations[n])
      else Latest(id, observations[..n], k, collectionMethod)
  }

  /** `Latest` finds the last matching observation, or there is none. */
  lemma {:induction false} LatestSpec(id: Obs -> Result<string>, observations: seq<Obs>, k: string, collectionMethod: string)
    ensures var r := Latest(id, observations, k, collectionMethod);
      && (r.Some? ==> exists p :: (0 <= p < |observations| && observations[p] == r.value
        && Source(id, observations[p], k, collectionMethod)
        && forall q :: p < q < |observations| ==> !Source(id, observations[q], k, collectionMethod)))
      && (r.None? ==> forall p :: 0 <= p < |observations| ==> !Source(id, observations[p], k, collectionMethod))
  {
    if observations != [] {
      var n := |observations| - 1;
      var front := observations[..n];
      if !Source(id, observations[n], k, collectionMethod) {
        LatestSpec(id, front, k, collectionMethod);
        assert forall p :: 0 <= p < n ==> front[p] == observations[p];
        var r := Latest(id, front, k, collectionMethod);
        if r.Some? {
          var p :| 0 <= p < n && front[p] == r.value && Source(id, front[p], k, collectionMethod)
            && forall q :: p < q < n ==> !Source(id, front[q], k, collectionMethod);
          assert observations[p] == r.value;
        }
      }
    }
  }

  /** The id table holds exactly the non-empty ids seen, once each in
      first-seen order, and for each the last official and the last
      aggregator observation: a later one overwrites an earlier one. */
  lemma PairedLatest(id: Obs -> Result<string>, observations: seq<Obs>)
    requires Paired(id, observations).Ok?
    ensures var (order, models) := Paired(id, observations).value;
      && (forall k :: k in models <==> k in order)
      && (forall i, j :: 0 <= i < j < |order| ==> order[i] != order[j])
      && (forall k :: k in models <==> k != "" && exists p :: 0 <= p < |observations| && id(observations[p]) == Ok(k))
      && (forall k :: k in models ==> models[k] == Pairing(Latest(id, observations, k, "manual"), Latest(id, observations, k, "aggregator_api")))
  {
    PairedOrder(id, observations);
    PairedKeys(id, observations);
    PairedEntries(id, observations);
  }

  /** The order lists the table's keys, each once. */
  lemma {:induction false} PairedOrder(id: Obs -> Result<string>, observations: seq<Obs>)
    requires Paired(id, observations).Ok?
    ensures var (order, models) := Paired(id, observations).value;
      && (forall k :: k in models <==> k in order)
      && (forall i, j :: 0 <= i < j < |order| ==> order[i] != order[j])
  {
    if observations != [] {
      PairedOrder(id, observations[..|observations| - 1]);
    }
  }

  /** The table's keys are the non-empty ids seen. */
  lemma {:induction false} PairedKeys(id: Obs -> Result<string>, observations: seq<Obs>)
    requires Paired(id, observations).Ok?
    ensures var models := Paired(id, observations).value.1;
      forall k :: k in models <==> k != "" && exists p :: 0 <= p < |observations| && id(observations[p]) == Ok(k)
  {
    if observations != [] {
      var n := |observations| - 1;
      var front := observations[..n];
      PairedKeys(id, front);
      PairedKeysStep(id, observations);
      SeenStep(id, observations);
    }
  }

  /** An id is seen in a non-empty list iff it is seen in its front or is
      the last observation's id. */
  lemma SeenStep(id: Obs -> Result<string>, observations: seq<Obs>)
    requires observations != []
    ensures var n := |observations| - 1;
      forall x :: (exists p :: 0 <= p < |observations| && id(observations[p]) == Ok(x))
        <==> (exists p :: 0 <= p < n && id(observations[..n][p]) == Ok(x)) || id(observations[n]) == Ok(x)
  {
    var n := |observations| - 1;
    forall x
      ensures (exists p :: 0 <= p < |observations| && id(observations[p]) == Ok(x))
        <==> (exists p :: 0 <= p < n && id(observations[..n][p]) == Ok(x)) || id(observations[n]) == Ok(x)
    {
      if exists p :: 0 <= p < |observations| && id(observations[p]) == Ok(x) {
        var p :| 0 <= p < |observations| && id(observations[p]) == Ok(x);
        if p < n {
          assert observations[..n][p] == observations[p];
        }
      }
      if exists p :: 0 <= p < n && id(observations[..n][p]) == Ok(x) {
        var p :| 0 <= p < n && id(observations[..n][p]) == Ok(x);
        assert observations[..n][p] == observations[p];
      }
    }
  }

  /** One more observation adds its id to the table's keys, unless empty. */
  lemma PairedKeysStep(id: Obs -> Result<string>, observations: seq<Obs>)
    requires observations != [] && Paired(id, observations).Ok?
    ensures var n := |observations| - 1;
      && Paired(id, observations[..n]).Ok? && id(observations[n]).Ok?
      && var models, models' := Paired(id, observations[..n]).value.1, Paired(id, observations).value.1;
      && var k := id(observations[n]).value;
      && forall x :: x in models' <==> x in models || (x == k && k != "")
  {
  }

  /** Each entry holds the last official and the last aggregator
      observation of its id. */
  lemma {:induction false} PairedEntries(id: Obs -> Result<string>, observations: seq<Obs>)
    requires Paired(id, observations).Ok?
    ensures var models := Paired(id, observations).value.1;
      forall k :: k in models ==> models[k] == Pairing(Latest(id, observations, k, "manual"), Latest(id, observations, k, "aggregator_api"))
  {
    if observations != [] {
      var n := |observations| - 1;
      var front := observations[..n];
      var o := observations[n];
      PairedEntries(id, front);
      PairedKeys(id, front);
      assert forall p :: 0 <= p < n ==> front[p] == observations[p];
      var k := id(o).value;
      var models' := Paired(id, observations).value.1;
      forall x | x in models'
        ensures models'[x] == Pairing(Latest(id, observations, x, "manual"), Latest(id, observations, x, "aggregator_api"))
      {
        if x != k {
          assert !Source(id, o, x, "manual") && !Source(id, o, x, "aggregator_api");
        } else if x !in Paired(id, front).value.1 {
          LatestUnseen(id, front, x, "manual");
          LatestUnseen(id, front, x, "aggregator_api");
        }
      }
    }
  }

  /** An id that never occurs has no latest observation. */
  lemma {:induction false} LatestUnseen(id: Obs -> Result<string>, observations: seq<Obs>, k: string, collectionMethod: string)
    requires forall p :: 0 <= p < |observations| ==> id(observations[p]) != Ok(k)
    ensures Latest(id, observations, k, collectionMethod) == None
  {
    if observations != [] {
      var n := |observations| - 1;
      assert forall p :: 0 <= p < n ==> observations[..n][p] == observations[p];
      LatestUnseen(id, observations[..n], k, collectionMethod);
    }
  }

  /** `(o['input_rate_usd_per_1m'] + o['output_rate_usd_per_1m']) / 2`:
      a missing rate raises KeyError, a non-numeric one TypeError. */
  function Blend(o: Obs): (r: Result<real>)
    ensures r.Ok? <==> ("input_rate_usd_per_1m" in o && "output_rate_usd_per_1m" in o
      && AsNumber(o["input_rate_usd_per_1m"]).Some? && AsNumber(o["output_rate_usd_per_1m"]).Some?)
    ensures r.Ok? ==> 2.0 * r.value == AsNumber(o["input_rate_usd_per_1m"]).value + AsNumber(o["output_rate_usd_per_1m"]).value
    ensures "input_rate_usd_per_1m" !in o ==> r == Err(KeyError("input_rate_usd_per_1m"))
    ensures "input_rate_usd_per_1m" in o && "output_rate_usd_per_1m" !in o ==> r == Err(KeyError("output_rate_usd_per_1m"))
    ensures ("input_rate_usd_per_1m" in o && "output_rate_usd_per_1m" in o
      && (AsNumber(o["input_rate_usd_per_1m"]).None? || AsNumber(o["output_rate_usd_per_1m"]).None?))
      ==> r == Err(TypeError)
  {
    if "input_rate_usd_per_1m" !in o then Err(KeyError("input_rate_usd_per_1m"))
    else if "output_rate_usd_per_1m" !in o then Err(KeyError("output_rate_usd_per_1m"))
    else
      match (AsNumber(o["input_rate_usd_per_1m"]), AsNumber(o["output_rate_usd_per_1m"]))
      case (Some(a), Some(b)) => Ok((a + b) / 2.0)
      case _ => Err(TypeError)
  }

  /** How an official and an aggregator blend compare. */
  datatype Verdict = FreeOfficial | TooHigh(markup: real) | Suspicious(markup: real) | Plausible

  /** The markup classification: a zero official price is an error, a
      markup over 150% an error, over 100% a warning, anything else fine. */
  function Assess(official: real, aggregator: real): Verdict {
    if official == 0.0 then FreeOfficial
    else
      var markup := (aggregator - official) / official;
      if markup > MaxMarkup then TooHigh(markup)
      else if markup > SuspiciousMarkup then Suspicious(markup)
      else Plausible
  }

  /** For a positive official price the thresholds are price ratios: an
      error above 2.5 times the official price, a warning above twice it. */
  lemma AssessInPrices(official: real, aggregator: real)
    requires official > 0.0
    ensures Assess(official, aggregator).TooHigh? <==> aggregator > 2.5 * official
    ensures Assess(official, aggregator).Suspicious? <==> 2.0 * official < aggregator <= 2.5 * official
    ensures Assess(official, aggregator).Plausible? <==> aggregator <= 2.0 * official
    ensures !Assess(official, aggregator).FreeOfficial?
  {
    var markup := (aggregator - official) / official;
    assert markup * official == aggregator - official;
    MarkupOrder(official, aggregator, markup, MaxMarkup);
    MarkupOrder(official, aggregator, markup, SuspiciousMarkup);
  }

  lemma MarkupOrder(official: real, aggregator: real, markup: real, bound: real)
    requires official > 0.0 && markup * official == aggregator - official
    ensures markup > bound <==> aggregator > (bound + 1.0) * official
  {
    if markup > bound {
      assert (markup - bound) * official > 0.0;
    } else {
      assert (bound - markup) * official >= 0.0;
    }
  }

  /** A message of the report. */
  datatype Finding =
    | FreeOfficialPrice(modelId: string)
    | ExcessiveMarkup(modelId: string, markup: real, officialBlend: real, aggregatorBlend: real)
    | HighMarkup(modelId: string, markup: real)

  /** The accumulators of the classification loop. */
  datatype Tally = Tally(validComparisons: nat, warnings: seq<Finding>, errors: seq<Finding>)

  /** The dict `validate_comparison_data` returns. */
  datatype ComparisonReport = ComparisonReport(valid: bool, validComparisons: nat, warnings: seq<Finding>, errors: seq<Finding>)

  /** `not sources[...]`: a missing entry, or an empty dict, is skipped. */
  predicate Present(p: Option<Obs>) {
    p.Some? && p.value != map[]
  }

  predicate Compared(p: Pairing) {
    Present(p.official) && Present(p.aggregator)
  }

  /** The verdict on one id, `None` when it lacks either side, or the
      exception raised while blending its prices. */
  function Judge(p: Pairing): Result<Option<(real, real, Verdict)>> {
    if !Compared(p) then Ok(None)
    else
      match Blend(p.official.value)
      case Err(e) => Err(e)
      case Ok(off) =>
        match Blend(p.aggregator.value)
        case Err(e) => Err(e)
        case Ok(agg) => Ok(Some((off, agg, Assess(off, agg))))
  }

  /** One verdict's effect on the accumulators. */
  function Tallied(t: Tally, k: string, j: Option<(real, real, Verdict)>): Tally {
    match j
    case None => t
    case Some((off, agg, v)) =>
      match v
      case FreeOfficial => t.(errors := t.errors + [FreeOfficialPrice(k)])
      case TooHigh(markup) => t.(errors := t.errors + [ExcessiveMarkup(k, markup, off, agg)])
      case Suspicious(markup) => t.(warnings := t.warnings + [HighMarkup(k, markup)])
      case Plausible => t.(validComparisons := t.validComparisons + 1)
  }

  /** The classification loop over the ids in table order. */
  function Review(order: seq<string>, models: map<string, Pairing>): Result<Tally>
    requires forall k :: k in order ==> k in models
  {
    if order == [] then Ok(Tally(0, [], []))
    else
      var n := |order| - 1;
      assert forall k :: k in order[..n] ==> k in order;
      match Review(order[..n], models)
      case Err(e) => Err(e)
      case Ok(t) =>
        match Judge(models[order[n]])
        case Err(e) => Err(e)
        case Ok(j) => Ok(Tallied(t, order[n], j))
  }

  /** The report `validate_comparison_data` returns, or the exception it
      raises. */
  function ComparisonSpec(observations: seq<Obs>): Result<ComparisonReport> {
    match Paired(IdOf, observations)
    case Err(e) => Err(e)
    case Ok((order, models)) =>
      PairedLatest(IdOf, observations);
      match Review(order, models)
      case Err(e) => Err(e)
      case Ok(t) => Ok(ComparisonReport(|t.errors| == 0, t.validComparisons, t.warnings, t.errors))
  }

  /** A verdict that goes into `errors`. */
  predicate IsError(j: Option<(real, real, Verdict)>) {
    j.Some? && (j.value.2.FreeOfficial? || j.value.2.TooHigh?)
  }

  /** How many ids have both an official and an aggregator price. */
  function ComparedCount(order: seq<string>, models: map<string, Pairing>): nat
    requires forall k :: k in order ==> k in models
  {
    if order == [] then 0
    else
      var n := |order| - 1;
      assert forall k :: k in order[..n] ==> k in order;
      ComparedCount(order[..n], models) + (if Compared(models[order[n]]) then 1 else 0)
  }

  /** Every compared id is counted exactly once: as valid, as a warning or
      as an error; and the report is valid exactly when no compared id got
      an error verdict. */
  lemma {:induction false} ReviewPartitions(order: seq<string>, models: map<string, Pairing>)
    requires forall k :: k in order ==> k in models
    requires Review(order, models).Ok?
    ensures var t := Review(order, models).value;
      && t.validComparisons + |t.warnings| + |t.errors| == ComparedCount(order, models)
      && (forall i :: 0 <= i < |order| ==> Judge(models[order[i]]).Ok?)
      && (t.errors == [] <==> forall i :: 0 <= i < |order| ==> !IsError(Judge(models[order[i]]).value))
  {
    ReviewCounted(order, models);
    ReviewVerdicts(order, models);
  }

  /** Each compared id adds one to exactly one of the three counts. */
  lemma {:induction false} ReviewCounted(order: seq<string>, models: map<string, Pairing>)
    requires forall k :: k in order ==> k in models
    requires Review(order, models).Ok?
    ensures var t := Review(order, models).value;
      t.validComparisons + |t.warnings| + |t.errors| == ComparedCount(order, models)
  {
    if order != [] {
      var n := |order| - 1;
      assert forall k :: k in order[..n] ==> k in order;
      ReviewCounted(order[..n], models);
    }
  }

  /** A successful review judged every id, and recorded no error exactly
      when no verdict was an error. */
  lemma {:induction false} ReviewVerdicts(order: seq<string>, models: map<string, Pairing>)
    requires forall k :: k in order ==> k in models
    requires Review(order, models).Ok?
    ensures forall i :: 0 <= i < |order| ==> Judge(models[order[i]]).Ok?
    ensures Review(order, models).value.errors == [] <==>
      forall i :: 0 <= i < |order| ==> !IsError(Judge(models[order[i]]).value)
  {
    if order != [] {
      var n := |order| - 1;
      assert forall k :: k in order[..n] ==> k in order;
      ReviewVerdicts(order[..n], models);
      assert forall i :: 0 <= i < n ==> order[..n][i] == order[i];
    }
  }

  /** A failure while grouping a prefix is the failure of the whole loop. */
  lemma {:induction false} PairedKeepsError(id: Obs -> Result<string>, observations: seq<Obs>, t: nat, e: Exc)
    requires t <= |observations| && Paired(id, observations[..t]) == Err(e)
    ensures Paired(id, observations) == Err(e)
    decreases |observations| - t
  {
    if t == |observations| {
      assert observations[..t] == observations;
    } else {
      var longer := observations[..t + 1];
      assert longer[..t] == observations[..t];
      assert Paired(id, longer) == Err(e);
      PairedKeepsError(id, observations, t + 1, e);
    }
  }

  /** A failure while classifying a prefix of the ids is the failure of the
      whole loop. */
  lemma {:induction false} ReviewKeepsError(order: seq<string>, models: map<string, Pairing>, g: nat, e: Exc)
    requires forall k :: k in order ==> k in models
    requires g <= |order| && Review(order[..g], models) == Err(e)
    ensures Review(order, models) == Err(e)
    decreases |order| - g
  {
    assert forall k :: k in order[..g] ==> k in order;
    if g == |order| {
      assert order[..g] == order;
    } else {
      var longer := order[..g + 1];
      assert longer[..g] == order[..g];
      assert forall k :: k in longer ==> k in order;
      assert Review(longer, models) == Err(e);
      ReviewKeepsError(order, models, g + 1, e);
    }
  }

  /** One more id of the table order: the report so far is extended by that
      id's verdict. */
  lemma ReviewStep(order: seq<string>, models: map<string, Pairing>, g: nat)
    requires forall k :: k in order ==> k in models
    requires g < |order|
    ensures forall k :: k in order[..g + 1] ==> k in models
    ensures forall k :: k in order[..g] ==> k in models
    ensures Review(order[..g + 1], models) ==
      match Review(order[..g], models)
      case Err(e) => Err(e)
      case Ok(t) =>
        match Judge(models[order[g]])
        case Err(e) => Err(e)
        case Ok(j) => Ok(Tallied(t, order[g], j))
  {
    assert order[..g + 1][..g] == order[..g];
    assert forall k :: k in order[..g + 1] ==> k in order;
    assert forall k :: k in order[..g] ==> k in order;
  }

  /** The grouping loop of `validate_comparison_data`: a later observation
      of the same id and collection method overwrites an earlier one. */
  method PairObservations(id: Obs -> Result<string>, observations: seq<Obs>)
    returns (r: Result<(seq<string>, map<string, Pairing>)>)
    ensures r == Paired(id, observations)
  {
    var order: seq<string> := [];
    var models: map<string, Pairing> := map[];
    for t := 0 to |observations|
      invariant Paired(id, observations[..t]) == Ok((order, models))
    {
      var obs := observations[t];
      assert observations[..t + 1][..t] == observations[..t];
      var normalized := id(obs);
      if normalized.Err? {
        assert Paired(id, observations[..t + 1]) == Err(normalized.exc);
        PairedKeepsError(id, observations, t + 1, normalized.exc);
        return Err(normalized.exc);
      }
      var k := normalized.value;
      if k == "" {
        continue;
      }
      ghost var before := models;
      if k !in models {
        models := models[k := Pairing(None, None)];
        order := order + [k];
      }
      if MethodIs(obs, "manual") {
        models := models[k := models[k].(official := Some(obs))];
      } else if MethodIs(obs, "aggregator_api") {
        models := models[k := models[k].(aggregator := Some(obs))];
      }
      ghost var entry := if k in before then before[k] else Pairing(None, None);
      assert models == before[k := if MethodIs(obs, "manual") then entry.(official := Some(obs))
        else if MethodIs(obs, "aggregator_api") then entry.(aggregator := Some(obs))
        else entry];
    }
    assert observations[..|observations|] == observations;
    r := Ok((order, models));
  }

  /** The classification loop of `validate_comparison_data`: the blended
      prices of each complete pair decide between an error, a warning and a
      valid comparison. */
  method ReviewPairs(order: seq<string>, models: map<string, Pairing>) returns (r: Result<Tally>)
    requires forall k :: k in order ==> k in models
    ensures r == Review(order, models)
  {
    var warnings: seq<Finding> := [];
    var errors: seq<Finding> := [];
    var validComparisons := 0;
    for g := 0 to |order|
      invariant forall k :: k in order[..g] ==> k in models
      invariant Review(order[..g], models) == Ok(Tally(validComparisons, warnings, errors))
    {
      ReviewStep(order, models, g);
      var normId := order[g];
      var sources := models[normId];
      if !Present(sources.official) || !Present(sources.aggregator) {
        continue;
      }
      var offBlend := Blend(sources.official.value);
      if offBlend.Err? {
        ReviewKeepsError(order, models, g + 1, offBlend.exc);
        return Err(offBlend.exc);
      }
      var aggBlend := Blend(sources.aggregator.value);
      if aggBlend.Err? {
        ReviewKeepsError(order, models, g + 1, aggBlend.exc);
        return Err(aggBlend.exc);
      }
      var off, agg := offBlend.value, aggBlend.value;
      if off == 0.0 {
        errors := errors + [FreeOfficialPrice(normId)];
        continue;
      }
      var markup := (agg - off) / off;
      if markup > MaxMarkup {
        errors := errors + [ExcessiveMarkup(normId, markup, off, agg)];
      } else if markup > SuspiciousMarkup {
        warnings := warnings + [HighMarkup(normId, markup)];
      } else {
        validComparisons := validComparisons + 1;
      }
    }
    assert order[..|order|] == order;
    r := Ok(Tally(validComparisons, warnings, errors));
  }

  /** `validate_comparison_data`: pair each normalised id's official and
      aggregator observations, then classify the markup of every complete
      pair. */
  method ValidateComparisonData(observations: seq<Obs>) returns (r: Result<ComparisonReport>)
    ensures r == ComparisonSpec(observations)
  {
    var paired := PairObservations(IdOf, observations);
    if paired.Err? {
      return Err(paired.exc);
    }
    var (order, models) := paired.value;
    PairedLatest(IdOf, observations);
    var tally := ReviewPairs(order, models);
    if tally.Err? {
      return Err(tally.exc);
    }
    var t := tally.value;
    r := Ok(ComparisonReport(|t.errors| == 0, t.validComparisons, t.warnings, t.errors));
  }
}
