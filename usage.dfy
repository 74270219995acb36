/** The fold both usage normalisers perform: every usage record is added
    to the provider totals and to its model's entry of `by_model`, a model
    getting a fresh entry the first time it is seen. */
module UsageFold {
  import opened Values
  import opened Grouping
  import opened Schema

  /** One usage record as a normaliser reads it: counts a record lacks are
      read as 0 and a missing model name as `"unknown"` before this point. */
  datatype Row = Row(model: string, input: int, output: int, cached: int, cacheCreation: int, requests: int)

  /** The records a report's entries give, one per entry and in order,
      each read by `read`. */
  function Records<T>(xs: seq<T>, read: T -> Row): (rows: seq<Row>)
    ensures |rows| == |xs| && forall i :: 0 <= i < |xs| ==> rows[i] == read(xs[i])
  {
    seq(|xs|, i requires 0 <= i < |xs| => read(xs[i]))
  }

  /** One more entry adds its record at the end, also after earlier
      records `before`. */
  lemma RecordsStep<T>(before: seq<Row>, xs: seq<T>, read: T -> Row, j: nat)
    requires j < |xs|
    ensures Records(xs[..j], read) + [read(xs[j])] == Records(xs[..j + 1], read)
    ensures (before + Records(xs[..j], read)) + [read(xs[j])] == before + Records(xs[..j + 1], read)
  {
  }

  /** The five counters a record adds to. */
  datatype Counter = Input | Output | Cached | CacheCreation | Requests

  function InRow(r: Row, c: Counter): int {
    match c
    case Input => r.input
    case Output => r.output
    case Cached => r.cached
    case CacheCreation => r.cacheCreation
    case Requests => r.requests
  }

  function InUsage(u: ModelUsage, c: Counter): int {
    match c
    case Input => u.inputTokens
    case Output => u.outputTokens
    case Cached => u.cachedTokens
    case CacheCreation => u.cacheCreationTokens
    case Requests => u.requestCount
  }

  /** A model's entry after one more of its records: every counter grows by
      the record's count; the id and the cost stay. */
  function Counted(u: ModelUsage, r: Row): (v: ModelUsage)
    ensures forall c :: InUsage(v, c) == InUsage(u, c) + InRow(r, c)
    ensures v.modelId == u.modelId && v.costUsd == u.costUsd
  {
    u.(inputTokens := u.inputTokens + r.input,
       outputTokens := u.outputTokens + r.output,
       cachedTokens := u.cachedTokens + r.cached,
       cacheCreationTokens := u.cacheCreationTokens + r.cacheCreation,
       requestCount := u.requestCount + r.requests)
  }

  /** `by_model` after the records `rows`, each new model starting from a
      zeroed entry. */
  function ByModel(rows: seq<Row>): map<string, ModelUsage> {
    if rows == [] then map[]
    else
      var n := |rows| - 1;
      var m := ByModel(rows[..n]);
      var r := rows[n];
      var entry := if r.model in m then m[r.model] else EmptyModelUsage(r.model);
      m[r.model := Counted(entry, r)]
  }

  /** `by_model` as the code builds it: a new model's entry comes from
      `ModelUsage(model_id=model)`, which raises. */
  function ByModelAsWritten(rows: seq<Row>): Result<map<string, ModelUsage>> {
    if rows == [] then Ok(map[])
    else
      var n := |rows| - 1;
      match ByModelAsWritten(rows[..n])
      case Err(e) => Err(e)
      case Ok(m) =>
        var r := rows[n];
        if r.model in m then Ok(m[r.model := Counted(m[r.model], r)])
        else
          match NewModelUsage(r.model, None, None)
          case Err(e) => Err(e)
          case Ok(entry) => Ok(m[r.model := Counted(entry, r)])
  }

  /** As written, the normalisers fail with `TypeError` as soon as there is
      one usage record: the first record always meets an empty `by_model`. */
  lemma {:induction false} AsWrittenRaises(rows: seq<Row>)
    requires rows != []
    ensures ByModelAsWritten(rows) == Err(TypeError)
  {
    var n := |rows| - 1;
    if n > 0 {
      AsWrittenRaises(rows[..n]);
    }
  }

  /** The sum of one counter over the records. */
  function Total(rows: seq<Row>, c: Counter): int {
    if rows == [] then 0 else Total(rows[..|rows| - 1], c) + InRow(rows[|rows| - 1], c)
  }

  /** The model name of each record. */
  function Models(rows: seq<Row>): (ks: seq<string>)
    ensures |ks| == |rows| && forall i :: 0 <= i < |rows| ==> ks[i] == rows[i].model
  {
    seq(|rows|, i requires 0 <= i < |rows| => rows[i].model)
  }

  /** The records of model `k`, in order. */
  function RowsOf(rows: seq<Row>, k: string): seq<Row> {
    if rows == [] then []
    else
      var n := |rows| - 1;
      RowsOf(rows[..n], k) + (if rows[n].model == k then [rows[n]] else [])
  }

  /** The sum of one counter over the entries of `keys`. */
  function SumOver(keys: seq<string>, m: map<string, ModelUsage>, c: Counter): int
    requires forall k :: k in keys ==> k in m
  {
    if keys == [] then 0
    else
      var n := |keys| - 1;
      assert forall k :: k in keys[..n] ==> k in keys;
      SumOver(keys[..n], m, c) + InUsage(m[keys[n]], c)
  }

  /** Adding one record changes `by_model` at that record's model only. */
  lemma ByModelStep(rows: seq<Row>, r: Row)
    ensures var m := ByModel(rows);
      ByModel(rows + [r]) == m[r.model := Counted(if r.model in m then m[r.model] else EmptyModelUsage(r.model), r)]
  {
    assert (rows + [r])[..|rows|] == rows;
  }

  /** Adding one record adds its count to each total. */
  lemma TotalStep(rows: seq<Row>, r: Row, c: Counter)
    ensures Total(rows + [r], c) == Total(rows, c) + InRow(r, c)
  {
    assert (rows + [r])[..|rows|] == rows;
  }

  /** The five totals after one more record. */
  lemma TotalsStep(rows: seq<Row>, r: Row)
    ensures Total(rows + [r], Input) == Total(rows, Input) + r.input
    ensures Total(rows + [r], Output) == Total(rows, Output) + r.output
    ensures Total(rows + [r], Cached) == Total(rows, Cached) + r.cached
    ensures Total(rows + [r], CacheCreation) == Total(rows, CacheCreation) + r.cacheCreation
    ensures Total(rows + [r], Requests) == Total(rows, Requests) + r.requests
  {
    assert (rows + [r])[..|rows|] == rows;
  }

  /** `by_model` has one entry per model name seen and no other; each entry
      carries its own name, no cost, and per counter the sum over that
      model's records. */
  lemma {:induction false} ByModelEntries(rows: seq<Row>)
    ensures forall k :: k in ByModel(rows) <==> k in Models(rows)
    ensures forall k :: k in ByModel(rows) ==> ByModel(rows)[k].modelId == k && ByModel(rows)[k].costUsd == 0.0
    ensures forall k, c :: k in ByModel(rows) ==> InUsage(ByModel(rows)[k], c) == Total(RowsOf(rows, k), c)
  {
    if rows != [] {
      var n := |rows| - 1;
      var front := rows[..n];
      ByModelEntries(front);
      assert Models(rows) == Models(front) + [rows[n].model];
      forall k | k !in ByModel(front)
        ensures RowsOf(front, k) == []
      {
        RowsOfAbsent(front, k);
      }
      forall k, c | k in ByModel(rows)
        ensures InUsage(ByModel(rows)[k], c) == Total(RowsOf(rows, k), c)
      {
        var tail := if rows[n].model == k then [rows[n]] else [];
        assert RowsOf(rows, k) == RowsOf(front, k) + tail;
        TotalAppend(RowsOf(front, k), tail, c);
      }
    }
  }

  /** A model with no record has no rows. */
  lemma {:induction false} RowsOfAbsent(rows: seq<Row>, k: string)
    requires k !in Models(rows)
    ensures RowsOf(rows, k) == []
  {
    if rows != [] {
      var n := |rows| - 1;
      assert Models(rows[..n]) == Models(rows)[..n];
      RowsOfAbsent(rows[..n], k);
    }
  }

  /** The sum over a concatenation is the sum of the sums. */
  lemma {:induction false} TotalAppend(a: seq<Row>, b: seq<Row>, c: Counter)
    ensures Total(a + b, c) == Total(a, c) + Total(b, c)
    decreases |b|
  {
    if b == [] {
      assert a + b == a;
    } else {
      var n := |b| - 1;
      assert (a + b)[..|a + b| - 1] == a + b[..n];
      TotalAppend(a, b[..n], c);
    }
  }

  /** Replacing the entry of a key that occurs once in `keys` changes the
      sum by the difference of the two entries; entries of other keys do
      not matter. */
  lemma {:induction false} SumOverUpdate(keys: seq<string>, m: map<string, ModelUsage>, k: string, v: ModelUsage, c: Counter)
    requires forall x :: x in keys ==> x in m
    requires forall i, j :: 0 <= i < j < |keys| ==> keys[i] != keys[j]
    ensures k in keys ==> SumOver(keys, m[k := v], c) == SumOver(keys, m, c) - InUsage(m[k], c) + InUsage(v, c)
    ensures k !in keys ==> SumOver(keys, m[k := v], c) == SumOver(keys, m, c)
  {
    if keys != [] {
      var n := |keys| - 1;
      assert forall x :: x in keys[..n] ==> x in keys;
      assert k in keys <==> k in keys[..n] || k == keys[n];
      if k == keys[n] {
        assert k !in keys[..n];
      }
      SumOverUpdate(keys[..n], m, k, v, c);
    }
  }

  /** Every model seen has an entry in `by_model`. */
  lemma DistinctModelsKeyed(rows: seq<Row>)
    ensures forall k :: k in Distinct(Models(rows)) ==> k in ByModel(rows)
  {
    ByModelEntries(rows);
  }

  /** One more record adds its model to the first-seen order if it is new. */
  lemma DistinctModelsStep(rows: seq<Row>)
    requires rows != []
    ensures var n := |rows| - 1;
      var d := Distinct(Models(rows[..n]));
      Distinct(Models(rows)) == if rows[n].model in d then d else d + [rows[n].model]
  {
    assert Models(rows)[..|rows| - 1] == Models(rows[..|rows| - 1]);
  }

  /** A model with an entry in `by_model` has been seen. */
  lemma KeyedModelSeen(rows: seq<Row>, k: string)
    ensures k in ByModel(rows) ==> k in Distinct(Models(rows))
  {
    ByModelEntries(rows);
  }

  /** Counting one record into the entries: the sum over the first-seen
      order grows by the record's count, whether its model is new or not. */
  lemma SumOverCounted(d: seq<string>, m: map<string, ModelUsage>, r: Row, c: Counter)
    requires forall x :: x in d ==> x in m
    requires forall i, j :: 0 <= i < j < |d| ==> d[i] != d[j]
    requires r.model in m ==> r.model in d
    ensures var entry := if r.model in m then m[r.model] else EmptyModelUsage(r.model);
      var m1 := m[r.model := Counted(entry, r)];
      var d1 := if r.model in d then d else d + [r.model];
      && (forall x :: x in d1 ==> x in m1)
      && SumOver(d1, m1, c) == SumOver(d, m, c) + InRow(r, c)
  {
    var k := r.model;
    var entry := if k in m then m[k] else EmptyModelUsage(k);
    var m1 := m[k := Counted(entry, r)];
    SumOverUpdate(d, m, k, Counted(entry, r), c);
    if k !in d {
      var d1 := d + [k];
      assert d1[..|d|] == d;
      assert forall x :: x in d1[..|d|] ==> x in m1;
      assert SumOver(d1, m1, c) == SumOver(d, m1, c) + InUsage(m1[k], c);
    }
  }

  /** A non-empty list is its front followed by its last element. */
  lemma SplitLast(rows: seq<Row>)
    requires rows != []
    ensures rows[..|rows| - 1] + [rows[|rows| - 1]] == rows
  {
  }

  /** Each provider total equals the sum of that counter over `by_model`,
      taking the models in first-seen order. */
  lemma {:induction false} TotalsMatchByModel(rows: seq<Row>, c: Counter)
    ensures forall k :: k in Distinct(Models(rows)) ==> k in ByModel(rows)
    ensures Total(rows, c) == SumOver(Distinct(Models(rows)), ByModel(rows), c)
  {
    if rows != [] {
      var n := |rows| - 1;
      var front, r := rows[..n], rows[n];
      TotalsMatchByModel(front, c);
      var m, d := ByModel(front), Distinct(Models(front));
      var entry := if r.model in m then m[r.model] else EmptyModelUsage(r.model);
      var m1 := m[r.model := Counted(entry, r)];
      var d1 := if r.model in d then d else d + [r.model];
      SplitLast(rows);
      assert ByModel(rows) == m1 by {
        ByModelStep(front, r);
      }
      assert Distinct(Models(rows)) == d1 by {
        DistinctModelsStep(rows);
      }
      assert Total(rows, c) == Total(front, c) + InRow(r, c) by {
        TotalStep(front, r, c);
      }
      KeyedModelSeen(front, r.model);
      SumOverCounted(d, m, r, c);
    }
  }

  /** A normaliser's counters and `by_model` after the records `rows`. */
  predicate Tracks(usage: NormalizedUsage, rows: seq<Row>)
    reads usage
  {
    && usage.inputTokens == Total(rows, Input)
    && usage.outputTokens == Total(rows, Output)
    && usage.cachedTokens == Total(rows, Cached)
    && usage.cacheCreationTokens == Total(rows, CacheCreation)
    && usage.requestCount == Total(rows, Requests)
    && usage.byModel == ByModel(rows)
  }

  /** The value of one counter of the usage. */
  function CounterOf(usage: NormalizedUsage, c: Counter): int
    reads usage
  {
    match c
    case Input => usage.inputTokens
    case Output => usage.outputTokens
    case Cached => usage.cachedTokens
    case CacheCreation => usage.cacheCreationTokens
    case Requests => usage.requestCount
  }

  /** The `by_model` update both normalisers perform for one record: the
      model gets a zeroed entry the first time it is seen, then every
      counter of its entry grows by the record's count. */
  method CountIntoModel(usage: NormalizedUsage, r: Row, ghost rows: seq<Row>)
    requires usage.byModel == ByModel(rows)
    modifies usage`byModel
    ensures usage.byModel == ByModel(rows + [r])
  {
    var byModel := usage.byModel;
    if r.model !in byModel {
      byModel := byModel[r.model := EmptyModelUsage(r.model)];
    }
    var entry := byModel[r.model];
    var counted := entry.(
      inputTokens := entry.inputTokens + r.input,
      outputTokens := entry.outputTokens + r.output,
      cachedTokens := entry.cachedTokens + r.cached,
      cacheCreationTokens := entry.cacheCreationTokens + r.cacheCreation,
      requestCount := entry.requestCount + r.requests);
    assert counted == Counted(entry, r);
    ByModelStep(rows, r);
    usage.byModel := byModel[r.model := counted];
  }

  /** A usage that tracks some records has every model of those records in
      `by_model`, and each of its totals is that counter summed over
      `by_model` in first-seen order. */
  lemma TracksSums(usage: NormalizedUsage, rows: seq<Row>)
    requires Tracks(usage, rows)
    ensures forall k :: k in Distinct(Models(rows)) ==> k in usage.byModel
    ensures forall c :: CounterOf(usage, c) == SumOver(Distinct(Models(rows)), usage.byModel, c)
  {
    DistinctModelsKeyed(rows);
    forall c ensures CounterOf(usage, c) == SumOver(Distinct(Models(rows)), usage.byModel, c) {
      TotalsMatchByModel(rows, c);
    }
  }

  /** A usage that tracks no records is all zero with an empty `by_model`. */
  lemma TracksNothing(usage: NormalizedUsage)
    requires Tracks(usage, [])
    ensures usage.byModel == map[] && usage.inputTokens == 0 && usage.outputTokens == 0
    ensures usage.cachedTokens == 0 && usage.cacheCreationTokens == 0 && usage.requestCount == 0
  {
  }
}
