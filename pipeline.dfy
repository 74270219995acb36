/** The collection pipeline's in-memory steps: keeping one observation per
    model, preferring official prices, and the basic required-field check. */
module Pipeline {
  import opened Values
  import opened Grouping
  import opened Drift
  import opened Validation

  /** `priority(obs)`: official config prices first, then aggregator prices,
      then everything else. */
  function Rank(o: Obs): (r: nat)
    ensures r <= 2
    ensures r == 0 <==> GetOr(o, "collection_method", Str("")) == Str("config_file")
    ensures r == 1 <==> GetOr(o, "collection_method", Str("")) == Str("aggregator_api")
  {
    var collectionMethod := GetOr(o, "collection_method", Str(""));
    if collectionMethod == Str("config_file") then 0
    else if collectionMethod == Str("aggregator_api") then 1
    else 2
  }

  /** The observations of one rank, in input order. */
  function Band(xs: seq<Obs>, rank: nat): seq<Obs> {
    if xs == [] then []
    else
      var n := |xs| - 1;
      Band(xs[..n], rank) + (if Rank(xs[n]) == rank then [xs[n]] else [])
  }

  /** `obs_list.sort(key=priority)`. Python's sort is stable and the key
      takes only three values, so the sorted list is the rank-0 band, then
      the rank-1 band, then the rank-2 band, each in input order. */
  function SortByPriority(xs: seq<Obs>): (r: seq<Obs>)
    ensures |r| == |xs|
  {
    BandsLength(xs);
    Band(xs, 0) + Band(xs, 1) + Band(xs, 2)
  }

  lemma {:induction false} BandsLength(xs: seq<Obs>)
    ensures |Band(xs, 0)| + |Band(xs, 1)| + |Band(xs, 2)| == |xs|
  {
    if xs != [] {
      BandsLength(xs[..|xs| - 1]);
    }
  }

  lemma {:induction false} BandMembers(xs: seq<Obs>, rank: nat)
    ensures forall o :: o in Band(xs, rank) <==> o in xs && Rank(o) == rank
  {
    if xs != [] {
      var n := |xs| - 1;
      assert xs == xs[..n] + [xs[n]];
      BandMembers(xs[..n], rank);
    }
  }

  /** The first element of a band is the first element of that rank. */
  lemma {:induction false} BandHead(xs: seq<Obs>, rank: nat)
    requires Band(xs, rank) != []
    ensures exists j :: (0 <= j < |xs| && xs[j] == Band(xs, rank)[0] && Rank(xs[j]) == rank
      && forall i :: 0 <= i < j ==> Rank(xs[i]) != rank)
  {
    var n := |xs| - 1;
    var front := Band(xs[..n], rank);
    if front != [] {
      BandHead(xs[..n], rank);
      var j :| 0 <= j < n && xs[..n][j] == front[0] && Rank(xs[..n][j]) == rank
        && forall i :: 0 <= i < j ==> Rank(xs[..n][i]) != rank;
      assert forall i :: 0 <= i < j ==> xs[..n][i] == xs[i];
    } else {
      BandMembers(xs[..n], rank);
      assert forall i :: 0 <= i < n ==> xs[i] == xs[..n][i] && xs[..n][i] in xs[..n];
    }
  }

  lemma {:induction false} BandsPartition(xs: seq<Obs>)
    ensures multiset(Band(xs, 0) + Band(xs, 1) + Band(xs, 2)) == multiset(xs)
  {
    if xs != [] {
      var n := |xs| - 1;
      assert xs == xs[..n] + [xs[n]];
      BandsPartition(xs[..n]);
    }
  }

  /** The priority sort only reorders its list. */
  lemma SortByPriorityPermutes(xs: seq<Obs>)
    ensures multiset(SortByPriority(xs)) == multiset(xs)
  {
    BandsPartition(xs);
  }

  /** The priority sort orders by rank. */
  lemma SortByPriorityOrders(xs: seq<Obs>)
    ensures forall i, j :: 0 <= i < j < |SortByPriority(xs)| ==> Rank(SortByPriority(xs)[i]) <= Rank(SortByPriority(xs)[j])
  {
    BandMembers(xs, 0);
    BandMembers(xs, 1);
    BandMembers(xs, 2);
    var s := SortByPriority(xs);
    var b0, b1 := |Band(xs, 0)|, |Band(xs, 1)|;
    forall i | 0 <= i < |s|
      ensures Rank(s[i]) == if i < b0 then 0 else if i < b0 + b1 then 1 else 2
    {
      if i < b0 {
        assert s[i] == Band(xs, 0)[i];
      } else if i < b0 + b1 {
        assert s[i] == Band(xs, 1)[i - b0];
      } else {
        assert s[i] == Band(xs, 2)[i - b0 - b1];
      }
    }
  }

  /** After the sort, `obs_list[0]` has the lowest rank in the list, and it
      is the earliest element of that rank. */
  lemma SortByPriorityHead(xs: seq<Obs>)
    requires xs != []
    ensures forall i :: 0 <= i < |xs| ==> Rank(SortByPriority(xs)[0]) <= Rank(xs[i])
    ensures exists j :: (0 <= j < |xs| && xs[j] == SortByPriority(xs)[0]
      && forall i :: 0 <= i < j ==> Rank(xs[i]) > Rank(xs[j]))
  {
    var s := SortByPriority(xs);
    if Band(xs, 0) != [] {
      BandHead(xs, 0);
      assert s[0] == Band(xs, 0)[0];
    } else if Band(xs, 1) != [] {
      BandHead(xs, 1);
      assert s[0] == Band(xs, 1)[0];
      NoneOfRank(xs, 0);
    } else {
      BandHead(xs, 2);
      assert s[0] == Band(xs, 2)[0];
      NoneOfRank(xs, 0);
      NoneOfRank(xs, 1);
    }
  }

  /** An empty band means no element has that rank. */
  lemma NoneOfRank(xs: seq<Obs>, rank: nat)
    requires Band(xs, rank) == []
    ensures forall i :: 0 <= i < |xs| ==> Rank(xs[i]) != rank
  {
    BandMembers(xs, rank);
    forall i | 0 <= i < |xs|
      ensures Rank(xs[i]) != rank
    {
      assert xs[i] in xs;
    }
  }

  /** The head of each group after the priority sort, groups in `order`. */
  function Heads(order: seq<string>, groups: map<string, seq<Obs>>): (r: seq<Obs>)
    requires forall k :: k in order ==> k in groups && groups[k] != []
    ensures |r| == |order|
  {
    seq(|order|, i requires 0 <= i < |order| =>
      SortByPriorityPermutes(groups[order[i]]);
      SortByPriority(groups[order[i]])[0])
  }

  /** The list `_deduplicate_observations` returns, or the exception raised
      while normalising a `model_id`. */
  function Deduplicated(observations: seq<Obs>): (r: Result<seq<Obs>>)
    ensures r.Ok? <==> Grouped(observations).Ok?
  {
    match Grouped(observations)
    case Err(e) => Err(e)
    case Ok((order, groups)) =>
      GroupedNonEmpty(observations);
      Ok(Heads(order, groups))
  }

  /** `_deduplicate_observations`: group by normalised id, sort each group by
      priority and keep its head, groups in first-seen order. */
  method Deduplicate(observations: seq<Obs>) returns (r: Result<seq<Obs>>)
    ensures r == Deduplicated(observations)
  {
    var grouped := GroupByModel(observations);
    if grouped.Err? {
      return Err(grouped.exc);
    }
    var (order, groups) := grouped.value;
    GroupedNonEmpty(observations);
    var deduped := KeepHeads(order, groups);
    r := Ok(deduped);
  }

  /** The loop of `_deduplicate_observations` over the groups. */
  method KeepHeads(order: seq<string>, groups: map<string, seq<Obs>>) returns (deduped: seq<Obs>)
    requires forall k :: k in order ==> k in groups && groups[k] != []
    ensures deduped == Heads(order, groups)
  {
    deduped := [];
    for g := 0 to |order|
      invariant deduped == Heads(order[..g], groups)
    {
      var obsList := SortByPriority(groups[order[g]]);
      TakeStep(order, g);
      deduped := deduped + [obsList[0]];
    }
    assert order[..|order|] == order;
  }

  /** The `i`-th kept observation is the head of the `i`-th group, so it
      is an input observation carrying that group's id. */
  lemma KeptFromGroup(observations: seq<Obs>, i: nat)
    requires Deduplicated(observations).Ok? && i < |Deduplicated(observations).value|
    ensures var (order, groups) := Grouped(observations).value;
      && |Deduplicated(observations).value| == |order|
      && i < |order| && order[i] in groups && |groups[order[i]]| > 0
      && Deduplicated(observations).value[i] == SortByPriority(groups[order[i]])[0]
      && Deduplicated(observations).value[i] in observations
      && KeyOf(Deduplicated(observations).value[i]) == Ok(order[i])
  {
    var (order, groups) := Grouped(observations).value;
    GroupedNonEmpty(observations);
    var group := groups[order[i]];
    var kept := SortByPriority(group)[0];
    assert Deduplicated(observations).value[i] == kept;
    SortByPriorityPermutes(group);
    assert kept in multiset(group);
    GroupsShareKey(observations, order[i]);
  }

  /** Exactly one observation per normalised id, each taken from the input,
      so the output is no longer than the input. */
  lemma DeduplicatedOnePerId(observations: seq<Obs>, r: seq<Obs>)
    requires Deduplicated(observations) == Ok(r)
    ensures |r| <= |observations|
    ensures forall o :: o in r ==> o in observations
    ensures forall i :: 0 <= i < |r| ==> KeyOf(r[i]).Ok?
    ensures forall i, j :: 0 <= i < j < |r| ==> KeyOf(r[i]) != KeyOf(r[j])
    ensures forall o :: o in observations ==> exists i :: 0 <= i < |r| && KeyOf(r[i]) == KeyOf(o)
  {
    KeptKeyed(observations, r);
    KeptCovers(observations, r);
    var order := Distinct(Keys(observations).value);
    assert |order| <= |Keys(observations).value| == |observations| by {
      KeysSpec(observations);
    }
  }

  /** Every input observation's key is the key of some kept observation. */
  lemma KeptCovers(observations: seq<Obs>, r: seq<Obs>)
    requires Deduplicated(observations) == Ok(r)
    ensures forall o :: o in observations ==> exists i :: 0 <= i < |r| && KeyOf(r[i]) == KeyOf(o)
  {
    KeptKeyed(observations, r);
    KeysSpec(observations);
    var ks := Keys(observations).value;
    var order := Distinct(ks);
    forall o | o in observations
      ensures exists i :: 0 <= i < |r| && KeyOf(r[i]) == KeyOf(o)
    {
      var p :| 0 <= p < |observations| && observations[p] == o;
      assert ks[p] in order;
      var i :| 0 <= i < |order| && order[i] == ks[p];
      assert KeyOf(r[i]) == Ok(order[i]);
    }
  }

  /** The kept observations line up with the distinct keys: the `i`-th is
      an input observation whose key is the `i`-th distinct key. */
  lemma KeptKeyed(observations: seq<Obs>, r: seq<Obs>)
    requires Deduplicated(observations) == Ok(r)
    ensures Keys(observations).Ok?
    ensures |r| == |Distinct(Keys(observations).value)|
    ensures forall i :: 0 <= i < |r| ==>
      r[i] in observations && KeyOf(r[i]) == Ok(Distinct(Keys(observations).value)[i])
  {
    KeysSpec(observations);
    var order := Distinct(Keys(observations).value);
    assert Grouped(observations).value.0 == order;
    forall i | 0 <= i < |r|
      ensures r[i] in observations && KeyOf(r[i]) == Ok(order[i])
    {
      KeptFromGroup(observations, i);
    }
  }

  /** The kept observation has the lowest rank among the observations that
      share its id. */
  lemma DeduplicatedLowestRank(observations: seq<Obs>, i: nat)
    requires Deduplicated(observations).Ok? && i < |Deduplicated(observations).value|
    ensures var kept := Deduplicated(observations).value[i];
      forall o :: o in observations && KeyOf(o) == KeyOf(kept) ==> Rank(kept) <= Rank(o)
  {
    KeptFromGroup(observations, i);
    var (order, groups) := Grouped(observations).value;
    var group := groups[order[i]];
    SortByPriorityHead(group);
    KeysSpec(observations);
    var ks := Keys(observations).value;
    GroupsSpec(observations, ks);
    MembersAreKeyed(observations, ks, order[i]);
    var kept := Deduplicated(observations).value[i];
    forall o | o in observations && KeyOf(o) == KeyOf(kept)
      ensures Rank(kept) <= Rank(o)
    {
      var p :| 0 <= p < |observations| && observations[p] == o;
      assert o in group;
      var j :| 0 <= j < |group| && group[j] == o;
    }
  }

  /** No observation before the kept one has its id and its rank: among
      equal ranks the sort is stable, so the earliest wins. */
  lemma DeduplicatedEarliest(observations: seq<Obs>, i: nat)
    requires Deduplicated(observations).Ok? && i < |Deduplicated(observations).value|
    ensures var kept := Deduplicated(observations).value[i];
      exists at :: (0 <= at < |observations| && observations[at] == kept
        && forall q :: 0 <= q < at && KeyOf(observations[q]) == KeyOf(kept) ==> Rank(observations[q]) > Rank(kept))
  {
    KeptFromGroup(observations, i);
    var (order, groups) := Grouped(observations).value;
    var k := order[i];
    var group := groups[k];
    var kept := Deduplicated(observations).value[i];
    SortByPriorityHead(group);
    var j :| 0 <= j < |group| && group[j] == kept && forall x :: 0 <= x < j ==> Rank(group[x]) > Rank(group[j]);
    KeysSpec(observations);
    var ks := Keys(observations).value;
    GroupsSpec(observations, ks);
    var best := Rank(kept);
    MembersFirst(observations, ks, k, o => Rank(o) <= best, j);
    var at :| 0 <= at < |observations| && observations[at] == kept && ks[at] == k
      && forall q :: 0 <= q < at && ks[q] == k ==> !(Rank(observations[q]) <= best);
    forall q | 0 <= q < at && KeyOf(observations[q]) == KeyOf(kept)
      ensures Rank(observations[q]) > best
    {
      assert ks[q] == k;
    }
  }

  /** `_basic_validate`: the observations carrying all twelve required keys,
      in input order, and how many were rejected. */
  method BasicValidate(observations: seq<Obs>) returns (valid: seq<Obs>, invalidCount: nat)
    ensures valid == Complete(observations, PipelineRequired)
    ensures |valid| + invalidCount == |observations|
  {
    valid, invalidCount := KeepComplete(observations, PipelineRequired);
  }
}
