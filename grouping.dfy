/** Grouping a list by a key into an insertion-ordered dict of lists, as
    `detect_drift` and `_deduplicate_observations` both do:
    `if k not in groups: groups[k] = []` then `groups[k].append(x)`. */
module Grouping {

  /** A prefix one element longer is the prefix plus that element. */
  lemma TakeStep<T>(s: seq<T>, t: nat)
    requires t < |s|
    ensures s[..t + 1] == s[..t] + [s[t]]
  {
  }

  /** The keys in first-occurrence order: the dict's key order. */
  function Distinct<K(==,!new)>(ks: seq<K>): (d: seq<K>)
    ensures forall k :: k in d <==> k in ks
    ensures forall i, j :: 0 <= i < j < |d| ==> d[i] != d[j]
    ensures |d| <= |ks|
  {
    if ks == [] then []
    else
      var front := ks[..|ks| - 1];
      var last := ks[|ks| - 1];
      assert ks == front + [last];
      var d := Distinct(front);
      if last in d then d else d + [last]
  }

  /** The elements whose key is `k`, in input order. */
  function Members<T, K(==,!new)>(xs: seq<T>, ks: seq<K>, k: K): seq<T>
    requires |xs| == |ks|
  {
    if xs == [] then []
    else
      var n := |xs| - 1;
      Members(xs[..n], ks[..n], k) + (if ks[n] == k then [xs[n]] else [])
  }

  /** The dict of lists after the loop over `xs`. */
  function Groups<T, K(==,!new)>(xs: seq<T>, ks: seq<K>): map<K, seq<T>>
    requires |xs| == |ks|
  {
    if xs == [] then map[]
    else
      var n := |xs| - 1;
      var g := Groups(xs[..n], ks[..n]);
      g[ks[n] := (if ks[n] in g then g[ks[n]] else []) + [xs[n]]]
  }

  /** There is a group for every key that occurs and for no other, and it
      holds that key's members in input order. */
  lemma {:induction false} GroupsSpec<T, K(!new)>(xs: seq<T>, ks: seq<K>)
    requires |xs| == |ks|
    ensures forall k :: k in Groups(xs, ks) <==> k in ks
    ensures forall k :: k in Groups(xs, ks) ==> Groups(xs, ks)[k] == Members(xs, ks, k)
  {
    if xs != [] {
      var n := |xs| - 1;
      assert ks == ks[..n] + [ks[n]];
      GroupsSpec(xs[..n], ks[..n]);
      MembersAbsent(xs[..n], ks[..n], ks[n]);
    }
  }

  /** A key that never occurs has no members. */
  lemma {:induction false} MembersAbsent<T, K(!new)>(xs: seq<T>, ks: seq<K>, k: K)
    requires |xs| == |ks|
    ensures k !in ks ==> Members(xs, ks, k) == []
  {
    if xs != [] {
      var n := |xs| - 1;
      assert ks == ks[..n] + [ks[n]];
      MembersAbsent(xs[..n], ks[..n], k);
    }
  }

  /** A group holds exactly the elements carrying its key. */
  lemma {:induction false} MembersAreKeyed<T, K(!new)>(xs: seq<T>, ks: seq<K>, k: K)
    requires |xs| == |ks|
    ensures forall x :: x in Members(xs, ks, k) <==> exists i :: 0 <= i < |xs| && xs[i] == x && ks[i] == k
  {
    if xs != [] {
      var n := |xs| - 1;
      MembersAreKeyed(xs[..n], ks[..n], k);
      forall x ensures x in Members(xs, ks, k) <==> exists i :: 0 <= i < |xs| && xs[i] == x && ks[i] == k {
        if x in Members(xs, ks, k) && x !in Members(xs[..n], ks[..n], k) {
          assert xs[n] == x && ks[n] == k;
        }
        if exists i :: 0 <= i < |xs| && xs[i] == x && ks[i] == k {
          var i :| 0 <= i < |xs| && xs[i] == x && ks[i] == k;
          if i < n {
            assert xs[..n][i] == x && ks[..n][i] == k;
          }
        }
      }
    }
  }

  /** Every element of a group carries that group's key. */
  lemma GroupMembersKeyed<T, K(!new)>(xs: seq<T>, ks: seq<K>, k: K)
    requires |xs| == |ks| && k in Groups(xs, ks)
    ensures forall x :: x in Groups(xs, ks)[k] ==> exists i :: 0 <= i < |xs| && xs[i] == x && ks[i] == k
  {
    GroupsSpec(xs, ks);
    MembersAreKeyed(xs, ks, k);
  }

  /** Every key that occurs has a non-empty group. */
  lemma {:induction false} MembersNonEmpty<T, K(!new)>(xs: seq<T>, ks: seq<K>, k: K)
    requires |xs| == |ks| && k in ks
    ensures |Members(xs, ks, k)| > 0
  {
    var i :| 0 <= i < |ks| && ks[i] == k;
    MembersAreKeyed(xs, ks, k);
    assert xs[i] in Members(xs, ks, k);
  }

  /** One loop step: appending an element to its group, creating the group
      (and its place in the key order) on first sight. */
  lemma GroupStep<T, K(!new)>(xs: seq<T>, ks: seq<K>, x: T, k: K)
    requires |xs| == |ks|
    ensures (k in Groups(xs, ks)) == (k in Distinct(ks))
    ensures Distinct(ks + [k]) == if k in Distinct(ks) then Distinct(ks) else Distinct(ks) + [k]
    ensures Groups(xs + [x], ks + [k]) == Groups(xs, ks)[k := (if k in Groups(xs, ks) then Groups(xs, ks)[k] else []) + [x]]
  {
    GroupsSpec(xs, ks);
    assert (ks + [k])[..|ks|] == ks;
    assert (xs + [x])[..|xs|] == xs;
  }

  /** The loop body as the source writes it: create the group on first
      sight (appending its key to the order), then append the element. */
  lemma GroupInsert<T, K(!new)>(xs: seq<T>, ks: seq<K>, x: T, k: K, order: seq<K>, groups: map<K, seq<T>>)
    requires |xs| == |ks| && order == Distinct(ks) && groups == Groups(xs, ks)
    ensures var created := if k in groups then groups else groups[k := []];
      && created[k := created[k] + [x]] == Groups(xs + [x], ks + [k])
      && (if k in groups then order else order + [k]) == Distinct(ks + [k])
  {
    GroupStep(xs, ks, x, k);
    if k !in groups {
      GroupCreate(groups, k, x);
    }
  }

  /** Creating a group and then appending to it. */
  lemma GroupCreate<T, K>(groups: map<K, seq<T>>, k: K, x: T)
    requires k !in groups
    ensures var created := groups[k := []];
      created[k := created[k] + [x]] == groups[k := [] + [x]]
  {
    assert [] + [x] == [x];
  }

  /** The first member of a group that satisfies `p` is, in the input too,
      the first element with that key to satisfy `p`. */
  lemma {:induction false} MembersFirst<T, K(!new)>(xs: seq<T>, ks: seq<K>, k: K, p: T -> bool, j: nat)
    requires |xs| == |ks| && j < |Members(xs, ks, k)|
    requires p(Members(xs, ks, k)[j])
    requires forall i :: 0 <= i < j ==> !p(Members(xs, ks, k)[i])
    ensures exists at :: (0 <= at < |xs| && xs[at] == Members(xs, ks, k)[j] && ks[at] == k
      && forall q :: 0 <= q < at && ks[q] == k ==> !p(xs[q]))
  {
    var n := |xs| - 1;
    var front := Members(xs[..n], ks[..n], k);
    assert Members(xs, ks, k) == front + (if ks[n] == k then [xs[n]] else []);
    assert forall i :: 0 <= i < |front| ==> Members(xs, ks, k)[i] == front[i];
    if j < |front| {
      MembersFirst(xs[..n], ks[..n], k, p, j);
      var at :| 0 <= at < n && xs[..n][at] == front[j] && ks[..n][at] == k
        && forall q :: 0 <= q < at && ks[..n][q] == k ==> !p(xs[..n][q]);
      forall q | 0 <= q < at && ks[q] == k
        ensures !p(xs[q])
      {
        assert ks[..n][q] == ks[q] && xs[..n][q] == xs[q];
      }
    } else {
      MembersAreKeyed(xs[..n], ks[..n], k);
      forall q | 0 <= q < n && ks[q] == k
        ensures !p(xs[q])
      {
        assert xs[..n][q] == xs[q] && ks[..n][q] == k;
        assert xs[q] in front;
        var i :| 0 <= i < |front| && front[i] == xs[q];
        assert Members(xs, ks, k)[i] == xs[q];
      }
    }
  }
}
