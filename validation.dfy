/** Required-key checks: `_basic_validate` in the collection pipeline and
    `Collector.validate_observations` both keep the observations that carry
    every key of a fixed list, in input order. */
module Validation {
  import opened Values

  /** The twelve keys `_basic_validate` demands. */
  const PipelineRequired: seq<string> := [
    "observation_id", "schema_version", "provider", "model_id",
    "input_rate_usd_per_1m", "output_rate_usd_per_1m", "effective_date",
    "collected_at", "source_url", "source_tier", "currency", "collection_method"]

  /** The five keys `validate_observations` demands. */
  const CollectorRequired: seq<string> := [
    "observation_id", "provider", "model_id", "input_rate_usd_per_1m", "output_rate_usd_per_1m"]

  /** `all(k in obs for k in required)`. */
  predicate HasAll(o: Obs, required: seq<string>) {
    forall k :: k in required ==> k in o
  }

  /** `[f for f in required if f not in obs]`: the absent keys, in list order. */
  function Missing(o: Obs, required: seq<string>): (m: seq<string>)
    ensures forall f :: f in m <==> f in required && f !in o
    ensures m == [] <==> HasAll(o, required)
  {
    if required == [] then []
    else
      var rest := Missing(o, required[1..]);
      assert forall f :: f in required <==> f == required[0] || f in required[1..];
      if required[0] in o then rest else [required[0]] + rest
  }

  /** The observations that carry every required key, in input order. */
  function Complete(observations: seq<Obs>, required: seq<string>): seq<Obs> {
    if observations == [] then []
    else
      var n := |observations| - 1;
      Complete(observations[..n], required)
        + (if HasAll(observations[n], required) then [observations[n]] else [])
  }

  /** How many observations lack a required key. */
  function IncompleteCount(observations: seq<Obs>, required: seq<string>): nat {
    if observations == [] then 0
    else
      var n := |observations| - 1;
      IncompleteCount(observations[..n], required)
        + (if HasAll(observations[n], required) then 0 else 1)
  }

  /** An observation is kept exactly when it occurs in the input and carries
      every required key. */
  lemma {:induction false} CompleteMembers(observations: seq<Obs>, required: seq<string>)
    ensures forall o :: o in Complete(observations, required) <==> o in observations && HasAll(o, required)
  {
    if observations != [] {
      var n := |observations| - 1;
      assert observations == observations[..n] + [observations[n]];
      CompleteMembers(observations[..n], required);
    }
  }

  /** Every observation is either kept or counted as invalid. */
  lemma {:induction false} CompletePartitions(observations: seq<Obs>, required: seq<string>)
    ensures |Complete(observations, required)| + IncompleteCount(observations, required) == |observations|
  {
    if observations != [] {
      CompletePartitions(observations[..|observations| - 1], required);
    }
  }

  /** Filtering distributes over concatenation, so kept observations keep
      their relative input order. */
  lemma {:induction false} CompleteAppend(a: seq<Obs>, b: seq<Obs>, required: seq<string>)
    ensures Complete(a + b, required) == Complete(a, required) + Complete(b, required)
    decreases |b|
  {
    if b == [] {
      assert a + b == a;
    } else {
      var n := |b| - 1;
      assert (a + b)[..|a + b| - 1] == a + b[..n];
      CompleteAppend(a, b[..n], required);
    }
  }

  /** A loop over the observations that appends the complete ones to `valid`
      and counts the rest; `_basic_validate` and `validate_observations`
      differ only in the key list and in whether they return the count. */
  method KeepComplete(observations: seq<Obs>, required: seq<string>) returns (valid: seq<Obs>, invalidCount: nat)
    ensures valid == Complete(observations, required)
    ensures invalidCount == IncompleteCount(observations, required)
    ensures |valid| + invalidCount == |observations|
  {
    valid := [];
    invalidCount := 0;
    for t := 0 to |observations|
      invariant valid == Complete(observations[..t], required)
      invariant invalidCount == IncompleteCount(observations[..t], required)
    {
      var obs := observations[t];
      assert observations[..t + 1][..t] == observations[..t];
      var missing := Missing(obs, required);
      if missing != [] {
        invalidCount := invalidCount + 1;
      } else {
        valid := valid + [obs];
      }
    }
    assert observations[..|observations|] == observations;
    CompletePartitions(observations, required);
  }
}
