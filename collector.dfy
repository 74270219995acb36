/** `Collector`: the primary-then-fallback waterfall and the five-key
    observation check. A source's `fetch` is given as what it returned or
    raised for the target date. */
module Collector {
  import opened Values
  import opened Validation

  /** `Collector.collect`. A primary fetch that succeeds with a non-empty
      list wins; a failed or empty primary fetch falls through to the
      fallback fetch when `useFallback` holds, and raises `CollectionError`
      otherwise. The fallback's own exception is not caught. */
  function Collect(primary: Result<seq<Obs>>, fallback: Result<seq<Obs>>, useFallback: bool, targetDate: string): (r: Result<seq<Obs>>)
    ensures primary.Ok? && primary.value != [] ==> r == primary
    ensures !(primary.Ok? && primary.value != []) && useFallback ==> r == fallback
    ensures !(primary.Ok? && primary.value != []) && !useFallback ==> r == Err(CollectionError(targetDate))
    // Whatever is returned came from one of the two sources, and without
    // the fallback it is never an empty list.
    ensures r.Ok? ==> r == primary || (useFallback && r == fallback)
    ensures r.Ok? && !useFallback ==> r.value != []
  {
    if primary.Ok? && primary.value != [] then primary
    else if useFallback then fallback
    else Err(CollectionError(targetDate))
  }

  /** `Collector.validate_observations`: the observations that carry all five
      required keys, in input order; the others are skipped. */
  method ValidateObservations(observations: seq<Obs>) returns (valid: seq<Obs>)
    ensures valid == Complete(observations, CollectorRequired)
    ensures forall o :: o in valid <==> o in observations && HasAll(o, CollectorRequired)
    ensures |valid| <= |observations|
  {
    var invalidCount;
    valid, invalidCount := KeepComplete(observations, CollectorRequired);
    CompleteMembers(observations, CollectorRequired);
  }
}
