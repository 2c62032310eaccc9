/**
 * The fan-out of `retrieveRandomNumbersSets`, seen sequentially: one upstream
 * call per request, each owning one slot of the collection; the collection is
 * handed back only when every call succeeded, otherwise one call's error is.
 * Goroutines, the wait group, the error channel and cancellation are not
 * modelled; the calls' outcomes are given as a parameter.
 */
module Fanout {
  import opened Types

  /** What one upstream call produced: its random integers, or its error text. */
  datatype FetchOutcome = Fetched(data: seq<int>) | FetchFailed(message: string)

  /**
   * The collection that a run with these outcomes hands back: present only
   * when every call succeeded, and then slot i holds the data of call i.
   */
  function Collected(outcomes: seq<FetchOutcome>): (r: Option<seq<seq<int>>>)
    ensures r.Some? <==> forall i :: 0 <= i < |outcomes| ==> outcomes[i].Fetched?
    ensures r.Some? ==> |r.value| == |outcomes|
    ensures r.Some? ==> forall i :: 0 <= i < |outcomes| ==> r.value[i] == outcomes[i].data
  {
    if |outcomes| == 0 then Some([])
    else
      var last := outcomes[|outcomes| - 1];
      match Collected(outcomes[..|outcomes| - 1])
      case None => None
      case Some(prefix) => if last.Fetched? then Some(prefix + [last.data]) else None
  }

  /**
   * `retrieveRandomNumbersSets`: every call runs and a successful one writes
   * its data into its own slot; if any call failed, the error of a failed
   * call is returned and the partly filled slots are dropped.
   */
  method RetrieveRandomNumbersSets(outcomes: seq<FetchOutcome>) returns (r: Result<seq<seq<int>>, string>)
    ensures r.Success? <==> Collected(outcomes).Some?
    ensures r.Success? ==> r.value == Collected(outcomes).value
    ensures r.Failure? ==> exists i :: 0 <= i < |outcomes| && outcomes[i] == FetchFailed(r.error)
  {
    var n := |outcomes|;
    var randomNumbersSets := new seq<int>[n];
    var err: Option<string> := None;
    for i := 0 to n
      invariant err.None? <==> forall k :: 0 <= k < i ==> outcomes[k].Fetched?
      invariant err.Some? ==> exists k :: 0 <= k < i && outcomes[k] == FetchFailed(err.value)
      invariant forall k :: 0 <= k < i && outcomes[k].Fetched? ==> randomNumbersSets[k] == outcomes[k].data
    {
      match outcomes[i]
      case Fetched(data) =>
        randomNumbersSets[i] := data;
      case FetchFailed(message) =>
        if err.None? {
          err := Some(message);
        }
    }
    if err.Some? {
      return Failure(err.value);
    }
    r := Success(randomNumbersSets[..]);
    assert r.value == Collected(outcomes).value;
  }
}
