/**
 * The list of product-info requests issued on behalf of IRC users and still
 * awaiting their reply, as job IDs in the order they were registered.
 */
module Requests {
  import opened Types

  /** List.Find by job ID: the position of the first pending request with
      that job, or None when no request has it. */
  function IndexOfJob(pending: seq<JobID>, job: JobID): (r: Option<nat>)
    ensures r.None? <==> job !in pending
    ensures r.Some? ==> r.value < |pending| && pending[r.value] == job
    ensures r.Some? ==> job !in pending[..r.value]
  {
    if |pending| == 0 then None
    else if pending[0] == job then Some(0)
    else
      match IndexOfJob(pending[1..], job)
      case None => None
      case Some(i) =>
        assert pending[..i + 1] == [pending[0]] + pending[1..][..i];
        Some(i + 1)
  }

  /** List.Remove of the request found at position i: that one entry goes,
      every other entry stays, in order. */
  function RemoveAt(pending: seq<JobID>, i: nat): (r: seq<JobID>)
    requires i < |pending|
    ensures |r| == |pending| - 1
    ensures forall k :: 0 <= k < i ==> r[k] == pending[k]
    ensures forall k :: i <= k < |r| ==> r[k] == pending[k + 1]
    ensures multiset(r) == multiset(pending) - multiset{pending[i]}
  {
    assert pending == pending[..i] + [pending[i]] + pending[i + 1..];
    pending[..i] + pending[i + 1..]
  }
}
