/** The summary the `execute-multiple-tasks` handler (src/main/index.js) builds
    from the settled results of running a selection of tasks at once. Running
    the tasks is left out; each task's outcome is an input. */
module TaskResults {
  import Text

  /** One entry of `Promise.allSettled`: the task's promise resolved with a
      result whose `success` flag is given, or it was rejected. */
  datatype Settled = Fulfilled(success: bool) | Rejected

  predicate Succeeded(s: Settled) {
    s.Fulfilled? && s.success
  }

  /** How many results `keep` accepts: `results.filter(keep).length`. */
  function CountWhere(results: seq<Settled>, keep: Settled -> bool): (r: nat)
    ensures r <= |results|
  {
    if results == [] then 0
    else CountWhere(results[..|results| - 1], keep) + (if keep(results[|results| - 1]) then 1 else 0)
  }

  predicate FailedOne(s: Settled) {
    s.Rejected? || !s.success
  }

  function Successful(results: seq<Settled>): nat {
    CountWhere(results, Succeeded)
  }

  /** Rejected, or resolved without success. */
  function Failed(results: seq<Settled>): nat {
    CountWhere(results, FailedOne)
  }

  /** Every result is counted exactly once: as a success or as a failure. */
  lemma {:induction false} CountsPartition(results: seq<Settled>)
    ensures Successful(results) + Failed(results) == |results|
  {
    if results != [] {
      CountsPartition(results[..|results| - 1]);
    }
  }

  /** No failure is reported exactly when every task succeeded. */
  lemma {:induction false} NoFailureIff(results: seq<Settled>)
    ensures Failed(results) == 0 <==> forall k :: 0 <= k < |results| ==> Succeeded(results[k])
  {
    if results != [] {
      var init := results[..|results| - 1];
      NoFailureIff(init);
      assert forall k :: 0 <= k < |init| ==> init[k] == results[k];
    }
  }

  /** The message returned to the renderer. */
  function Summary(results: seq<Settled>): string {
    var failed := Failed(results);
    "Executed " + Text.NatToString(Successful(results)) + " tasks successfully"
    + (if failed > 0 then ", " + Text.NatToString(failed) + " failed" else "")
  }

  /** The message always opens with the number of successes. */
  lemma SummaryOpens(results: seq<Settled>)
    ensures Text.StartsWith(Summary(results), "Executed " + Text.NatToString(Successful(results)) + " tasks successfully")
  {
    var head := "Executed " + Text.NatToString(Successful(results)) + " tasks successfully";
    var failed := Failed(results);
    var tail := if failed > 0 then ", " + Text.NatToString(failed) + " failed" else "";
    assert Summary(results) == head + tail;
    Text.ConcatEnds(head, tail);
  }

  /** When nothing failed, the message names every task as a success and
      mentions no failure. */
  lemma SummaryAllSucceeded(results: seq<Settled>)
    requires Failed(results) == 0
    ensures Summary(results) == "Executed " + Text.NatToString(|results|) + " tasks successfully"
  {
    CountsPartition(results);
    var head := "Executed " + Text.NatToString(Successful(results)) + " tasks successfully";
    assert Summary(results) == head + "";
  }

  /** When something failed, the message closes with the number of failures. */
  lemma SummaryReportsFailures(results: seq<Settled>)
    requires Failed(results) > 0
    ensures Text.EndsWith(Summary(results), Text.NatToString(Failed(results)) + " failed")
  {
    var head := "Executed " + Text.NatToString(Successful(results)) + " tasks successfully";
    var count := Text.NatToString(Failed(results)) + " failed";
    assert Summary(results) == (head + ", ") + count;
    Text.ConcatEnds(head + ", ", count);
  }
}
