/** Ordered validation: every operation checks a list of guards in a fixed
    order and reports the error of the first one that fails. */
module Guards {
  import opened EscrowTypes

  /** A condition that must hold, and the error reported when it does not. */
  datatype Guard = Guard(ok: bool, err: Error)

  /** Every guard before position k holds. */
  predicate PassesBefore(gs: seq<Guard>, k: int)
    requires 0 <= k <= |gs|
  {
    forall j :: 0 <= j < k ==> gs[j].ok
  }

  /** The error of the first failing guard, or None when all of them hold. */
  function FirstFailure(gs: seq<Guard>): (r: Option<Error>)
    ensures r.None? <==> PassesBefore(gs, |gs|)
    ensures r.Some? ==> exists k :: 0 <= k < |gs| && !gs[k].ok && r.value == gs[k].err && PassesBefore(gs, k)
    decreases |gs|
  {
    if |gs| == 0 then None
    else if !gs[0].ok then (assert PassesBefore(gs, 0); Some(gs[0].err))
    else
      var r := FirstFailure(gs[1..]);
      assert forall j :: 1 <= j < |gs| ==> gs[j] == gs[1..][j - 1];
      if r.Some? then
        var k :| 0 <= k < |gs| - 1 && !gs[1..][k].ok && r.value == gs[1..][k].err && PassesBefore(gs[1..], k);
        assert !gs[k + 1].ok && r.value == gs[k + 1].err && PassesBefore(gs, k + 1);
        r
      else r
  }

  /** When guard k is the first to fail, its error is the one reported. */
  lemma {:induction false} FirstFailureAt(gs: seq<Guard>, k: nat)
    requires k < |gs| && !gs[k].ok && PassesBefore(gs, k)
    ensures FirstFailure(gs) == Some(gs[k].err)
  {
    if k > 0 {
      assert gs[0].ok;
      assert forall j :: 0 <= j < k - 1 ==> gs[1..][j] == gs[j + 1];
      FirstFailureAt(gs[1..], k - 1);
    }
  }
}
