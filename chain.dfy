/** The validation-chain pattern both controllers share: an ordered list of
    middleware checks, each of which passes the request on, rejects it with a
    status and a message, or throws; the first check that does not pass ends
    the chain, and only when all pass does the terminal handler run. */
module Chain {

  /** The `{status, message}` object a check hands to `next`. */
  datatype Error = Error(status: int, message: string)

  /** What one check does with a request: `next()`, `next(error)`, or an
      uncaught TypeError thrown by its own code, which Express hands to the
      application's generic error handler (outside this model). */
  datatype Verdict = Pass | Fail(error: Error) | Crash

  /** The response a chain produces. */
  datatype Reply<R> =
    | Json(status: int, data: R)
    | NoContent
    | Rejected(error: Error)
    | Faulted

  /** The reply sent when a check stops the chain. */
  function Refusal<R>(v: Verdict): (r: Reply<R>)
    requires !v.Pass?
    ensures v.Fail? <==> r.Rejected?
    ensures v.Fail? ==> r.error == v.error
  {
    if v.Fail? then Rejected(v.error) else Faulted
  }

  /** Runs the checks in order and stops at the first one that does not pass. */
  function RunChain<C>(checks: seq<C>, eval: C -> Verdict): (v: Verdict)
    ensures v.Pass? <==> forall i :: 0 <= i < |checks| ==> eval(checks[i]).Pass?
    ensures !v.Pass? ==>
      exists k :: 0 <= k < |checks| && eval(checks[k]) == v &&
        forall j :: 0 <= j < k ==> eval(checks[j]).Pass?
  {
    if checks == [] then Pass
    else if !eval(checks[0]).Pass? then eval(checks[0])
    else
      RunChain(checks[1..], eval)
  }

  /** The chain's verdict is that of the first check that does not pass. */
  lemma {:induction false} RunChainStopsAt<C>(checks: seq<C>, eval: C -> Verdict, k: nat)
    requires k < |checks|
    requires forall j :: 0 <= j < k ==> eval(checks[j]).Pass?
    requires !eval(checks[k]).Pass?
    ensures RunChain(checks, eval) == eval(checks[k])
  {
    if k > 0 {
      assert eval(checks[0]).Pass?;
      RunChainStopsAt(checks[1..], eval, k - 1);
    }
  }

  /** A chain all of whose checks pass passes. */
  lemma RunChainAllPass<C>(checks: seq<C>, eval: C -> Verdict)
    requires forall c :: c in checks ==> eval(c) == Pass
    ensures RunChain(checks, eval) == Pass
  {
    assert forall i :: 0 <= i < |checks| ==> checks[i] in checks;
  }

  /** Every check of a chain that passes has passed. */
  lemma PassedAt<C>(checks: seq<C>, eval: C -> Verdict, k: nat)
    requires RunChain(checks, eval) == Pass
    requires k < |checks|
    ensures eval(checks[k]) == Pass
  {
  }

  /** Running two chains one after the other is running their concatenation:
      the second runs only when the first passes. */
  lemma {:induction false} RunChainAppend<C>(first: seq<C>, second: seq<C>, eval: C -> Verdict)
    ensures RunChain(first + second, eval) ==
      if RunChain(first, eval).Pass? then RunChain(second, eval) else RunChain(first, eval)
  {
    if first != [] {
      assert (first + second)[0] == first[0];
      assert (first + second)[1..] == first[1..] + second;
      RunChainAppend(first[1..], second, eval);
    } else {
      assert first + second == second;
    }
  }

  /** Two ways of evaluating checks that agree on every check of a chain
      give the chain the same verdict. */
  lemma {:induction false} RunChainAgrees<C>(checks: seq<C>, eval: C -> Verdict, eval': C -> Verdict)
    requires forall i :: 0 <= i < |checks| ==> eval(checks[i]) == eval'(checks[i])
    ensures RunChain(checks, eval) == RunChain(checks, eval')
  {
    if checks != [] {
      RunChainAgrees(checks[1..], eval, eval');
    }
  }
}
