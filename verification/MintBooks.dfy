/** Where every accepted proof went: into sats reported redeemed, or into a swap. */
module MintBooks {
  import opened Sums
  import opened Ecash
  import opened MintProtocol
  import opened MintRuns

  function Spent(s: Hubs): nat { SumBy(s.accepted, ProofAmount) }

  function Swapped(s: Hubs): nat { SumBy(s.grants, SwapFunds) }

  /** The step records a batch for a node and reports its sats. */
  predicate Redeems(s: Hubs, step: Step)
    requires Enabled(s, step)
  {
    step.SaveSpent? && step.ok && s.jobs[step.job].use.Redeem? && Insertable(s.spent, s.jobs[step.job].rows)
  }

  /** What a batch is worth beyond the 64-bit total reported for it. */
  function Uncounted(s: Hubs, step: Step): nat
    requires Enabled(s, step)
  {
    if Redeems(s, step) then SumBy(s.jobs[step.job].proofs, ProofAmount) / U64 * U64 else 0
  }

  lemma {:induction false} SaveCounts(h: CurveHash, s: Hubs, j: nat, ok: bool)
    requires Enabled(s, SaveSpent(j, ok))
    ensures var t := OnSaveSpent(s, j, ok);
            Spent(t) + s.redeemed + Swapped(s)
            == Spent(s) + t.redeemed + Swapped(t) + Uncounted(s, SaveSpent(j, ok))
  {
    var Checking(use, proofs, rows) := s.jobs[j];
    if ok && Insertable(s.spent, rows) {
      SumByConcat(s.accepted, proofs, ProofAmount);
      if use.SwapInto? { SumByPush(s.grants, Grant(FromSwap(proofs), [], Held), SwapFunds); }
    }
  }

  lemma {:induction false} GrantCounts(grants: seq<Grant>, g: nat, grant: Grant)
    requires g < |grants| && grant.source == grants[g].source
    ensures SumBy(grants[g := grant], SwapFunds) == SumBy(grants, SwapFunds)
  {
    SumByUpdate(grants, g, grant, SwapFunds);
  }

  lemma {:induction false} SignCounts(s: Hubs, j: nat, ok: bool)
    requires Enabled(s, Sign(j, ok))
    ensures var t := OnSign(s, j, ok); Swapped(t) == Swapped(s) && t.accepted == s.accepted && t.redeemed == s.redeemed
  {
    var g := s.jobs[j].grant;
    GrantCounts(s.grants, g, Grant(s.grants[g].source, s.jobs[j].outs, Signed));
  }

  lemma {:induction false} ReleaseCounts(s: Hubs, j: nat, ok: bool)
    requires Enabled(s, Release(j, ok))
    ensures var t := OnRelease(s, j, ok);
            Swapped(t) == Swapped(s) && t.accepted == s.accepted && t.redeemed == s.redeemed
  {
    var g := s.jobs[j].grant;
    GrantCounts(s.grants, g, s.grants[g].(phase := Released));
  }

  /** What is reported and swapped grows with what is recorded, less what wraps. */
  lemma {:induction false} StepCounts(h: CurveHash, s: Hubs, step: Step)
    requires Enabled(s, step)
    ensures var t := Apply(h, s, step);
            Spent(t) + s.redeemed + Swapped(s) == Spent(s) + t.redeemed + Swapped(t) + Uncounted(s, step)
  {
    match step
    case Claim(j, ok) => SumByPush(s.grants, Grant(FromQuote(s.jobs[j].payment), [], Held), SwapFunds);
    case Sign(j, ok) => SignCounts(s, j, ok);
    case Release(j, ok) => ReleaseCounts(s, j, ok);
    case SaveSpent(j, ok) => SaveCounts(h, s, j, ok);
    case _ =>
  }

  ghost predicate NoneWraps(states: seq<Hubs>, steps: seq<Step>)
    requires |states| == |steps| + 1
    requires forall n :: 0 <= n < |steps| ==> Enabled(states[n], steps[n])
  {
    forall n :: 0 <= n < |steps| ==> Uncounted(states[n], steps[n]) == 0
  }

  lemma {:induction false} LastWraps(states: seq<Hubs>, steps: seq<Step>)
    requires |states| == |steps| + 1 && steps != []
    requires forall n :: 0 <= n < |steps| ==> Enabled(states[n], steps[n])
    ensures var m := |steps| - 1;
            && (forall n :: 0 <= n < m ==> Enabled(states[..m + 1][n], steps[..m][n]))
            && (NoneWraps(states, steps) <==>
                NoneWraps(states[..m + 1], steps[..m]) && Uncounted(states[m], steps[m]) == 0)
  {
    var m := |steps| - 1;
    assert forall n :: 0 <= n < m ==> states[..m + 1][n] == states[n] && steps[..m][n] == steps[n];
  }

  /**
   * Over every run from the empty hub, sound or not: every sat of every accepted
   * proof was reported redeemed to a node or went into a swap, exactly once, if and
   * only if no redeemed batch was worth 2^64 or more; otherwise less was reported.
   */
  lemma {:induction false} RedeemedExact(h: CurveHash, states: seq<Hubs>, steps: seq<Step>)
    requires IsRun(h, states, steps) && states[0] == START
    ensures var t := states[|steps|];
            && t.redeemed + Swapped(t) <= Spent(t)
            && (t.redeemed + Swapped(t) == Spent(t) <==> NoneWraps(states, steps))
  {
    if steps != [] {
      var m := |steps| - 1;
      LastStep(h, states, steps);
      LastWraps(states, steps);
      RedeemedExact(h, states[..m + 1], steps[..m]);
      StepCounts(h, states[m], steps[m]);
    }
  }
}
