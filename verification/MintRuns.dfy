/** The mint's guarantees over whole runs of interleaved steps. */
module MintRuns {
  import opened Sums
  import opened Ecash
  import opened MintProtocol
  import opened MintSafety

  /** A run: the states passed through and the steps between them. */
  ghost predicate IsRun(h: CurveHash, states: seq<Hubs>, steps: seq<Step>) {
    && |states| == |steps| + 1
    && forall n :: 0 <= n < |steps| ==> Enabled(states[n], steps[n]) && states[n + 1] == Apply(h, states[n], steps[n])
  }

  ghost predicate AllSound(states: seq<Hubs>, steps: seq<Step>)
    requires |states| == |steps| + 1
    requires forall n :: 0 <= n < |steps| ==> Enabled(states[n], steps[n])
  {
    forall n :: 0 <= n < |steps| ==> Sound(states[n], steps[n])
  }

  lemma {:induction false} StartHoldsInv(h: CurveHash)
    ensures Inv(h, START)
  {
  }

  ghost predicate AllInv(h: CurveHash, states: seq<Hubs>) {
    forall n :: 0 <= n < |states| ==> Inv(h, states[n])
  }

  lemma {:induction false} LastStep(h: CurveHash, states: seq<Hubs>, steps: seq<Step>)
    requires IsRun(h, states, steps) && steps != []
    ensures var m := |steps| - 1;
            && IsRun(h, states[..m + 1], steps[..m])
            && (AllSound(states, steps) <==> AllSound(states[..m + 1], steps[..m]) && Sound(states[m], steps[m]))
  {
  }

  /** A run keeps the invariant throughout exactly when each of its steps is sound. */
  lemma {:induction false} RunExact(h: CurveHash, states: seq<Hubs>, steps: seq<Step>)
    requires IsRun(h, states, steps) && Inv(h, states[0])
    ensures AllSound(states, steps) <==> AllInv(h, states)
  {
    if steps != [] {
      var m := |steps| - 1;
      var before := states[..m + 1];
      LastStep(h, states, steps);
      RunExact(h, before, steps[..m]);
      assert states == before + [states[m + 1]];
      assert AllInv(h, states) <==> AllInv(h, before) && Inv(h, states[m + 1]);
      if AllInv(h, before) {
        assert Inv(h, before[m]) && before[m] == states[m];
        StepExact(h, states[m], steps[m]);
      }
    }
  }

  /**
   * Over every interleaving of mint, swap and redeem requests in which PAID is
   * never written over ISSUED and no output total outwraps its funding, the sats
   * redeemed never exceed the sats received.
   */
  lemma {:induction false} SoundRunsPay(h: CurveHash, states: seq<Hubs>, steps: seq<Step>)
    requires IsRun(h, states, steps) && states[0] == START
    requires AllSound(states, steps)
    ensures forall n :: 0 <= n < |states| ==> states[n].redeemed <= SumBy(states[n].settled, PaymentSats)
  {
    StartHoldsInv(h);
    RunExact(h, states, steps);
    forall n | 0 <= n < |states| ensures states[n].redeemed <= SumBy(states[n].settled, PaymentSats) {
      InvBoundsRedeemed(h, states[n]);
    }
  }

  /**
   * At every moment of such a run a quote has at most one claim that was not
   * handed back; so signatures exist for at most one claim on it, ever, and never
   * for more than the invoice paid.
   */
  lemma {:induction false} OneClaimEver(h: CurveHash, states: seq<Hubs>, steps: seq<Step>, n: nat, f: nat, g: nat)
    requires IsRun(h, states, steps) && states[0] == START && AllSound(states, steps) && n < |states|
    requires f < |states[n].grants| && g < |states[n].grants|
    requires var a, b := states[n].grants[f].source, states[n].grants[g].source;
             a.FromQuote? && b.FromQuote? && a.payment.quote == b.payment.quote
    ensures Live(states[n].grants[f]) && Live(states[n].grants[g]) ==> f == g
    ensures states[n].grants[f].outs != [] && states[n].grants[g].outs != [] ==> f == g
    ensures OutsOf(states[n].grants[f]) <= states[n].grants[f].source.payment.sats
  {
    StartHoldsInv(h);
    RunExact(h, states, steps);
    assert Inv(h, states[n]);
    var grants := states[n].grants;
    assert OutsOf(grants[f]) <= Funds(grants[f]);
  }

  // ---- A point is spent once, whatever else goes wrong ----

  predicate Recorded(h: CurveHash, spent: SpentTable, p: Proof) {
    Verifies(h, p) && h(p.secret).y in spent && spent[h(p.secret).y] == RowOf(h, p)
  }

  ghost predicate Listed(h: CurveHash, accepted: seq<Proof>, y: Point) {
    exists i :: 0 <= i < |accepted| && h(accepted[i].secret) == OnCurve(y)
  }

  /** The spent table is exactly the log of accepted proofs, no two of one point. */
  ghost predicate TableIsLog(h: CurveHash, spent: SpentTable, accepted: seq<Proof>) {
    && (forall i :: 0 <= i < |accepted| ==> Recorded(h, spent, accepted[i]))
    && (forall y :: y in spent ==> Listed(h, accepted, y))
    && (forall i, k :: 0 <= i < k < |accepted| ==> h(accepted[i].secret) != h(accepted[k].secret))
  }

  ghost predicate ChecksOk(h: CurveHash, signed: seq<Sig>, jobs: map<nat, Job>) {
    forall j :: j in jobs && jobs[j].Checking? ==> Checked(h, signed, jobs[j].proofs, jobs[j].rows)
  }

  ghost predicate SpendInv(h: CurveHash, s: Hubs) {
    TableIsLog(h, s.spent, s.accepted) && ChecksOk(h, s.signed, s.jobs)
  }

  /** The whole batch tested at one moment: all verify, all unspent, none sharing a point. */
  ghost predicate AcceptsNow(h: CurveHash, s: Hubs, proofs: seq<Proof>) {
    && AllVerify(h, proofs)
    && (forall i :: 0 <= i < |proofs| ==> h(proofs[i].secret).y !in s.spent)
    && (forall i, k :: 0 <= i < k < |proofs| ==> h(proofs[i].secret).y != h(proofs[k].secret).y)
  }

  /**
   * However the checks of a batch were interleaved with other processes, the
   * insert decides as one atomic test-and-insert on the table of that moment:
   * accepted and recorded whole exactly when the batch passes, otherwise nothing
   * changes. Two proofs of one point are refused here even though they differ.
   */
  lemma {:induction false} SaveIsAtomic(h: CurveHash, s: Hubs, j: nat)
    requires SpendInv(h, s) && Enabled(s, SaveSpent(j, true))
    ensures var proofs := s.jobs[j].proofs;
            var t := Apply(h, s, SaveSpent(j, true));
            && (AcceptsNow(h, s, proofs) ==> t.accepted == s.accepted + proofs
                                             && t.spent == InsertAll(s.spent, RowsOf(h, proofs)))
            && (!AcceptsNow(h, s, proofs) ==> t.accepted == s.accepted && t.spent == s.spent)
  {
    var proofs, rows := s.jobs[j].proofs, s.jobs[j].rows;
    assert forall i :: 0 <= i < |proofs| ==> rows[i].y == h(proofs[i].secret).y;
    assert rows == RowsOf(h, proofs);
    assert AcceptsNow(h, s, proofs) <==> Insertable(s.spent, rows);
  }

  /** A proof turned away by a check would have failed the atomic test as well. */
  lemma {:induction false} RejectIsAtomic(h: CurveHash, s: Hubs, j: nat)
    requires Enabled(s, CheckProof(j, true)) && j !in Apply(h, s, CheckProof(j, true)).jobs
    ensures !AcceptsNow(h, s, s.jobs[j].proofs)
    ensures Apply(h, s, CheckProof(j, true)).spent == s.spent
  {
  }

  lemma {:induction false} BatchRecorded(h: CurveHash, spent: SpentTable, accepted: seq<Proof>, proofs: seq<Proof>)
    requires TableIsLog(h, spent, accepted)
    requires AllVerify(h, proofs)
    requires Insertable(spent, RowsOf(h, proofs))
    ensures forall i :: 0 <= i < |accepted + proofs| ==>
              Recorded(h, InsertAll(spent, RowsOf(h, proofs)), (accepted + proofs)[i])
  {
    var rows, all := RowsOf(h, proofs), accepted + proofs;
    InsertAllRows(spent, rows);
    forall i | 0 <= i < |all| ensures Recorded(h, InsertAll(spent, rows), all[i]) {
      if i < |accepted| {
        assert Recorded(h, spent, accepted[i]);
      } else {
        assert rows[i - |accepted|] == RowOf(h, all[i]);
      }
    }
  }

  lemma {:induction false} BatchListed(h: CurveHash, spent: SpentTable, accepted: seq<Proof>, proofs: seq<Proof>)
    requires TableIsLog(h, spent, accepted)
    requires AllVerify(h, proofs)
    ensures forall y :: y in InsertAll(spent, RowsOf(h, proofs)) ==> Listed(h, accepted + proofs, y)
  {
    var rows, all := RowsOf(h, proofs), accepted + proofs;
    InsertAllKeys(spent, rows);
    forall y | y in InsertAll(spent, rows) ensures Listed(h, all, y) {
      if y in spent {
        assert Listed(h, accepted, y);
        var i :| 0 <= i < |accepted| && h(accepted[i].secret) == OnCurve(y);
        assert all[i] == accepted[i];
      } else {
        var i :| 0 <= i < |rows| && rows[i].y == y;
        assert all[|accepted| + i] == proofs[i];
      }
    }
  }

  lemma {:induction false} BatchDistinct(h: CurveHash, spent: SpentTable, accepted: seq<Proof>, proofs: seq<Proof>)
    requires TableIsLog(h, spent, accepted)
    requires AllVerify(h, proofs)
    requires Insertable(spent, RowsOf(h, proofs))
    ensures var all := accepted + proofs;
            forall i, k :: 0 <= i < k < |all| ==> h(all[i].secret) != h(all[k].secret)
  {
    var rows, all, n := RowsOf(h, proofs), accepted + proofs, |accepted|;
    forall i, k | 0 <= i < k < |all| ensures h(all[i].secret) != h(all[k].secret) {
      if k >= n {
        assert rows[k - n].y == h(all[k].secret).y;
        if i < n { assert Recorded(h, spent, accepted[i]); } else { assert rows[i - n].y == h(all[i].secret).y; }
      }
    }
  }

  lemma {:induction false} SaveKeepsSpendInv(h: CurveHash, s: Hubs, j: nat, ok: bool)
    requires SpendInv(h, s) && j in s.jobs && s.jobs[j].Checking? && |s.jobs[j].rows| == |s.jobs[j].proofs|
    ensures SpendInv(h, OnSaveSpent(s, j, ok))
  {
    var proofs, rows := s.jobs[j].proofs, s.jobs[j].rows;
    assert Checked(h, s.signed, proofs, rows);
    assert rows == RowsOf(h, proofs);
    if Insertable(s.spent, rows) {
      BatchRecorded(h, s.spent, s.accepted, proofs);
      BatchListed(h, s.spent, s.accepted, proofs);
      BatchDistinct(h, s.spent, s.accepted, proofs);
    }
  }

  lemma {:induction false} CheckKeepsSpendInv(h: CurveHash, s: Hubs, j: nat, ok: bool)
    requires SpendInv(h, s) && j in s.jobs && s.jobs[j].Checking? && |s.jobs[j].rows| < |s.jobs[j].proofs|
    ensures SpendInv(h, OnCheckProof(h, s, j, ok))
  {
  }

  /** A step that records no spend and leaves job j with no check, or with none done yet. */
  lemma {:induction false} OtherKeepsSpendInv(h: CurveHash, s: Hubs, t: Hubs, j: nat)
    requires SpendInv(h, s) && t.spent == s.spent && t.accepted == s.accepted && s.signed <= t.signed
    requires forall k :: k in t.jobs && k != j ==> k in s.jobs && t.jobs[k] == s.jobs[k]
    requires j in t.jobs && t.jobs[j].Checking? ==>
               Presentable(t.signed, t.jobs[j].proofs) && t.jobs[j].rows == []
    ensures SpendInv(h, t)
  {
    forall k | k in t.jobs && t.jobs[k].Checking? ensures Checked(h, t.signed, t.jobs[k].proofs, t.jobs[k].rows) {
      if k != j { assert Checked(h, s.signed, s.jobs[k].proofs, s.jobs[k].rows); }
    }
  }

  /** Steps on quotes and signatures start no checks. */
  lemma {:induction false} AskKeepsSpendInv(h: CurveHash, s: Hubs, step: Step)
    requires SpendInv(h, s) && Enabled(s, step) && (step.GetQuote? || step.PostMint?)
    ensures SpendInv(h, Apply(h, s, step))
  {
    OtherKeepsSpendInv(h, s, Apply(h, s, step), step.job);
  }

  lemma {:induction false} PaymentKeepsSpendInv(h: CurveHash, s: Hubs, step: Step)
    requires SpendInv(h, s) && Enabled(s, step) && (step.Lookup? || step.MarkPaid?)
    ensures SpendInv(h, Apply(h, s, step))
  {
    OtherKeepsSpendInv(h, s, Apply(h, s, step), step.job);
  }

  lemma {:induction false} ClaimKeepsSpendInv(h: CurveHash, s: Hubs, step: Step)
    requires SpendInv(h, s) && Enabled(s, step) && (step.ReadQuote? || step.Claim?)
    ensures SpendInv(h, Apply(h, s, step))
  {
    OtherKeepsSpendInv(h, s, Apply(h, s, step), step.job);
  }

  lemma {:induction false} SignKeepsSpendInv(h: CurveHash, s: Hubs, step: Step)
    requires SpendInv(h, s) && Enabled(s, step) && (step.Sign? || step.Release?)
    ensures SpendInv(h, Apply(h, s, step))
  {
    OtherKeepsSpendInv(h, s, Apply(h, s, step), step.job);
  }

  lemma {:induction false} PostKeepsSpendInv(h: CurveHash, s: Hubs, step: Step)
    requires SpendInv(h, s) && Enabled(s, step) && (step.PostRedeem? || step.PostSwap? || step.Crash?)
    ensures SpendInv(h, Apply(h, s, step))
  {
    OtherKeepsSpendInv(h, s, Apply(h, s, step), step.job);
  }

  lemma {:induction false} StepKeepsSpendInv(h: CurveHash, s: Hubs, step: Step)
    requires SpendInv(h, s) && Enabled(s, step)
    ensures SpendInv(h, Apply(h, s, step))
  {
    match step
    case SaveSpent(j, ok) => SaveKeepsSpendInv(h, s, j, ok);
    case CheckProof(j, ok) => CheckKeepsSpendInv(h, s, j, ok);
    case NewQuote(_, _) =>
    case Settle(_) =>
    case PostRedeem(_, _) => PostKeepsSpendInv(h, s, step);
    case PostSwap(_, _, _) => PostKeepsSpendInv(h, s, step);
    case Crash(_) => PostKeepsSpendInv(h, s, step);
    case GetQuote(_, _) => AskKeepsSpendInv(h, s, step);
    case PostMint(_, _, _) => AskKeepsSpendInv(h, s, step);
    case Lookup(_, _) => PaymentKeepsSpendInv(h, s, step);
    case MarkPaid(_, _) => PaymentKeepsSpendInv(h, s, step);
    case ReadQuote(_, _) => ClaimKeepsSpendInv(h, s, step);
    case Claim(_, _) => ClaimKeepsSpendInv(h, s, step);
    case Sign(_, _) => SignKeepsSpendInv(h, s, step);
    case Release(_, _) => SignKeepsSpendInv(h, s, step);
  }

  /** Over every run, sound or not, no point is accepted twice and the table misses none. */
  lemma {:induction false} EachPointSpentOnce(h: CurveHash, states: seq<Hubs>, steps: seq<Step>, n: nat)
    requires IsRun(h, states, steps) && states[0] == START && n < |states|
    ensures SpendInv(h, states[n])
  {
    if n > 0 {
      EachPointSpentOnce(h, states, steps, n - 1);
      StepKeepsSpendInv(h, states[n - 1], steps[n - 1]);
    }
  }
}
