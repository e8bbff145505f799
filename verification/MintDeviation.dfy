/**
 * The mark-paid write as the code has it: a handler that read UNPAID writes PAID
 * later without looking again. This module shows what that costs and that a
 * quote handed back after a failed signing can be claimed again.
 */
module MintDeviation {
  import opened Sums
  import opened Ecash
  import opened MintProtocol
  import opened MintSafety
  import opened MintRuns

  lemma {:induction false} JoinRuns(h: CurveHash, states: seq<Hubs>, steps: seq<Step>, path: seq<Hubs>,
                                    script: seq<Step>)
    requires IsRun(h, states, steps) && IsRun(h, path, script) && path[0] == states[|steps|]
    ensures IsRun(h, states + path[1..], steps + script)
    ensures (states + path[1..])[|steps| + |script|] == path[|script|]
  {
    var more, longer := states + path[1..], steps + script;
    forall n | 0 <= n < |longer| ensures Enabled(more[n], longer[n]) && more[n + 1] == Apply(h, more[n], longer[n]) {
      if n < |steps| {
        assert more[n] == states[n] && more[n + 1] == states[n + 1] && longer[n] == steps[n];
      } else {
        var k := n - |steps|;
        assert more[n] == path[k] && more[n + 1] == path[k + 1] && longer[n] == script[k];
      }
    }
  }

  lemma {:induction false} OneStep(h: CurveHash, s: Hubs, step: Step)
    requires Enabled(s, step)
    ensures IsRun(h, [s, Apply(h, s, step)], [step])
  {
  }

  /** The hub once a quote was claimed and its outputs signed. */
  function SignedFor(s: Hubs, id: string, outs: seq<Blinded>): Hubs
    requires id in s.quotes
  {
    s.(quotes := s.quotes[id := s.quotes[id].(state := Issued)],
       signed := s.signed + Sigs(outs),
       grants := s.grants + [Grant(FromQuote(Payment(id, s.quotes[id].amount)), outs, Signed)])
  }

  lemma {:induction false} PaidQuoteIsRead(h: CurveHash, s: Hubs, id: string, outs: seq<Blinded>, k: nat)
    requires id in s.quotes && s.quotes[id].state == Paid && 0 < |outs| <= MAX_ITEMS
    requires Total64(outs, BlindedAmount) <= s.quotes[id].amount && k !in s.jobs
    ensures var claiming := Goto(s, k, Claiming(Payment(id, s.quotes[id].amount), outs));
            IsRun(h, [s, Goto(s, k, Reading(id, outs)), claiming], [PostMint(k, id, outs), ReadQuote(k, true)])
  {
  }

  lemma {:induction false} ClaimIsSigned(h: CurveHash, s: Hubs, id: string, outs: seq<Blinded>, k: nat)
    returns (claimed: Hubs)
    requires id in s.quotes && s.quotes[id].state == Paid && k !in s.jobs
    ensures var claiming := Goto(s, k, Claiming(Payment(id, s.quotes[id].amount), outs));
            IsRun(h, [claiming, claimed, SignedFor(s, id, outs)], [Claim(k, true), Sign(k, true)])
    ensures k in claimed.jobs && claimed.jobs[k] == Signing(|s.grants|, outs)
  {
    var payment := Payment(id, s.quotes[id].amount);
    var claiming := Goto(s, k, Claiming(payment, outs));
    claimed := s.(quotes := s.quotes[id := s.quotes[id].(state := Issued)],
                  grants := s.grants + [Grant(FromQuote(payment), [], Held)],
                  jobs := s.jobs[k := Signing(|s.grants|, outs)]);
    assert claiming.jobs[k := Signing(|s.grants|, outs)] == claimed.jobs;
    assert claimed.grants[|s.grants| := Grant(FromQuote(payment), outs, Signed)]
           == s.grants + [Grant(FromQuote(payment), outs, Signed)];
    assert claimed.jobs - {k} == s.jobs;
    assert OnClaim(claiming, k, true) == claimed;
    assert OnSign(claimed, k, true) == SignedFor(s, id, outs);
  }

  /** A PAID quote can be claimed and signed for by whoever asks next. */
  lemma {:induction false} PaidQuoteIssues(h: CurveHash, s: Hubs, id: string, outs: seq<Blinded>, k: nat)
    returns (path: seq<Hubs>, script: seq<Step>)
    requires id in s.quotes && s.quotes[id].state == Paid && 0 < |outs| <= MAX_ITEMS
    requires Total64(outs, BlindedAmount) <= s.quotes[id].amount && k !in s.jobs
    ensures IsRun(h, path, script) && path[0] == s && path[|script|] == SignedFor(s, id, outs)
    ensures script == [PostMint(k, id, outs), ReadQuote(k, true), Claim(k, true), Sign(k, true)]
    ensures k in path[3].jobs && path[3].jobs[k] == Signing(|s.grants|, outs)
  {
    PaidQuoteIsRead(h, s, id, outs, k);
    var claimed := ClaimIsSigned(h, s, id, outs, k);
    var claiming := Goto(s, k, Claiming(Payment(id, s.quotes[id].amount), outs));
    var first, last := [s, Goto(s, k, Reading(id, outs)), claiming], [claiming, claimed, SignedFor(s, id, outs)];
    var asking, minting := [PostMint(k, id, outs), ReadQuote(k, true)], [Claim(k, true), Sign(k, true)];
    JoinRuns(h, first, asking, last, minting);
    path, script := first + last[1..], asking + minting;
  }

  ghost predicate ClaimedTwice(grants: seq<Grant>, outs: seq<Blinded>) {
    exists f, g :: 0 <= f < g < |grants| && Live(grants[f]) && Live(grants[g])
                   && grants[f].source.payment.quote == grants[g].source.payment.quote
                   && grants[g].outs == outs && grants[g].phase == Signed
  }

  /**
   * Whenever the mark-paid write lands on ISSUED, the run can go on to a second
   * live claim on the same quote, signed for in full.
   */
  lemma {:induction false} StaleMarkPaidIssuesTwice(h: CurveHash, s: Hubs, j: nat, outs: seq<Blinded>, k: nat)
    returns (states: seq<Hubs>, steps: seq<Step>)
    requires Inv(h, s) && j in s.jobs && s.jobs[j].Marking?
    requires s.jobs[j].quote in s.quotes && s.quotes[s.jobs[j].quote].state == Issued
    requires 0 < |outs| <= MAX_ITEMS && Total64(outs, BlindedAmount) <= s.quotes[s.jobs[j].quote].amount && k !in s.jobs
    ensures IsRun(h, states, steps) && steps != [] && states[0] == s && steps[0] == MarkPaid(j, true)
    ensures ClaimedTwice(states[|steps|].grants, outs)
  {
    var id := s.jobs[j].quote;
    OneStep(h, s, MarkPaid(j, true));
    var marked := OnMarkPaid(s, j, true);
    assert marked.grants == s.grants && k !in marked.jobs;
    var path, script := PaidQuoteIssues(h, marked, id, outs, k);
    JoinRuns(h, [s, marked], [MarkPaid(j, true)], path, script);
    states, steps := [s, marked] + path[1..], [MarkPaid(j, true)] + script;
    SecondClaim(s.quotes, s.settled, s.grants, id, s.quotes[id].amount, outs);
  }

  /** One more grant on an ISSUED quote is a second live one. */
  lemma {:induction false} SecondClaim(quotes: QuoteTable, settled: seq<Payment>, grants: seq<Grant>, id: string,
                                       sats: nat, outs: seq<Blinded>)
    requires OneClaimPerQuote(quotes, settled, grants) && id in quotes && quotes[id].state == Issued
    ensures ClaimedTwice(grants + [Grant(FromQuote(Payment(id, sats)), outs, Signed)], outs)
  {
    var more := grants + [Grant(FromQuote(Payment(id, sats)), outs, Signed)];
    assert Claimed(grants, id);
    var f :| 0 <= f < |grants| && Live(grants[f]) && grants[f].source.payment.quote == id;
    assert more[f] == grants[f] && Live(more[|grants|]);
  }

  /**
   * A claim whose signing failed hands the quote back: while every step is sound
   * the release cannot lose, and the next request can claim and sign again.
   */
  lemma {:induction false} FailedSigningIsRetried(h: CurveHash, s: Hubs, j: nat, outs: seq<Blinded>, k: nat)
    returns (states: seq<Hubs>, steps: seq<Step>)
    requires Inv(h, s) && j in s.jobs && s.jobs[j].Releasing? && s.jobs[j].quote in s.quotes
    requires 0 < |outs| <= MAX_ITEMS && Total64(outs, BlindedAmount) <= s.quotes[s.jobs[j].quote].amount && k !in s.jobs
    ensures IsRun(h, states, steps) && steps != [] && states[0] == s && steps[0] == Release(j, true)
    ensures states[1].quotes == s.quotes[s.jobs[j].quote := s.quotes[s.jobs[j].quote].(state := Paid)]
    ensures !Claimed(states[1].grants, s.jobs[j].quote)
    ensures states[|steps|].signed == s.signed + Sigs(outs)
  {
    assert JobOk(h, s.quotes, s.settled, s.signed, s.grants, s.jobs[j]);
    ReleaseFrees(s.quotes, s.settled, s.grants, s.jobs[j].grant);
    OneStep(h, s, Release(j, true));
    var freed := OnRelease(s, j, true);
    var path, script := PaidQuoteIssues(h, freed, s.jobs[j].quote, outs, k);
    JoinRuns(h, [s, freed], [Release(j, true)], path, script);
    states, steps := [s, freed] + path[1..], [Release(j, true)] + script;
  }

  // ---- A run in which one sat paid is redeemed as two ----

  function SameName(secret: string): Hashed { OnCurve(secret) }

  function OneSat(secret: string): Proof { Proof("keys", 1, secret, Holds(Sig("keys", 1, secret))) }

  function Output(secret: string): Blinded { Blinded("keys", 1, true, secret) }

  const SETTLED := START.(quotes := map["q" := Quote(1, Unpaid)], settled := [Payment("q", 1)])

  /** Two status polls read UNPAID before either writes. */
  lemma {:induction false} TwoPolls() returns (path: seq<Hubs>, script: seq<Step>)
    ensures IsRun(SameName, path, script) && path[0] == START
    ensures path[|script|] == SETTLED.(jobs := map[0 := Marking("q", Reply), 1 := Marking("q", Reply)])
  {
    script := [NewQuote("q", 1), Settle("q"), GetQuote(0, "q"), GetQuote(1, "q"), Lookup(0, true), Lookup(1, true)];
    path := [START,
             START.(quotes := map["q" := Quote(1, Unpaid)]),
             SETTLED,
             SETTLED.(jobs := map[0 := Polling("q", Reply)]),
             SETTLED.(jobs := map[0 := Polling("q", Reply), 1 := Polling("q", Reply)]),
             SETTLED.(jobs := map[0 := Marking("q", Reply), 1 := Polling("q", Reply)]),
             SETTLED.(jobs := map[0 := Marking("q", Reply), 1 := Marking("q", Reply)])];
    assert SETTLED.settled[0] == Payment("q", 1);
    forall n | 0 <= n < 6 ensures Enabled(path[n], script[n]) && path[n + 1] == Apply(SameName, path[n], script[n]) {
    }
  }

  const BOTH := [OneSat("a"), OneSat("b")]

  function Midway(s: Hubs, rows: seq<SpentRow>): Hubs { s.(jobs := map[0 := Checking(Redeem, BOTH, rows)]) }

  lemma {:induction false} CheckNext(s: Hubs, rows: seq<SpentRow>, row: SpentRow)
    requires s.spent == map[] && |rows| < |BOTH| && row == RowOf(SameName, BOTH[|rows|])
    ensures OnCheckProof(SameName, Midway(s, rows), 0, true) == Midway(s, rows + [row])
  {
  }

  /** Two one-sat proofs the mint signed pass every check. */
  lemma {:induction false} CheckBoth(s: Hubs) returns (path: seq<Hubs>, script: seq<Step>)
    requires s.signed == [Sig("keys", 1, "a"), Sig("keys", 1, "b")] && s.jobs == map[] && s.spent == map[]
    ensures IsRun(SameName, path, script) && path[0] == s
    ensures path[|script|] == s.(jobs := map[0 := Checking(Redeem, BOTH, RowsOf(SameName, BOTH))])
  {
    var a, b := RowOf(SameName, BOTH[0]), RowOf(SameName, BOTH[1]);
    assert RowsOf(SameName, BOTH) == [a, b];
    assert Presentable(s.signed, BOTH) by { assert s.signed[0] == BOTH[0].c.sig && s.signed[1] == BOTH[1].c.sig; }
    var s1 := Midway(s, []);
    var s2 := Midway(s, [a]);
    var s3 := Midway(s, [a, b]);
    path, script := [s, s1, s2, s3], [PostRedeem(0, BOTH), CheckProof(0, true), CheckProof(0, true)];
    assert s1 == OnPostRedeem(s, 0, BOTH);
    CheckNext(s, [], a);
    CheckNext(s, [a], b);
    assert [] + [a] == [a] && [a] + [b] == [a, b];
  }

  /** ... and are then redeemed as two sats. */
  lemma {:induction false} SaveBoth(s: Hubs)
    requires s.spent == map[] && s.jobs == map[0 := Checking(Redeem, BOTH, RowsOf(SameName, BOTH))]
    ensures var t := OnSaveSpent(s, 0, true); t.redeemed == s.redeemed + 2 && t.settled == s.settled
  {
    assert Total64(BOTH, ProofAmount) == 2 by {
      assert BOTH[..1] == [BOTH[0]] && [BOTH[0]][..0] == [];
      assert SumBy([BOTH[0]], ProofAmount) == 1;
    }
    assert Insertable(s.spent, RowsOf(SameName, BOTH));
  }

  lemma {:induction false} PollThenMint(states: seq<Hubs>, steps: seq<Step>, j: nat, secret: string)
    returns (more: seq<Hubs>, longer: seq<Step>)
    requires IsRun(SameName, states, steps)
    requires var s := states[|steps|];
             j in s.jobs && s.jobs[j] == Marking("q", Reply) && 2 !in s.jobs && "q" in s.quotes
             && s.quotes["q"].amount == 1
    ensures IsRun(SameName, more, longer) && more[0] == states[0]
    ensures var s, t := states[|steps|], more[|longer|];
            && t.signed == s.signed + [Sig("keys", 1, secret)]
            && t.jobs == s.jobs - {j} && t.spent == s.spent && t.redeemed == s.redeemed && t.settled == s.settled
            && "q" in t.quotes && t.quotes["q"].amount == 1
  {
    var s, outs := states[|steps|], [Output(secret)];
    assert SumBy(outs, BlindedAmount) == 1 by { assert outs[..0] == []; }
    OneStep(SameName, s, MarkPaid(j, true));
    var marked := OnMarkPaid(s, j, true);
    JoinRuns(SameName, states, steps, [s, marked], [MarkPaid(j, true)]);
    more, longer := states + [s, marked][1..], steps + [MarkPaid(j, true)];
    var path, script := PaidQuoteIssues(SameName, marked, "q", outs, 2);
    JoinRuns(SameName, more, longer, path, script);
    more, longer := more + path[1..], longer + script;
    assert Sigs(outs) == [Sig("keys", 1, secret)];
  }

  /**
   * Counterexample: with the unconditional write, a run from the empty hub in
   * which one settled sat is redeemed as two.
   */
  lemma {:induction false} RedeemedCanExceedPaid() returns (states: seq<Hubs>, steps: seq<Step>)
    ensures IsRun(SameName, states, steps) && states[0] == START
    ensures states[|steps|].redeemed == 2 && SumBy(states[|steps|].settled, PaymentSats) == 1
  {
    states, steps := TwoPolls();
    states, steps := PollThenMint(states, steps, 1, "a");
    states, steps := PollThenMint(states, steps, 0, "b");
    assert states[|steps|].signed == [Sig("keys", 1, "a"), Sig("keys", 1, "b")];
    var path, script := CheckBoth(states[|steps|]);
    JoinRuns(SameName, states, steps, path, script);
    states, steps := states + path[1..], steps + script;
    var s := states[|steps|];
    SaveBoth(s);
    OneStep(SameName, s, SaveSpent(0, true));
    var t := OnSaveSpent(s, 0, true);
    JoinRuns(SameName, states, steps, [s, t], [SaveSpent(0, true)]);
    states, steps := states + [s, t][1..], steps + [SaveSpent(0, true)];
    assert t.settled == [Payment("q", 1)];
    assert SumBy(t.settled, PaymentSats) == 1 by { assert [Payment("q", 1)][..0] == []; }
  }
}
