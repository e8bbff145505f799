/**
 * The caps on a request against the keys of the mint: how large a denomination
 * may be before uint64 totals stop protecting the mint.
 */
module MintCaps {
  import opened Sums
  import opened Ecash
  import opened MintProtocol
  import opened MintSafety
  import opened MintRuns
  import opened MintDeviation

  // ---- Every list of outputs a job carries went through a cap ----

  function OutputsOf(job: Job): seq<Blinded> {
    match job
    case Polling(_, next) => if next.MintNext? then next.outs else []
    case Marking(_, next) => if next.MintNext? then next.outs else []
    case Reading(_, outs) => outs
    case Claiming(_, outs) => outs
    case Signing(_, outs) => outs
    case Releasing(_, _) => []
    case Checking(use, _, _) => if use.SwapInto? then use.outs else []
  }

  ghost predicate Capped(jobs: map<nat, Job>) {
    forall j :: j in jobs ==> |OutputsOf(jobs[j])| <= MAX_ITEMS
  }

  lemma {:induction false} MovedKeepsCaps(s: Hubs, t: Hubs, j: nat)
    requires Capped(s.jobs)
    requires forall k :: k in t.jobs && k != j ==> k in s.jobs && t.jobs[k] == s.jobs[k]
    requires j in t.jobs ==> |OutputsOf(t.jobs[j])| <= MAX_ITEMS
    ensures Capped(t.jobs)
  {
  }

  lemma {:induction false} PostKeepsCaps(h: CurveHash, s: Hubs, step: Step)
    requires Enabled(s, step) && Capped(s.jobs)
    requires step.GetQuote? || step.PostMint? || step.PostRedeem? || step.PostSwap? || step.Crash?
    ensures Capped(Apply(h, s, step).jobs)
  {
    MovedKeepsCaps(s, Apply(h, s, step), step.job);
  }

  lemma {:induction false} QuoteStepKeepsCaps(h: CurveHash, s: Hubs, step: Step)
    requires Enabled(s, step) && Capped(s.jobs) && (step.Lookup? || step.MarkPaid? || step.ReadQuote?)
    ensures Capped(Apply(h, s, step).jobs)
  {
    assert |OutputsOf(s.jobs[step.job])| <= MAX_ITEMS;
    MovedKeepsCaps(s, Apply(h, s, step), step.job);
  }

  lemma {:induction false} IssueStepKeepsCaps(h: CurveHash, s: Hubs, step: Step)
    requires Enabled(s, step) && Capped(s.jobs) && (step.Claim? || step.Sign? || step.Release?)
    ensures Capped(Apply(h, s, step).jobs)
  {
    assert |OutputsOf(s.jobs[step.job])| <= MAX_ITEMS;
    MovedKeepsCaps(s, Apply(h, s, step), step.job);
  }

  lemma {:induction false} SpendStepKeepsCaps(h: CurveHash, s: Hubs, step: Step)
    requires Enabled(s, step) && Capped(s.jobs) && (step.CheckProof? || step.SaveSpent?)
    ensures Capped(Apply(h, s, step).jobs)
  {
    assert |OutputsOf(s.jobs[step.job])| <= MAX_ITEMS;
    MovedKeepsCaps(s, Apply(h, s, step), step.job);
  }

  lemma {:induction false} StepKeepsCaps(h: CurveHash, s: Hubs, step: Step)
    requires Enabled(s, step) && Capped(s.jobs)
    ensures Capped(Apply(h, s, step).jobs)
  {
    match step
    case NewQuote(_, _) =>
    case Settle(_) =>
    case Lookup(_, _) => QuoteStepKeepsCaps(h, s, step);
    case MarkPaid(_, _) => QuoteStepKeepsCaps(h, s, step);
    case ReadQuote(_, _) => QuoteStepKeepsCaps(h, s, step);
    case Claim(_, _) => IssueStepKeepsCaps(h, s, step);
    case Sign(_, _) => IssueStepKeepsCaps(h, s, step);
    case Release(_, _) => IssueStepKeepsCaps(h, s, step);
    case CheckProof(_, _) => SpendStepKeepsCaps(h, s, step);
    case SaveSpent(_, _) => SpendStepKeepsCaps(h, s, step);
    case _ => PostKeepsCaps(h, s, step);
  }

  lemma {:induction false} RunKeepsCaps(h: CurveHash, states: seq<Hubs>, steps: seq<Step>, n: nat)
    requires IsRun(h, states, steps) && states[0] == START && n < |states|
    ensures Capped(states[n].jobs)
  {
    if n > 0 {
      RunKeepsCaps(h, states, steps, n - 1);
      StepKeepsCaps(h, states[n - 1], steps[n - 1]);
    }
  }

  // ---- Runs of a mint whose largest key is known ----

  /** No PAID is written over ISSUED in the run. */
  ghost predicate AllTimely(states: seq<Hubs>, steps: seq<Step>)
    requires |states| == |steps| + 1
    requires forall n :: 0 <= n < |steps| ==> Enabled(states[n], steps[n])
  {
    forall n :: 0 <= n < |steps| ==> Timely(states[n], steps[n])
  }

  /** The mint has no key for a denomination above most, so it never signed one. */
  ghost predicate KeysUpTo(states: seq<Hubs>, most: nat) {
    forall n :: 0 <= n < |states| ==> SignedUpTo(states[n].signed, most)
  }

  ghost predicate SignedUpTo(signed: seq<Sig>, most: nat) {
    forall i :: 0 <= i < |signed| ==> signed[i].amount <= most
  }

  /** Both conditions carry over to a run and its continuation. */
  lemma {:induction false} JoinConditions(h: CurveHash, most: nat, states: seq<Hubs>, steps: seq<Step>, path: seq<Hubs>,
                                          script: seq<Step>)
    requires IsRun(h, states, steps) && IsRun(h, path, script) && path[0] == states[|steps|]
    requires AllTimely(states, steps) && AllTimely(path, script) && KeysUpTo(states, most) && KeysUpTo(path, most)
    ensures IsRun(h, states + path[1..], steps + script) && KeysUpTo(states + path[1..], most)
    ensures AllTimely(states + path[1..], steps + script)
    ensures (states + path[1..])[|steps| + |script|] == path[|script|]
  {
    JoinRuns(h, states, steps, path, script);
    var more, longer := states + path[1..], steps + script;
    forall n | 0 <= n < |longer| ensures Timely(more[n], longer[n]) {
      if n < |steps| {
        assert Timely(states[n], steps[n]);
      } else {
        var k := n - |steps|;
        assert Timely(path[k], script[k]) && more[n] == path[k];
      }
    }
    forall n | 0 <= n < |more| ensures SignedUpTo(more[n].signed, most) {
      if n < |states| {
        assert SignedUpTo(states[n].signed, most);
      } else {
        var k := n - |steps|;
        assert SignedUpTo(path[k].signed, most) && more[n] == path[k];
      }
    }
  }

  /** Signatures are never taken back, so the last state tells which keys were used. */
  lemma {:induction false} LastTellsKeys(h: CurveHash, most: nat, path: seq<Hubs>, script: seq<Step>, n: nat)
    requires IsRun(h, path, script) && n < |path| && SignedUpTo(path[|script|].signed, most)
    ensures SignedUpTo(path[n].signed, most)
    decreases |script| - n
  {
    if n < |script| {
      LastTellsKeys(h, most, path, script, n + 1);
      SignedOnlyGrows(h, path[n], script[n]);
    }
  }

  lemma {:induction false} SignedOnlyGrows(h: CurveHash, s: Hubs, step: Step)
    requires Enabled(s, step)
    ensures s.signed <= Apply(h, s, step).signed
  {
  }

  /** A run of such a mint from the empty hub, without a late mark-paid write. */
  ghost predicate MintRun(h: CurveHash, most: nat, states: seq<Hubs>, steps: seq<Step>) {
    IsRun(h, states, steps) && states[0] == START && AllTimely(states, steps) && KeysUpTo(states, most)
  }

  lemma {:induction false} SumBounded(outs: seq<Blinded>, most: nat)
    requires forall i :: 0 <= i < |outs| ==> outs[i].amount <= most
    ensures SumBy(outs, BlindedAmount) <= |outs| * most
  {
    if outs != [] {
      var n := |outs| - 1;
      assert forall i :: 0 <= i < n ==> outs[..n][i] == outs[i];
      SumBounded(outs[..n], most);
    }
  }

  lemma {:induction false} CappedTotal(outs: seq<Blinded>, most: nat)
    requires |outs| <= MAX_ITEMS && forall i :: 0 <= i < |outs| ==> outs[i].amount <= most
    ensures SumBy(outs, BlindedAmount) <= MAX_ITEMS * most
  {
    SumBounded(outs, most);
    TimesMono(|outs|, MAX_ITEMS, most);
  }

  lemma {:induction false} TimesMono(a: nat, b: nat, c: nat)
    requires a <= b
    ensures a * c <= b * c
  {
    assert b * c - a * c == (b - a) * c;
  }

  /** Below the bound no signing wraps. */
  lemma {:induction false} CappedSigningIsSound(h: CurveHash, s: Hubs, step: Step, most: nat)
    requires Enabled(s, step) && Capped(s.jobs) && Timely(s, step)
    requires SignedUpTo(Apply(h, s, step).signed, most) && MAX_ITEMS * most < U64
    ensures Sound(s, step)
  {
    if step.Sign? && step.ok {
      var outs := s.jobs[step.job].outs;
      assert |OutputsOf(s.jobs[step.job])| <= MAX_ITEMS;
      var signed := Apply(h, s, step).signed;
      forall i | 0 <= i < |outs| ensures outs[i].amount <= most {
        assert signed[|s.signed| + i].amount == outs[i].amount;
      }
      CappedTotal(outs, most);
    }
  }

  /** So the caps make every step of such a run sound. */
  lemma {:induction false} CappedRunsAreSound(h: CurveHash, most: nat, states: seq<Hubs>, steps: seq<Step>)
    requires MintRun(h, most, states, steps) && MAX_ITEMS * most < U64
    ensures AllSound(states, steps)
  {
    forall n | 0 <= n < |steps| ensures Sound(states[n], steps[n]) {
      RunKeepsCaps(h, states, steps, n);
      var next := n + 1;
      assert SignedUpTo(states[next].signed, most);
      CappedSigningIsSound(h, states[n], steps[n], most);
    }
  }

  /**
   * Over every interleaving of mint, swap and redeem requests, crashes and failing
   * statements: as long as PAID is not written over ISSUED and the largest
   * denomination times the cap stays below 2^64, the sats redeemed never exceed
   * the sats received.
   */
  lemma {:induction false} RedeemedNeverExceedsPaid(h: CurveHash, most: nat, states: seq<Hubs>, steps: seq<Step>)
    requires MintRun(h, most, states, steps) && MAX_ITEMS * most < U64
    ensures forall n :: 0 <= n < |states| ==> states[n].redeemed <= SumBy(states[n].settled, PaymentSats)
  {
    CappedRunsAreSound(h, most, states, steps);
    SoundRunsPay(h, states, steps);
  }

  // ---- Above the bound one settled sat buys 2^58 ----

  /** A sixty-fourth of 2^64. */
  const SHARE: nat := 0x400_0000_0000_0000

  function Share(y: Point): Blinded { Blinded("keys", SHARE, true, y) }

  function Shares(y: Point, count: nat): seq<Blinded> { seq(count, i => Share(y)) }

  lemma {:induction false} SharesWorth(y: Point, count: nat)
    ensures SumBy(Shares(y, count), BlindedAmount) == count * SHARE
  {
    if count > 0 {
      var less := count - 1;
      assert Shares(y, count)[..less] == Shares(y, less);
      SharesWorth(y, less);
    }
  }

  /** 64 outputs of 2^58 total zero, which fits any quote. */
  lemma {:induction false} SharesFitAnything(y: Point)
    ensures |Shares(y, MAX_ITEMS)| == MAX_ITEMS && Total64(Shares(y, MAX_ITEMS), BlindedAmount) == 0
  {
    SharesWorth(y, MAX_ITEMS);
  }

  const PAID_SAT := START.(quotes := map["q" := Quote(1, Paid)], settled := [Payment("q", 1)])

  /** One quote of one sat, settled and found paid. */
  lemma {:induction false} OneSatPaid(h: CurveHash) returns (path: seq<Hubs>, script: seq<Step>)
    ensures IsRun(h, path, script) && path[0] == START && path[|script|] == PAID_SAT
    ensures AllTimely(path, script) && AllSound(path, script) && KeysUpTo(path, 0)
  {
    script := [NewQuote("q", 1), Settle("q"), GetQuote(0, "q"), Lookup(0, true), MarkPaid(0, true)];
    path := [START,
             START.(quotes := map["q" := Quote(1, Unpaid)]),
             SETTLED,
             SETTLED.(jobs := map[0 := Polling("q", Reply)]),
             SETTLED.(jobs := map[0 := Marking("q", Reply)]),
             PAID_SAT];
    assert SETTLED.settled[0] == Payment("q", 1);
    assert OnMarkPaid(path[4], 0, true).jobs == map[];
    forall n | 0 <= n < 5 ensures Enabled(path[n], script[n]) && path[n + 1] == Apply(h, path[n], script[n]) {
    }
  }

  function Rechecked(s: Hubs, p: Proof, rows: seq<SpentRow>): Hubs {
    s.(jobs := map[0 := Checking(Redeem, [p], rows)])
  }

  /** One proof of 2^58 sats is checked ... */
  lemma {:induction false} ShareIsChecked(h: CurveHash, s: Hubs, p: Proof)
    requires Verifies(h, p) && p.c.sig in s.signed && s.spent == map[] && s.jobs == map[]
    ensures Enabled(s, PostRedeem(0, [p])) && OnPostRedeem(s, 0, [p]) == Rechecked(s, p, [])
    ensures OnCheckProof(h, Rechecked(s, p, []), 0, true) == Rechecked(s, p, [RowOf(h, p)])
  {
    assert OnPostRedeem(s, 0, [p]).jobs == map[0 := Checking(Redeem, [p], [])];
    assert [] + [RowOf(h, p)] == [RowOf(h, p)];
    assert OnCheckProof(h, Rechecked(s, p, []), 0, true).jobs == map[0 := Checking(Redeem, [p], [RowOf(h, p)])];
  }

  /** ... and redeemed. */
  lemma {:induction false} ShareIsSaved(h: CurveHash, s: Hubs, p: Proof)
    requires Verifies(h, p) && p.amount == SHARE && s.spent == map[]
             && s.jobs == map[0 := Checking(Redeem, [p], [RowOf(h, p)])]
    ensures var t := OnSaveSpent(s, 0, true);
            t.redeemed == s.redeemed + SHARE && t.settled == s.settled && t.signed == s.signed
  {
    assert [p][..0] == [];
    assert SumBy([p], ProofAmount) == SHARE;
    assert Insertable(s.spent, [RowOf(h, p)]);
  }

  lemma {:induction false} ThreeSteps(h: CurveHash, a: Hubs, x: Step, b: Hubs, y: Step, c: Hubs, z: Step)
    requires Enabled(a, x) && b == Apply(h, a, x) && Enabled(b, y) && c == Apply(h, b, y) && Enabled(c, z)
    requires !x.MarkPaid? && !y.MarkPaid? && !z.MarkPaid?
    ensures var path, script := [a, b, c, Apply(h, c, z)], [x, y, z]; IsRun(h, path, script) && AllTimely(path, script)
  {
  }

  lemma {:induction false} RedeemShare(h: CurveHash, s: Hubs, p: Proof) returns (path: seq<Hubs>, script: seq<Step>)
    requires Verifies(h, p) && p.c.sig in s.signed && p.amount == SHARE && s.spent == map[] && s.jobs == map[]
    ensures IsRun(h, path, script) && path[0] == s && AllTimely(path, script)
    ensures var last := path[|script|];
            last.redeemed == s.redeemed + SHARE && last.settled == s.settled && last.signed == s.signed
  {
    script := [PostRedeem(0, [p]), CheckProof(0, true), SaveSpent(0, true)];
    var checking, checked := Rechecked(s, p, []), Rechecked(s, p, [RowOf(h, p)]);
    ShareIsChecked(h, s, p);
    ShareIsSaved(h, checked, p);
    path := [s, checking, checked, OnSaveSpent(checked, 0, true)];
    ThreeSteps(h, s, script[0], checking, script[1], checked, script[2]);
  }

  ghost predicate OverRedeems(states: seq<Hubs>)
    requires states != []
  {
    var last := states[|states| - 1];
    last.redeemed > SumBy(last.settled, PaymentSats)
  }

  lemma {:induction false} SharesAreMinted(h: CurveHash, y: Point, most: nat)
    returns (states: seq<Hubs>, steps: seq<Step>)
    requires MAX_ITEMS * most >= U64
    ensures MintRun(h, most, states, steps)
    ensures states[|steps|] == SignedFor(PAID_SAT, "q", Shares(y, MAX_ITEMS))
  {
    var outs := Shares(y, MAX_ITEMS);
    SharesFitAnything(y);
    var first, paying := OneSatPaid(h);
    var second, minting := PaidQuoteIssues(h, PAID_SAT, "q", outs, 0);
    assert SignedUpTo(second[|minting|].signed, most);
    forall n | 0 <= n < |second| ensures SignedUpTo(second[n].signed, most) {
      LastTellsKeys(h, most, second, minting, n);
    }
    JoinConditions(h, most, first, paying, second, minting);
    states, steps := first + second[1..], paying + minting;
  }

  /** One settled sat is redeemed as 2^58. */
  lemma {:induction false} SharesAreRedeemed(h: CurveHash, secret: string, most: nat)
    returns (states: seq<Hubs>, steps: seq<Step>)
    requires h(secret).OnCurve? && MAX_ITEMS * most >= U64
    ensures MintRun(h, most, states, steps)
    ensures states[|steps|].settled == [Payment("q", 1)] && states[|steps|].redeemed == SHARE
  {
    var y := h(secret).y;
    states, steps := SharesAreMinted(h, y, most);
    var minted := states[|steps|];
    var p := Proof("keys", SHARE, secret, Holds(Sig("keys", SHARE, y)));
    assert minted.signed == Sigs(Shares(y, MAX_ITEMS)) && minted.signed[0] == p.c.sig;
    assert SignedUpTo(minted.signed, most);
    var third, redeeming := RedeemShare(h, minted, p);
    forall n | 0 <= n < |third| ensures SignedUpTo(third[n].signed, most) {
      LastTellsKeys(h, most, third, redeeming, n);
    }
    JoinConditions(h, most, states, steps, third, redeeming);
    states, steps := states + third[1..], steps + redeeming;
  }

  /**
   * The exact condition on the keys: a mint whose runs contain no late mark-paid
   * write can redeem more than it received if and only if 64 outputs of its
   * largest denomination reach 2^64.
   */
  lemma {:induction false} OverRedeemsExact(h: CurveHash, secret: string, most: nat)
    requires h(secret).OnCurve?
    ensures (exists states: seq<Hubs>, steps: seq<Step> :: MintRun(h, most, states, steps) && OverRedeems(states))
            <==> MAX_ITEMS * most >= U64
  {
    if MAX_ITEMS * most >= U64 {
      var states, steps := SharesAreRedeemed(h, secret, most);
      assert SumBy([Payment("q", 1)], PaymentSats) == 1 by { assert [Payment("q", 1)][..0] == []; }
    } else {
      forall states: seq<Hubs>, steps: seq<Step> | MintRun(h, most, states, steps) ensures !OverRedeems(states) {
        RedeemedNeverExceedsPaid(h, most, states, steps);
        var last := |states| - 1;
        assert states[last].redeemed <= SumBy(states[last].settled, PaymentSats);
      }
    }
  }
}
