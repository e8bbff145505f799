/**
 * Which quotes can still be signed for. A claim whose signing failed is handed
 * back by one more statement; when that statement fails, or the process dies
 * first, the quote stays ISSUED with nothing signed and nobody to release it.
 */
module MintRecovery {
  import opened Sums
  import opened Ecash
  import opened MintProtocol
  import opened MintSafety
  import opened MintRuns
  import opened MintCaps
  import opened MintDeviation

  predicate OnQuote(g: Grant, id: string) { g.source.FromQuote? && g.source.payment.quote == id }

  /** Outputs were signed for the quote, under a claim that stands. */
  ghost predicate Obtained(grants: seq<Grant>, id: string) {
    exists g :: 0 <= g < |grants| && Live(grants[g]) && OnQuote(grants[g], id) && grants[g].phase.Signed?
  }

  /** A run from s, all of its steps sound if so asked, to a state where the quote was signed for. */
  ghost predicate Issues(h: CurveHash, s: Hubs, id: string, sound: bool, states: seq<Hubs>, steps: seq<Step>) {
    && IsRun(h, states, steps) && states[0] == s && (sound ==> AllSound(states, steps))
    && Obtained(states[|steps|].grants, id)
  }

  ghost predicate CanIssue(h: CurveHash, s: Hubs, id: string, sound: bool) {
    exists states: seq<Hubs>, steps: seq<Step> :: Issues(h, s, id, sound, states, steps)
  }

  /** A job is about to sign for the quote, or to hand it back. */
  predicate WorksFor(grants: seq<Grant>, job: Job, id: string) {
    || (job.Signing? && job.grant < |grants| && OnQuote(grants[job.grant], id))
    || (job.Releasing? && job.quote == id)
  }

  predicate Owned(s: Hubs, id: string) { exists j :: j in s.jobs && WorksFor(s.grants, s.jobs[j], id) }

  /** A job read the quote as UNPAID and has not written PAID yet. */
  predicate PollsFor(job: Job, id: string) { (job.Polling? || job.Marking?) && job.quote == id }

  predicate Polled(s: Hubs, id: string) { exists j :: j in s.jobs && PollsFor(s.jobs[j], id) }

  /**
   * The quote is not claimed, or a job owns its claim; failing that, only a late
   * mark-paid write can bring it back, which over ISSUED is not sound.
   */
  predicate Recoverable(s: Hubs, id: string, sound: bool)
    requires id in s.quotes
  {
    var state := s.quotes[id].state;
    state == Unpaid || state == Paid || Owned(s, id) || (Polled(s, id) && (state == Expired || !sound))
  }

  // ---- Ways to get a quote signed for ----

  lemma {:induction false} JoinSound(h: CurveHash, states: seq<Hubs>, steps: seq<Step>, path: seq<Hubs>,
                                     script: seq<Step>)
    requires IsRun(h, states, steps) && IsRun(h, path, script) && path[0] == states[|steps|]
    requires AllSound(states, steps) && AllSound(path, script)
    ensures IsRun(h, states + path[1..], steps + script) && AllSound(states + path[1..], steps + script)
    ensures (states + path[1..])[|steps| + |script|] == path[|script|]
  {
    JoinRuns(h, states, steps, path, script);
    var more, longer := states + path[1..], steps + script;
    forall n | 0 <= n < |longer| ensures Sound(more[n], longer[n]) {
      if n < |steps| {
        assert Sound(states[n], steps[n]);
      } else {
        var k := n - |steps|;
        assert Sound(path[k], script[k]) && more[n] == path[k];
      }
    }
  }

  lemma {:induction false} StepFirst(h: CurveHash, s: Hubs, step: Step, id: string, sound: bool)
    requires Enabled(s, step) && (sound ==> Sound(s, step)) && CanIssue(h, Apply(h, s, step), id, sound)
    ensures CanIssue(h, s, id, sound)
  {
    var t := Apply(h, s, step);
    var states: seq<Hubs>, steps: seq<Step> :| Issues(h, t, id, sound, states, steps);
    OneStep(h, s, step);
    JoinRuns(h, [s, t], [step], states, steps);
    if sound { JoinSound(h, [s, t], [step], states, steps); }
    assert Issues(h, s, id, sound, [s, t] + states[1..], [step] + steps);
  }

  lemma {:induction false} AtOnce(h: CurveHash, s: Hubs, id: string, sound: bool)
    requires Obtained(s.grants, id)
    ensures CanIssue(h, s, id, sound)
  {
    assert Issues(h, s, id, sound, [s], []);
  }

  lemma {:induction false} Above(keys: set<nat>) returns (k: nat)
    ensures forall x :: x in keys ==> x < k
  {
    if keys == {} {
      k := 0;
    } else {
      var x :| x in keys;
      var rest := keys - {x};
      var m := Above(rest);
      k := if m <= x then x + 1 else m;
      forall y | y in keys ensures y < k {
        if y != x { assert y in rest; }
      }
    }
  }

  function OneSatOutput(): seq<Blinded> { [Blinded("keys", 1, true, "y")] }

  /** A paid quote: anyone may ask for one sat of it. */
  lemma {:induction false} PaidCanIssue(h: CurveHash, s: Hubs, id: string, sound: bool)
    requires id in s.quotes && s.quotes[id].state == Paid && s.quotes[id].amount > 0
    ensures CanIssue(h, s, id, sound)
  {
    var outs := OneSatOutput();
    assert SumBy(outs, BlindedAmount) == 1 by { assert outs[..0] == []; }
    var k := Above(s.jobs.Keys);
    var path, script := PaidQuoteIssues(h, s, id, outs, k);
    forall n | 0 <= n < |script| ensures Sound(path[n], script[n]) {
      if n == 3 { assert path[n].jobs[k].outs == outs; }
    }
    var last := path[|script|];
    assert Live(last.grants[|s.grants|]) && OnQuote(last.grants[|s.grants|], id);
    assert Issues(h, s, id, sound, path, script);
  }

  lemma {:induction false} ReleasingCanIssue(h: CurveHash, s: Hubs, id: string, sound: bool, j: nat)
    requires Inv(h, s) && j in s.jobs && s.jobs[j].Releasing? && s.jobs[j].quote == id
    ensures CanIssue(h, s, id, sound)
  {
    assert JobOk(h, s.quotes, s.settled, s.signed, s.grants, s.jobs[j]);
    ReleaseFrees(s.quotes, s.settled, s.grants, s.jobs[j].grant);
    var t := OnRelease(s, j, true);
    assert id in t.quotes && 0 < t.quotes[id].amount;
    PaidCanIssue(h, t, id, sound);
    StepFirst(h, s, Release(j, true), id, sound);
  }

  /** A signing may fail, and the quote goes back to whoever asks next. */
  lemma {:induction false} SigningCanIssue(h: CurveHash, s: Hubs, id: string, sound: bool, j: nat)
    requires Inv(h, s) && j in s.jobs && s.jobs[j].Signing? && s.jobs[j].grant < |s.grants|
    requires OnQuote(s.grants[s.jobs[j].grant], id)
    ensures CanIssue(h, s, id, sound)
  {
    SignExact(h, s, j, false);
    ReleasingCanIssue(h, OnSign(s, j, false), id, sound, j);
    StepFirst(h, s, Sign(j, false), id, sound);
  }

  lemma {:induction false} MarkingCanIssue(h: CurveHash, s: Hubs, id: string, sound: bool, j: nat)
    requires Inv(h, s) && id in s.quotes && j in s.jobs && s.jobs[j].Marking? && s.jobs[j].quote == id
    requires sound ==> s.quotes[id].state != Issued
    ensures CanIssue(h, s, id, sound)
  {
    var t := OnMarkPaid(s, j, true);
    assert id in t.quotes && t.quotes[id].state == Paid && t.quotes[id].amount == s.quotes[id].amount;
    PaidCanIssue(h, t, id, sound);
    StepFirst(h, s, MarkPaid(j, true), id, sound);
  }

  lemma {:induction false} PollingCanIssue(h: CurveHash, s: Hubs, id: string, sound: bool, j: nat)
    requires Inv(h, s) && id in s.quotes && j in s.jobs && s.jobs[j].Polling? && s.jobs[j].quote == id
    requires Payment(id, s.quotes[id].amount) in s.settled && (sound ==> s.quotes[id].state != Issued)
    ensures CanIssue(h, s, id, sound)
  {
    LookupKeepsInv(h, s, j, true);
    MarkingCanIssue(h, OnLookup(s, j, true), id, sound, j);
    StepFirst(h, s, Lookup(j, true), id, sound);
  }

  lemma {:induction false} SettledCanIssue(h: CurveHash, s: Hubs, id: string, sound: bool)
    requires Inv(h, s) && id in s.quotes && s.quotes[id].state == Unpaid
    requires Payment(id, s.quotes[id].amount) in s.settled
    ensures CanIssue(h, s, id, sound)
  {
    var k := Above(s.jobs.Keys);
    GetQuoteKeepsInv(h, s, k, id);
    PollingCanIssue(h, OnGetQuote(s, k, id), id, sound, k);
    StepFirst(h, s, GetQuote(k, id), id, sound);
  }

  lemma {:induction false} UnpaidCanIssue(h: CurveHash, s: Hubs, id: string, sound: bool)
    requires Inv(h, s) && id in s.quotes && s.quotes[id].state == Unpaid
    ensures CanIssue(h, s, id, sound)
  {
    var payment := Payment(id, s.quotes[id].amount);
    if payment in s.settled {
      SettledCanIssue(h, s, id, sound);
    } else {
      SettleKeepsInv(h, s, id);
      var t := s.(settled := s.settled + [payment]);
      assert t.settled[|s.settled|] == payment;
      SettledCanIssue(h, t, id, sound);
      StepFirst(h, s, Settle(id), id, sound);
    }
  }

  lemma {:induction false} RecoverableCanIssue(h: CurveHash, s: Hubs, id: string, sound: bool)
    requires Inv(h, s) && id in s.quotes && Recoverable(s, id, sound)
    ensures CanIssue(h, s, id, sound)
  {
    if s.quotes[id].state == Unpaid {
      UnpaidCanIssue(h, s, id, sound);
    } else if s.quotes[id].state == Paid {
      PaidCanIssue(h, s, id, sound);
    } else if j :| j in s.jobs && WorksFor(s.grants, s.jobs[j], id) {
      if s.jobs[j].Signing? { SigningCanIssue(h, s, id, sound, j); } else { ReleasingCanIssue(h, s, id, sound, j); }
    } else {
      var j :| j in s.jobs && PollsFor(s.jobs[j], id);
      if s.jobs[j].Polling? { PollingCanIssue(h, s, id, sound, j); } else { MarkingCanIssue(h, s, id, sound, j); }
    }
  }

  // ---- A quote nobody can bring back ----

  /** The job can never sign for the quote, nor make it PAID. */
  predicate Harmless(job: Job, grants: seq<Grant>, id: string, polled: bool) {
    match job
    case Polling(q, _) => polled || q != id
    case Marking(q, _) => polled || q != id
    case Signing(g, _) => g < |grants| && !OnQuote(grants[g], id)
    case Releasing(g, q) => g < |grants| && q != id
    case _ => true
  }

  ghost predicate Stuck(s: Hubs, id: string, sound: bool) {
    && id in s.quotes && (s.quotes[id].state == Issued || s.quotes[id].state == Expired)
    && !Obtained(s.grants, id)
    && forall j :: j in s.jobs ==> Harmless(s.jobs[j], s.grants, id, sound && s.quotes[id].state == Issued)
  }

  /** What a step leaves as it was: the quote, the sources of the grants, every job but one. */
  lemma {:induction false} StillStuck(s: Hubs, t: Hubs, id: string, sound: bool, j: nat)
    requires Stuck(s, id, sound) && id in t.quotes && t.quotes[id] == s.quotes[id]
    requires |s.grants| <= |t.grants|
    requires forall g :: 0 <= g < |s.grants| ==> t.grants[g].source == s.grants[g].source
    requires !Obtained(t.grants, id)
    requires forall k :: k in t.jobs && k != j ==> k in s.jobs && t.jobs[k] == s.jobs[k]
    requires j in t.jobs ==> Harmless(t.jobs[j], t.grants, id, sound && s.quotes[id].state == Issued)
    ensures Stuck(t, id, sound)
  {
  }

  lemma {:induction false} AskLeavesStuck(h: CurveHash, s: Hubs, id: string, sound: bool, step: Step)
    requires Stuck(s, id, sound) && Enabled(s, step)
    requires step.GetQuote? || step.PostMint? || step.PostRedeem? || step.PostSwap? || step.Crash?
    ensures Stuck(Apply(h, s, step), id, sound)
  {
    StillStuck(s, Apply(h, s, step), id, sound, step.job);
  }

  lemma {:induction false} PaymentLeavesStuck(h: CurveHash, s: Hubs, id: string, sound: bool, step: Step)
    requires Stuck(s, id, sound) && Enabled(s, step) && (sound ==> Sound(s, step))
    requires step.Lookup? || step.MarkPaid? || step.ReadQuote?
    ensures Stuck(Apply(h, s, step), id, sound)
  {
    assert Harmless(s.jobs[step.job], s.grants, id, sound && s.quotes[id].state == Issued);
    StillStuck(s, Apply(h, s, step), id, sound, step.job);
  }

  /** One more grant, with nothing signed under it. */
  lemma {:induction false} MoreObtainsNothing(grants: seq<Grant>, grant: Grant, id: string)
    requires !Obtained(grants, id) && !grant.phase.Signed?
    ensures !Obtained(grants + [grant], id)
  {
    var more := grants + [grant];
    forall g | 0 <= g < |more| && Live(more[g]) && OnQuote(more[g], id) ensures !more[g].phase.Signed? {
      if g < |grants| { assert more[g] == grants[g]; }
    }
  }

  /** A grant of another quote, or one handed back, obtains nothing either. */
  lemma {:induction false} OtherObtainsNothing(grants: seq<Grant>, g: nat, grant: Grant, id: string)
    requires !Obtained(grants, id) && g < |grants| && (!OnQuote(grant, id) || !grant.phase.Signed?)
    ensures !Obtained(grants[g := grant], id)
  {
    var more := grants[g := grant];
    forall i | 0 <= i < |more| && Live(more[i]) && OnQuote(more[i], id) ensures !more[i].phase.Signed? {
      if i != g { assert more[i] == grants[i]; }
    }
  }

  lemma {:induction false} ClaimLeavesStuck(h: CurveHash, s: Hubs, id: string, sound: bool, step: Step)
    requires Stuck(s, id, sound) && Enabled(s, step) && step.Claim?
    ensures Stuck(Apply(h, s, step), id, sound)
  {
    var t := Apply(h, s, step);
    var payment := s.jobs[step.job].payment;
    var grant := Grant(FromQuote(payment), [], Held);
    MoreObtainsNothing(s.grants, grant, id);
    if t.grants != s.grants {
      assert payment.quote != id && t.grants == s.grants + [grant];
      assert !OnQuote(t.grants[|s.grants|], id);
    }
    StillStuck(s, t, id, sound, step.job);
  }

  lemma {:induction false} SignLeavesStuck(h: CurveHash, s: Hubs, id: string, sound: bool, step: Step)
    requires Stuck(s, id, sound) && Enabled(s, step) && step.Sign?
    ensures Stuck(Apply(h, s, step), id, sound)
  {
    var Signing(g, outs) := s.jobs[step.job];
    assert Harmless(s.jobs[step.job], s.grants, id, sound && s.quotes[id].state == Issued);
    OtherObtainsNothing(s.grants, g, Grant(s.grants[g].source, outs, Signed), id);
    StillStuck(s, Apply(h, s, step), id, sound, step.job);
  }

  lemma {:induction false} ReleaseLeavesStuck(h: CurveHash, s: Hubs, id: string, sound: bool, step: Step)
    requires Stuck(s, id, sound) && Enabled(s, step) && step.Release?
    ensures Stuck(Apply(h, s, step), id, sound)
  {
    var Releasing(g, q) := s.jobs[step.job];
    assert Harmless(s.jobs[step.job], s.grants, id, sound && s.quotes[id].state == Issued);
    OtherObtainsNothing(s.grants, g, s.grants[g].(phase := Released), id);
    StillStuck(s, Apply(h, s, step), id, sound, step.job);
  }

  lemma {:induction false} SpendLeavesStuck(h: CurveHash, s: Hubs, id: string, sound: bool, step: Step)
    requires Stuck(s, id, sound) && Enabled(s, step) && (step.CheckProof? || step.SaveSpent?)
    ensures Stuck(Apply(h, s, step), id, sound)
  {
    var t := Apply(h, s, step);
    var grant := Grant(FromSwap(s.jobs[step.job].proofs), [], Held);
    MoreObtainsNothing(s.grants, grant, id);
    if t.grants != s.grants {
      assert t.grants == s.grants + [grant];
      assert !OnQuote(t.grants[|s.grants|], id);
    }
    StillStuck(s, t, id, sound, step.job);
  }

  lemma {:induction false} StepLeavesStuck(h: CurveHash, s: Hubs, id: string, sound: bool, step: Step)
    requires Stuck(s, id, sound) && Enabled(s, step) && (sound ==> Sound(s, step))
    ensures Stuck(Apply(h, s, step), id, sound)
  {
    match step
    case NewQuote(_, _) =>
    case Settle(_) =>
    case Lookup(_, _) => PaymentLeavesStuck(h, s, id, sound, step);
    case MarkPaid(_, _) => PaymentLeavesStuck(h, s, id, sound, step);
    case ReadQuote(_, _) => PaymentLeavesStuck(h, s, id, sound, step);
    case Claim(_, _) => ClaimLeavesStuck(h, s, id, sound, step);
    case Sign(_, _) => SignLeavesStuck(h, s, id, sound, step);
    case Release(_, _) => ReleaseLeavesStuck(h, s, id, sound, step);
    case CheckProof(_, _) => SpendLeavesStuck(h, s, id, sound, step);
    case SaveSpent(_, _) => SpendLeavesStuck(h, s, id, sound, step);
    case _ => AskLeavesStuck(h, s, id, sound, step);
  }

  lemma {:induction false} StuckForever(h: CurveHash, states: seq<Hubs>, steps: seq<Step>, id: string, sound: bool,
                                        n: nat)
    requires IsRun(h, states, steps) && Stuck(states[0], id, sound) && (sound ==> AllSound(states, steps))
    requires n < |states|
    ensures Stuck(states[n], id, sound)
  {
    if n > 0 {
      var last := n - 1;
      StuckForever(h, states, steps, id, sound, last);
      assert Enabled(states[last], steps[last]) && states[last + 1] == Apply(h, states[last], steps[last]);
      StepLeavesStuck(h, states[last], id, sound, steps[last]);
    }
  }

  lemma {:induction false} OtherwiseStuck(h: CurveHash, s: Hubs, id: string, sound: bool)
    requires Inv(h, s) && id in s.quotes && !Recoverable(s, id, sound) && !Obtained(s.grants, id)
    ensures Stuck(s, id, sound)
  {
    forall j | j in s.jobs ensures Harmless(s.jobs[j], s.grants, id, sound && s.quotes[id].state == Issued) {
      assert JobOk(h, s.quotes, s.settled, s.signed, s.grants, s.jobs[j]);
      assert !WorksFor(s.grants, s.jobs[j], id);
    }
  }

  /**
   * In any state the invariant describes, a quote has been or can still be signed
   * for if and only if it was, or it is UNPAID or PAID, or a job owns its claim;
   * or, over EXPIRED or in runs that are not sound, a mark-paid write on it is
   * under way.
   */
  lemma {:induction false} CanIssueExact(h: CurveHash, s: Hubs, id: string, sound: bool)
    requires Inv(h, s) && id in s.quotes
    ensures CanIssue(h, s, id, sound) <==> Obtained(s.grants, id) || Recoverable(s, id, sound)
  {
    if Obtained(s.grants, id) {
      AtOnce(h, s, id, sound);
    } else if Recoverable(s, id, sound) {
      RecoverableCanIssue(h, s, id, sound);
    } else {
      OtherwiseStuck(h, s, id, sound);
      forall states: seq<Hubs>, steps: seq<Step> ensures !Issues(h, s, id, sound, states, steps) {
        if Issues(h, s, id, sound, states, steps) { StuckForever(h, states, steps, id, sound, |steps|); }
      }
    }
  }

  // ---- When a claim is lost ----

  lemma {:induction false} WorksOnHeld(h: CurveHash, s: Hubs, id: string, j: nat)
    requires Inv(h, s) && j in s.jobs && WorksFor(s.grants, s.jobs[j], id)
    ensures var g := s.jobs[j].grant;
            && Owns(s.jobs[j], g) && g < |s.grants| && s.grants[g].phase == Held
            && Live(s.grants[g]) && OnQuote(s.grants[g], id)
            && id in s.quotes && s.quotes[id].state == Issued && Payment(id, s.quotes[id].amount) in s.settled
  {
    assert JobOk(h, s.quotes, s.settled, s.signed, s.grants, s.jobs[j]);
    assert Live(s.grants[s.jobs[j].grant]);
  }

  lemma {:induction false} OnlyOwner(h: CurveHash, s: Hubs, id: string, j: nat, g: nat)
    requires Inv(h, s) && j in s.jobs && Owns(s.jobs[j], g) && g < |s.grants| && s.grants[g].phase == Held
    requires Live(s.grants[g]) && OnQuote(s.grants[g], id)
    ensures !Obtained(s.grants, id) && !Owned(End(s, j), id)
  {
    forall f | 0 <= f < |s.grants| && Live(s.grants[f]) && OnQuote(s.grants[f], id) ensures f == g {
    }
    forall k | k in s.jobs && WorksFor(s.grants, s.jobs[k], id) ensures k == j {
      assert JobOk(h, s.quotes, s.settled, s.signed, s.grants, s.jobs[k]);
      var f := s.jobs[k].grant;
      assert Owns(s.jobs[k], f) && Live(s.grants[f]) && OnQuote(s.grants[f], id);
    }
  }

  /**
   * When the job that claimed a quote dies before signing, or its release
   * statement fails, the quote stays ISSUED and no sound continuation signs for it.
   */
  lemma {:induction false} LostClaimIsStuck(h: CurveHash, s: Hubs, id: string, j: nat)
    requires Inv(h, s) && j in s.jobs && WorksFor(s.grants, s.jobs[j], id)
    ensures var t := Apply(h, s, Crash(j));
            && (s.jobs[j].Releasing? ==> Apply(h, s, Release(j, false)) == t)
            && id in t.quotes && t.quotes[id].state == Issued && Payment(id, t.quotes[id].amount) in t.settled
            && !CanIssue(h, t, id, true)
  {
    WorksOnHeld(h, s, id, j);
    CrashKeepsInv(h, s, j);
    OnlyOwner(h, s, id, j, s.jobs[j].grant);
    CanIssueExact(h, End(s, j), id, true);
  }

  const CLAIMED := PAID_SAT.(quotes := map["q" := Quote(1, Issued)],
                             grants := [Grant(FromQuote(Payment("q", 1)), [], Held)])

  /** A one-sat quote is claimed ... */
  lemma {:induction false} SatIsClaimed(h: CurveHash, outs: seq<Blinded>)
    requires outs == OneSatOutput()
    ensures var path := [PAID_SAT,
                         PAID_SAT.(jobs := map[0 := Reading("q", outs)]),
                         PAID_SAT.(jobs := map[0 := Claiming(Payment("q", 1), outs)]),
                         CLAIMED.(jobs := map[0 := Signing(0, outs)])];
            var script := [PostMint(0, "q", outs), ReadQuote(0, true), Claim(0, true)];
            IsRun(h, path, script) && AllSound(path, script)
  {
    assert SumBy(outs, BlindedAmount) == 1 by { assert outs[..0] == []; }
  }

  /** ... the signing fails, and so does the statement that would hand it back. */
  lemma {:induction false} SatIsLost(h: CurveHash, outs: seq<Blinded>)
    ensures var path := [CLAIMED.(jobs := map[0 := Signing(0, outs)]), CLAIMED.(jobs := map[0 := Releasing(0, "q")]),
                         CLAIMED];
            var script := [Sign(0, false), Release(0, false)];
            IsRun(h, path, script) && AllSound(path, script)
  {
    assert map[0 := Releasing(0, "q")] - {0} == map[];
  }

  lemma {:induction false} LostForGood(h: CurveHash, sound: bool)
    requires Inv(h, CLAIMED)
    ensures !CanIssue(h, CLAIMED, "q", sound)
  {
    CanIssueExact(h, CLAIMED, "q", sound);
  }

  /**
   * The whole run: one sat is paid and claimed, neither signing nor release works,
   * and no continuation at all, sound or not, signs for it.
   */
  lemma {:induction false} PaidAndLost(h: CurveHash) returns (states: seq<Hubs>, steps: seq<Step>)
    ensures IsRun(h, states, steps) && states[0] == START && AllSound(states, steps)
    ensures states[|steps|].settled == [Payment("q", 1)] && states[|steps|].signed == []
    ensures forall sound :: !CanIssue(h, states[|steps|], "q", sound)
  {
    var outs := OneSatOutput();
    states, steps := OneSatPaid(h);
    SatIsClaimed(h, outs);
    var claiming := [PAID_SAT,
                     PAID_SAT.(jobs := map[0 := Reading("q", outs)]),
                     PAID_SAT.(jobs := map[0 := Claiming(Payment("q", 1), outs)]),
                     CLAIMED.(jobs := map[0 := Signing(0, outs)])];
    var asking := [PostMint(0, "q", outs), ReadQuote(0, true), Claim(0, true)];
    JoinSound(h, states, steps, claiming, asking);
    states, steps := states + claiming[1..], steps + asking;
    SatIsLost(h, outs);
    var losing := [CLAIMED.(jobs := map[0 := Signing(0, outs)]), CLAIMED.(jobs := map[0 := Releasing(0, "q")]),
                   CLAIMED];
    var failing := [Sign(0, false), Release(0, false)];
    JoinSound(h, states, steps, losing, failing);
    states, steps := states + losing[1..], steps + failing;
    StartHoldsInv(h);
    RunExact(h, states, steps);
    assert Inv(h, states[|steps|]);
    forall sound ensures !CanIssue(h, states[|steps|], "q", sound) { LostForGood(h, sound); }
  }
}
