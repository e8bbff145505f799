/**
 * What every interleaving of the mint's steps keeps, and the one step that can
 * break it: writing PAID over a quote that has been issued in the meantime.
 */
module MintSafety {
  import opened Sums
  import opened Ecash
  import opened MintProtocol

  /** A claim on a quote that has not been handed back. */
  predicate Live(g: Grant) { g.source.FromQuote? && !g.phase.Released? }

  /** Quotes past UNPAID were paid for, once, at their own amount. */
  ghost predicate QuotesPaidFor(quotes: QuoteTable, settled: seq<Payment>) {
    && (forall id :: id in quotes ==> 0 < quotes[id].amount < U64)
    && (forall id :: id in quotes && quotes[id].state != Unpaid ==> Payment(id, quotes[id].amount) in settled)
    && (forall p :: p in settled ==> p.quote in quotes && quotes[p.quote].amount == p.sats)
    && (forall k, l :: 0 <= k < l < |settled| ==> settled[k] != settled[l])
  }

  /** A quote is ISSUED exactly while one live grant holds it. */
  ghost predicate OneClaimPerQuote(quotes: QuoteTable, settled: seq<Payment>, grants: seq<Grant>) {
    && (forall g :: 0 <= g < |grants| && Live(grants[g]) ==>
          var payment := grants[g].source.payment;
          payment in settled && payment.quote in quotes && quotes[payment.quote].state == Issued)
    && (forall f, g :: 0 <= f < g < |grants| && Live(grants[f]) && Live(grants[g]) ==>
          grants[f].source.payment.quote != grants[g].source.payment.quote)
    && (forall id :: id in quotes && quotes[id].state == Issued ==> Claimed(grants, id))
  }

  ghost predicate Claimed(grants: seq<Grant>, id: string) {
    exists g :: 0 <= g < |grants| && Live(grants[g]) && grants[g].source.payment.quote == id
  }

  /** No grant signs more than paid for it. */
  ghost predicate GrantsFunded(grants: seq<Grant>) {
    forall g :: 0 <= g < |grants| ==>
      && (!grants[g].phase.Signed? ==> grants[g].outs == [])
      && OutsOf(grants[g]) <= Funds(grants[g])
  }

  /** The logs add up, and every accepted proof is backed by a signature of its own. */
  ghost predicate LogsAgree(signed: seq<Sig>, accepted: seq<Proof>, redeemed: nat, spent: SpentTable,
                            grants: seq<Grant>) {
    && SumBy(signed, SigAmount) == SumBy(grants, OutsOf)
    && SumBy(accepted, ProofAmount) >= redeemed + SumBy(grants, SwapFunds)
    && (forall i :: 0 <= i < |accepted| ==> Backed(signed, spent, accepted[i]))
    && (forall i, j :: 0 <= i < j < |accepted| ==> accepted[i].c != accepted[j].c)
  }

  predicate Backed(signed: seq<Sig>, spent: SpentTable, p: Proof) {
    p.c.Holds? && p.c.sig in signed && p.c.sig.amount == p.amount && p.c.sig.y in spent
  }

  /** The uint64 comparison the code made before the right to sign was granted. */
  predicate Affordable(source: Source, outs: seq<Blinded>) {
    match source
    case FromQuote(p) => Total64(outs, BlindedAmount) <= p.sats < U64
    case FromSwap(ins) => Total64(ins, ProofAmount) == Total64(outs, BlindedAmount)
  }

  /** Proofs checked so far, with the rows prepared for them. */
  ghost predicate Checked(h: CurveHash, signed: seq<Sig>, proofs: seq<Proof>, rows: seq<SpentRow>) {
    && Presentable(signed, proofs)
    && |rows| <= |proofs|
    && (forall i :: 0 <= i < |rows| ==> Verifies(h, proofs[i]) && rows[i] == RowOf(h, proofs[i]))
  }

  ghost predicate JobOk(h: CurveHash, quotes: QuoteTable, settled: seq<Payment>, signed: seq<Sig>, grants: seq<Grant>,
                        job: Job) {
    match job
    case Polling(_, _) => true
    case Reading(_, _) => true
    case Marking(id, _) => id in quotes && Payment(id, quotes[id].amount) in settled
    case Claiming(p, outs) =>
      p.quote in quotes && quotes[p.quote].amount == p.sats && Total64(outs, BlindedAmount) <= p.sats
    case Signing(g, outs) => g < |grants| && grants[g].phase == Held && Affordable(grants[g].source, outs)
    case Releasing(g, id) =>
      g < |grants| && grants[g].phase == Held && grants[g].source.FromQuote? && grants[g].source.payment.quote == id
    case Checking(use, proofs, rows) =>
      && Checked(h, signed, proofs, rows)
      && (use.SwapInto? ==> Total64(proofs, ProofAmount) == Total64(use.outs, BlindedAmount))
  }

  predicate Owns(job: Job, g: nat) {
    (job.Signing? && job.grant == g) || (job.Releasing? && job.grant == g)
  }

  ghost predicate JobsOk(h: CurveHash, s: Hubs) {
    && (forall j :: j in s.jobs ==> JobOk(h, s.quotes, s.settled, s.signed, s.grants, s.jobs[j]))
    && (forall j, k, g: nat :: j in s.jobs && k in s.jobs && Owns(s.jobs[j], g) && Owns(s.jobs[k], g) ==> j == k)
  }

  ghost predicate Inv(h: CurveHash, s: Hubs) {
    && QuotesPaidFor(s.quotes, s.settled)
    && OneClaimPerQuote(s.quotes, s.settled, s.grants)
    && GrantsFunded(s.grants)
    && LogsAgree(s.signed, s.accepted, s.redeemed, s.spent, s.grants)
    && JobsOk(h, s)
  }

  /** How often the uint64 total of what funds a grant wraps. */
  function SourceWraps(source: Source): nat {
    match source
    case FromQuote(p) => p.sats / U64
    case FromSwap(ins) => SumBy(ins, ProofAmount) / U64
  }

  /**
   * The two conditions the code does not check itself: PAID must not be written
   * over ISSUED, and the total of the outputs must not wrap around uint64 more
   * often than the total of what pays for them.
   */
  ghost predicate Sound(s: Hubs, step: Step)
    requires Enabled(s, step)
  {
    match step
    case MarkPaid(_, _) => Timely(s, step)
    case Sign(_, _) => Unwrapped(s, step)
    case _ => true
  }

  ghost predicate Timely(s: Hubs, step: Step)
    requires Enabled(s, step)
  {
    step.MarkPaid? && step.ok && s.jobs[step.job].quote in s.quotes ==> s.quotes[s.jobs[step.job].quote].state != Issued
  }

  ghost predicate Unwrapped(s: Hubs, step: Step)
    requires Enabled(s, step)
  {
    step.Sign? && step.ok ==>
      SumBy(s.jobs[step.job].outs, BlindedAmount) / U64 <= SourceWraps(s.grants[s.jobs[step.job].grant].source)
  }

  // ---- Jobs survive what other jobs do ----

  /** What a step may do to the shared state without disturbing another job. */
  ghost predicate Grows(s: Hubs, t: Hubs) {
    && (forall id :: id in s.quotes ==> id in t.quotes && t.quotes[id].amount == s.quotes[id].amount)
    && (forall p :: p in s.settled ==> p in t.settled)
    && (forall sig :: sig in s.signed ==> sig in t.signed)
    && |s.grants| <= |t.grants|
  }

  lemma {:induction false} JobKept(h: CurveHash, s: Hubs, t: Hubs, job: Job)
    requires JobOk(h, s.quotes, s.settled, s.signed, s.grants, job) && Grows(s, t)
    requires forall g: nat :: g < |s.grants| && Owns(job, g) ==> t.grants[g] == s.grants[g]
    ensures JobOk(h, t.quotes, t.settled, t.signed, t.grants, job)
  {
  }

  /**
   * A step by job j: the other jobs keep their facts as long as the only grant
   * that changed was j's, and j takes over no grant but its own or a new one.
   */
  lemma {:induction false} JobsKept(h: CurveHash, s: Hubs, t: Hubs, j: nat)
    requires JobsOk(h, s) && Grows(s, t)
    requires forall k :: k in t.jobs && k != j ==> k in s.jobs && t.jobs[k] == s.jobs[k]
    requires j in t.jobs ==> JobOk(h, t.quotes, t.settled, t.signed, t.grants, t.jobs[j])
    requires forall g: nat :: g < |s.grants| && t.grants[g] != s.grants[g] ==> j in s.jobs && Owns(s.jobs[j], g)
    requires j in t.jobs ==>
               forall g: nat :: Owns(t.jobs[j], g) ==> g >= |s.grants| || (j in s.jobs && Owns(s.jobs[j], g))
    ensures JobsOk(h, t)
  {
    forall k | k in t.jobs
      ensures JobOk(h, t.quotes, t.settled, t.signed, t.grants, t.jobs[k])
    {
      if k != j { JobKept(h, s, t, s.jobs[k]); }
    }
    forall a, b, g: nat | a in t.jobs && b in t.jobs && Owns(t.jobs[a], g) && Owns(t.jobs[b], g)
      ensures a == b
    {
      if a != j { assert JobOk(h, s.quotes, s.settled, s.signed, s.grants, s.jobs[a]); }
      if b != j { assert JobOk(h, s.quotes, s.settled, s.signed, s.grants, s.jobs[b]); }
    }
  }

  /** A step that moves one job and touches nothing else. */
  lemma {:induction false} MoveKeepsInv(h: CurveHash, s: Hubs, t: Hubs, j: nat)
    requires Inv(h, s) && t == s.(jobs := t.jobs)
    requires forall k :: k in t.jobs && k != j ==> k in s.jobs && t.jobs[k] == s.jobs[k]
    requires j in t.jobs ==> JobOk(h, s.quotes, s.settled, s.signed, s.grants, t.jobs[j])
    requires j in t.jobs ==> forall g: nat :: Owns(t.jobs[j], g) ==> j in s.jobs && Owns(s.jobs[j], g)
    ensures Inv(h, t)
  {
  }

  lemma {:induction false} GetQuoteKeepsInv(h: CurveHash, s: Hubs, j: nat, id: string)
    requires Inv(h, s) && j !in s.jobs
    ensures Inv(h, OnGetQuote(s, j, id))
  {
    MoveKeepsInv(h, s, OnGetQuote(s, j, id), j);
  }

  lemma {:induction false} PostMintKeepsInv(h: CurveHash, s: Hubs, j: nat, id: string, outs: seq<Blinded>)
    requires Inv(h, s) && j !in s.jobs
    ensures Inv(h, OnPostMint(s, j, id, outs))
  {
    MoveKeepsInv(h, s, OnPostMint(s, j, id, outs), j);
  }

  lemma {:induction false} PostRedeemKeepsInv(h: CurveHash, s: Hubs, j: nat, proofs: seq<Proof>)
    requires Inv(h, s) && j !in s.jobs && Presentable(s.signed, proofs)
    ensures Inv(h, OnPostRedeem(s, j, proofs))
  {
  }

  lemma {:induction false} PostSwapKeepsInv(h: CurveHash, s: Hubs, j: nat, proofs: seq<Proof>, outs: seq<Blinded>)
    requires Inv(h, s) && j !in s.jobs && Presentable(s.signed, proofs)
    ensures Inv(h, OnPostSwap(s, j, proofs, outs))
  {
  }

  lemma {:induction false} LookupKeepsInv(h: CurveHash, s: Hubs, j: nat, ok: bool)
    requires Inv(h, s) && j in s.jobs && s.jobs[j].Polling?
    ensures Inv(h, OnLookup(s, j, ok))
  {
    MoveKeepsInv(h, s, OnLookup(s, j, ok), j);
  }

  lemma {:induction false} ReadQuoteKeepsInv(h: CurveHash, s: Hubs, j: nat, ok: bool)
    requires Inv(h, s) && j in s.jobs && s.jobs[j].Reading?
    ensures Inv(h, OnReadQuote(s, j, ok))
  {
  }

  lemma {:induction false} CheckProofKeepsInv(h: CurveHash, s: Hubs, j: nat, ok: bool)
    requires Inv(h, s) && j in s.jobs && s.jobs[j].Checking? && |s.jobs[j].rows| < |s.jobs[j].proofs|
    ensures Inv(h, OnCheckProof(h, s, j, ok))
  {
  }

  lemma {:induction false} CrashKeepsInv(h: CurveHash, s: Hubs, j: nat)
    requires Inv(h, s)
    ensures Inv(h, End(s, j))
  {
  }

  // ---- Steps on quotes ----

  lemma {:induction false} NewQuoteKeepsInv(h: CurveHash, s: Hubs, id: string, sats: nat)
    requires Inv(h, s) && id !in s.quotes && 0 < sats <= MAX_QUOTE
    ensures Inv(h, s.(quotes := s.quotes[id := Quote(sats, Unpaid)]))
  {
  }

  lemma {:induction false} SettleKeepsInv(h: CurveHash, s: Hubs, id: string)
    requires Inv(h, s) && id in s.quotes && Payment(id, s.quotes[id].amount) !in s.settled
    ensures Inv(h, s.(settled := s.settled + [Payment(id, s.quotes[id].amount)]))
  {
  }

  lemma {:induction false} OverwriteKeepsClaims(quotes: QuoteTable, settled: seq<Payment>, grants: seq<Grant>,
                                                id: string)
    requires QuotesPaidFor(quotes, settled) && OneClaimPerQuote(quotes, settled, grants)
    requires id in quotes && quotes[id].state != Issued && Payment(id, quotes[id].amount) in settled
    ensures QuotesPaidFor(Overwrite(quotes, id, Paid), settled)
    ensures OneClaimPerQuote(Overwrite(quotes, id, Paid), settled, grants)
  {
  }

  /** Where a job goes after the payment check holds no grant and asks for nothing. */
  lemma {:induction false} ContinueKeepsJobs(h: CurveHash, s: Hubs, t: Hubs, j: nat, id: string, next: Then)
    requires JobsOk(h, s) && t == s.(quotes := t.quotes) && Grows(s, t)
    ensures JobsOk(h, Continue(t, j, id, next))
  {
    JobsKept(h, s, Continue(t, j, id, next), j);
  }

  lemma {:induction false} WriteKeepsInv(h: CurveHash, s: Hubs, j: nat)
    requires Inv(h, s) && j in s.jobs && s.jobs[j].Marking?
    requires s.jobs[j].quote in s.quotes ==> s.quotes[s.jobs[j].quote].state != Issued
    ensures Inv(h, OnMarkPaid(s, j, true))
  {
    var Marking(id, next) := s.jobs[j];
    assert JobOk(h, s.quotes, s.settled, s.signed, s.grants, s.jobs[j]);
    OverwriteKeepsClaims(s.quotes, s.settled, s.grants, id);
    ContinueKeepsJobs(h, s, s.(quotes := Overwrite(s.quotes, id, Paid)), j, id, next);
  }

  /** Over a quote that is not ISSUED the mark-paid write is harmless. */
  lemma {:induction false} FreshMarkPaidKeepsInv(h: CurveHash, s: Hubs, j: nat, ok: bool)
    requires Inv(h, s) && j in s.jobs && s.jobs[j].Marking?
    requires ok && s.jobs[j].quote in s.quotes ==> s.quotes[s.jobs[j].quote].state != Issued
    ensures Inv(h, OnMarkPaid(s, j, ok))
  {
    if ok { WriteKeepsInv(h, s, j); } else { MoveKeepsInv(h, s, OnMarkPaid(s, j, false), j); }
  }

  /** Over ISSUED it leaves a PAID quote with a live grant. */
  lemma {:induction false} StaleMarkPaidBreaksInv(h: CurveHash, s: Hubs, j: nat)
    requires Inv(h, s) && j in s.jobs && s.jobs[j].Marking?
    requires s.jobs[j].quote in s.quotes && s.quotes[s.jobs[j].quote].state == Issued
    ensures var t := OnMarkPaid(s, j, true);
            !OneClaimPerQuote(t.quotes, t.settled, t.grants) && !Inv(h, t)
  {
  }

  /** Appending a grant that has signed nothing moves only what it brings in. */
  lemma {:induction false} AppendGrant(grants: seq<Grant>, g: Grant)
    requires g.outs == []
    ensures SumBy(grants + [g], OutsOf) == SumBy(grants, OutsOf)
    ensures SumBy(grants + [g], SwapFunds) == SumBy(grants, SwapFunds) + SwapFunds(g)
    ensures GrantsFunded(grants) ==> GrantsFunded(grants + [g])
  {
  }

  /** Winning the claim makes the new grant the only live one of its quote. */
  lemma {:induction false} ClaimIsSingle(quotes: QuoteTable, settled: seq<Payment>, grants: seq<Grant>,
                                         payment: Payment)
    requires OneClaimPerQuote(quotes, settled, grants)
    requires payment in settled && payment.quote in quotes && quotes[payment.quote].state == Paid
    ensures OneClaimPerQuote(Transition(quotes, payment.quote, Paid, Issued).0, settled,
                             grants + [Grant(FromQuote(payment), [], Held)])
  {
    var after := Transition(quotes, payment.quote, Paid, Issued).0;
    var more := grants + [Grant(FromQuote(payment), [], Held)];
    forall id | id in after && after[id].state == Issued ensures Claimed(more, id) {
      if id == payment.quote {
        assert Live(more[|grants|]);
      } else {
        assert Claimed(grants, id);
        var g :| 0 <= g < |grants| && Live(grants[g]) && grants[g].source.payment.quote == id;
        assert Live(more[g]);
      }
    }
  }

  /** A job that takes over a grant of its own making disturbs no other. */
  lemma {:induction false} NewGrantKeepsJobs(h: CurveHash, s: Hubs, t: Hubs, j: nat, grant: Grant, outs: seq<Blinded>)
    requires JobsOk(h, s) && t == s.(quotes := t.quotes, grants := s.grants + [grant]) && Grows(s, t)
    requires grant.phase == Held && Affordable(grant.source, outs)
    ensures JobsOk(h, Goto(t, j, Signing(|s.grants|, outs)))
  {
    JobsKept(h, s, Goto(t, j, Signing(|s.grants|, outs)), j);
  }

  lemma {:induction false} WonClaimKeepsInv(h: CurveHash, s: Hubs, j: nat)
    requires Inv(h, s) && j in s.jobs && s.jobs[j].Claiming?
    requires Transition(s.quotes, s.jobs[j].payment.quote, Paid, Issued).1
    ensures Inv(h, OnClaim(s, j, true))
  {
    var Claiming(payment, outs) := s.jobs[j];
    var grant := Grant(FromQuote(payment), [], Held);
    assert JobOk(h, s.quotes, s.settled, s.signed, s.grants, s.jobs[j]);
    ClaimIsSingle(s.quotes, s.settled, s.grants, payment);
    AppendGrant(s.grants, grant);
    var quotes := Transition(s.quotes, payment.quote, Paid, Issued).0;
    NewGrantKeepsJobs(h, s, s.(quotes := quotes, grants := s.grants + [grant]), j, grant, outs);
  }

  lemma {:induction false} ClaimKeepsInv(h: CurveHash, s: Hubs, j: nat, ok: bool)
    requires Inv(h, s) && j in s.jobs && s.jobs[j].Claiming?
    ensures Inv(h, OnClaim(s, j, ok))
  {
    if ok && Transition(s.quotes, s.jobs[j].payment.quote, Paid, Issued).1 {
      WonClaimKeepsInv(h, s, j);
    } else {
      CrashKeepsInv(h, s, j);
    }
  }

  // ---- Signing and releasing ----

  /** uint64 totals compare like the true ones once they wrap equally often. */
  lemma {:induction false} AffordableExact(source: Source, outs: seq<Blinded>)
    requires Affordable(source, outs)
    ensures OutsOf(Grant(source, outs, Signed)) <= Funds(Grant(source, outs, Signed))
            <==> SumBy(outs, BlindedAmount) / U64 <= SourceWraps(source)
  {
  }

  lemma {:induction false} SigsWorth(outs: seq<Blinded>)
    ensures SumBy(Sigs(outs), SigAmount) == SumBy(outs, BlindedAmount)
  {
    if outs != [] {
      var n := |outs| - 1;
      assert Sigs(outs)[..n] == Sigs(outs[..n]);
      SigsWorth(outs[..n]);
    }
  }

  /** Filling in a held grant keeps every claim and adds its outputs to the books. */
  lemma {:induction false} FillGrant(quotes: QuoteTable, settled: seq<Payment>, grants: seq<Grant>, g: nat,
                                     outs: seq<Blinded>)
    requires OneClaimPerQuote(quotes, settled, grants) && GrantsFunded(grants)
    requires g < |grants| && grants[g].phase == Held
    ensures var filled := grants[g := Grant(grants[g].source, outs, Signed)];
            && OneClaimPerQuote(quotes, settled, filled)
            && SumBy(filled, OutsOf) == SumBy(grants, OutsOf) + SumBy(outs, BlindedAmount)
            && SumBy(filled, SwapFunds) == SumBy(grants, SwapFunds)
  {
    var grant := Grant(grants[g].source, outs, Signed);
    var filled := grants[g := grant];
    SumByUpdate(grants, g, grant, OutsOf);
    SumByUpdate(grants, g, grant, SwapFunds);
    forall id | id in quotes && quotes[id].state == Issued ensures Claimed(filled, id) {
      assert Claimed(grants, id);
      var k :| 0 <= k < |grants| && Live(grants[k]) && grants[k].source.payment.quote == id;
      assert Live(filled[k]) && filled[k].source == grants[k].source;
    }
  }

  lemma {:induction false} SignedKeepsInv(h: CurveHash, s: Hubs, j: nat)
    requires Inv(h, s) && j in s.jobs && s.jobs[j].Signing? && s.jobs[j].grant < |s.grants|
    requires var grant := Grant(s.grants[s.jobs[j].grant].source, s.jobs[j].outs, Signed); OutsOf(grant) <= Funds(grant)
    ensures Inv(h, OnSign(s, j, true))
  {
    var t := OnSign(s, j, true);
    var Signing(g, outs) := s.jobs[j];
    assert JobOk(h, s.quotes, s.settled, s.signed, s.grants, s.jobs[j]);
    FillGrant(s.quotes, s.settled, s.grants, g, outs);
    SigsWorth(outs);
    SumByConcat(s.signed, Sigs(outs), SigAmount);
    forall i | 0 <= i < |t.accepted| ensures Backed(t.signed, t.spent, t.accepted[i]) {
      assert Backed(s.signed, s.spent, s.accepted[i]);
    }
    JobsKept(h, s, t, j);
  }

  lemma {:induction false} SignExact(h: CurveHash, s: Hubs, j: nat, ok: bool)
    requires Inv(h, s) && j in s.jobs && s.jobs[j].Signing? && s.jobs[j].grant < |s.grants|
    ensures Inv(h, OnSign(s, j, ok)) <==>
            (ok ==> SumBy(s.jobs[j].outs, BlindedAmount) / U64 <= SourceWraps(s.grants[s.jobs[j].grant].source))
  {
    var t := OnSign(s, j, ok);
    assert JobOk(h, s.quotes, s.settled, s.signed, s.grants, s.jobs[j]);
    if ok {
      var Signing(g, outs) := s.jobs[j];
      AffordableExact(s.grants[g].source, outs);
      assert t.grants[g] == Grant(s.grants[g].source, outs, Signed);
      if OutsOf(t.grants[g]) <= Funds(t.grants[g]) { SignedKeepsInv(h, s, j); }
    } else {
      MoveKeepsInv(h, s, t, j);
    }
  }

  /** A released quote is PAID again and no live grant holds it. */
  lemma {:induction false} ReleaseFrees(quotes: QuoteTable, settled: seq<Payment>, grants: seq<Grant>, g: nat)
    requires QuotesPaidFor(quotes, settled) && OneClaimPerQuote(quotes, settled, grants) && GrantsFunded(grants)
    requires g < |grants| && grants[g].phase == Held && grants[g].source.FromQuote?
    ensures var id := grants[g].source.payment.quote;
            var freed := grants[g := grants[g].(phase := Released)];
            var (after, won) := Transition(quotes, id, Issued, Paid);
            && won && after[id].state == Paid && !Claimed(freed, id)
            && QuotesPaidFor(after, settled) && OneClaimPerQuote(after, settled, freed) && GrantsFunded(freed)
            && SumBy(freed, OutsOf) == SumBy(grants, OutsOf)
            && SumBy(freed, SwapFunds) == SumBy(grants, SwapFunds)
  {
    var id := grants[g].source.payment.quote;
    var grant := grants[g].(phase := Released);
    var freed := grants[g := grant];
    SumByUpdate(grants, g, grant, OutsOf);
    SumByUpdate(grants, g, grant, SwapFunds);
    assert Live(grants[g]);
    var after := Transition(quotes, id, Issued, Paid).0;
    forall k | k in after && after[k].state == Issued ensures Claimed(freed, k) {
      assert Claimed(grants, k);
      var i :| 0 <= i < |grants| && Live(grants[i]) && grants[i].source.payment.quote == k;
      assert i != g && Live(freed[i]);
    }
  }

  lemma {:induction false} ReleaseKeepsInv(h: CurveHash, s: Hubs, j: nat, ok: bool)
    requires Inv(h, s) && j in s.jobs && s.jobs[j].Releasing? && s.jobs[j].grant < |s.grants|
    ensures Inv(h, OnRelease(s, j, ok))
  {
    var t := OnRelease(s, j, ok);
    assert JobOk(h, s.quotes, s.settled, s.signed, s.grants, s.jobs[j]);
    ReleaseFrees(s.quotes, s.settled, s.grants, s.jobs[j].grant);
    JobsKept(h, s, t, j);
  }

  // ---- Recording spends ----

  /** A batch the database accepts adds proofs backed by signatures ... */
  lemma {:induction false} BatchIsBacked(h: CurveHash, signed: seq<Sig>, spent: SpentTable, accepted: seq<Proof>,
                                         proofs: seq<Proof>, rows: seq<SpentRow>)
    requires forall i :: 0 <= i < |accepted| ==> Backed(signed, spent, accepted[i])
    requires Checked(h, signed, proofs, rows) && |rows| == |proofs| && Insertable(spent, rows)
    ensures forall i :: 0 <= i < |accepted + proofs| ==> Backed(signed, InsertAll(spent, rows), (accepted + proofs)[i])
  {
    var all := accepted + proofs;
    InsertAllRows(spent, rows);
    forall i | 0 <= i < |all| ensures Backed(signed, InsertAll(spent, rows), all[i]) {
      if i < |accepted| { assert Backed(signed, spent, accepted[i]); }
      else { assert rows[i - |accepted|] == RowOf(h, all[i]); }
    }
  }

  /** ... of their own. */
  lemma {:induction false} BatchIsNew(h: CurveHash, signed: seq<Sig>, spent: SpentTable, accepted: seq<Proof>,
                                      proofs: seq<Proof>, rows: seq<SpentRow>)
    requires forall i :: 0 <= i < |accepted| ==> Backed(signed, spent, accepted[i])
    requires forall i, k :: 0 <= i < k < |accepted| ==> accepted[i].c != accepted[k].c
    requires Checked(h, signed, proofs, rows) && |rows| == |proofs| && Insertable(spent, rows)
    ensures var all := accepted + proofs; forall i, k :: 0 <= i < k < |all| ==> all[i].c != all[k].c
  {
  }

  lemma {:induction false} BatchKeepsLogs(h: CurveHash, s: Hubs, proofs: seq<Proof>, rows: seq<SpentRow>)
    requires LogsAgree(s.signed, s.accepted, s.redeemed, s.spent, s.grants)
    requires Checked(h, s.signed, proofs, rows) && |rows| == |proofs| && Insertable(s.spent, rows)
    ensures var spent, accepted := InsertAll(s.spent, rows), s.accepted + proofs;
            && (forall i :: 0 <= i < |accepted| ==> Backed(s.signed, spent, accepted[i]))
            && (forall i, k :: 0 <= i < k < |accepted| ==> accepted[i].c != accepted[k].c)
            && SumBy(accepted, ProofAmount) == SumBy(s.accepted, ProofAmount) + SumBy(proofs, ProofAmount)
  {
    BatchIsBacked(h, s.signed, s.spent, s.accepted, proofs, rows);
    BatchIsNew(h, s.signed, s.spent, s.accepted, proofs, rows);
    SumByConcat(s.accepted, proofs, ProofAmount);
  }

  lemma {:induction false} SwapGrantKeepsClaims(quotes: QuoteTable, settled: seq<Payment>, grants: seq<Grant>,
                                                proofs: seq<Proof>)
    requires OneClaimPerQuote(quotes, settled, grants) && GrantsFunded(grants)
    ensures var more := grants + [Grant(FromSwap(proofs), [], Held)];
            && OneClaimPerQuote(quotes, settled, more) && GrantsFunded(more)
            && SumBy(more, OutsOf) == SumBy(grants, OutsOf)
            && SumBy(more, SwapFunds) == SumBy(grants, SwapFunds) + SumBy(proofs, ProofAmount)
  {
    var more := grants + [Grant(FromSwap(proofs), [], Held)];
    AppendGrant(grants, Grant(FromSwap(proofs), [], Held));
    forall id | id in quotes && quotes[id].state == Issued ensures Claimed(more, id) {
      assert Claimed(grants, id);
      var k :| 0 <= k < |grants| && Live(grants[k]) && grants[k].source.payment.quote == id;
      assert more[k] == grants[k];
    }
  }

  lemma {:induction false} RedeemKeepsInv(h: CurveHash, s: Hubs, j: nat)
    requires Inv(h, s) && j in s.jobs && s.jobs[j].Checking? && |s.jobs[j].rows| == |s.jobs[j].proofs|
    requires s.jobs[j].use == Redeem && Insertable(s.spent, s.jobs[j].rows)
    ensures Inv(h, OnSaveSpent(s, j, true))
  {
    var t := OnSaveSpent(s, j, true);
    var proofs := s.jobs[j].proofs;
    assert JobOk(h, s.quotes, s.settled, s.signed, s.grants, s.jobs[j]);
    BatchKeepsLogs(h, s, proofs, s.jobs[j].rows);
    assert Total64(proofs, ProofAmount) <= SumBy(proofs, ProofAmount);
    JobsKept(h, s, t, j);
  }

  lemma {:induction false} SwapKeepsInv(h: CurveHash, s: Hubs, j: nat)
    requires Inv(h, s) && j in s.jobs && s.jobs[j].Checking? && |s.jobs[j].rows| == |s.jobs[j].proofs|
    requires s.jobs[j].use.SwapInto? && Insertable(s.spent, s.jobs[j].rows)
    ensures Inv(h, OnSaveSpent(s, j, true))
  {
    var t := OnSaveSpent(s, j, true);
    var proofs := s.jobs[j].proofs;
    assert JobOk(h, s.quotes, s.settled, s.signed, s.grants, s.jobs[j]);
    BatchKeepsLogs(h, s, proofs, s.jobs[j].rows);
    SwapGrantKeepsClaims(s.quotes, s.settled, s.grants, proofs);
    JobsKept(h, s, t, j);
  }

  lemma {:induction false} SaveSpentKeepsInv(h: CurveHash, s: Hubs, j: nat, ok: bool)
    requires Inv(h, s) && j in s.jobs && s.jobs[j].Checking? && |s.jobs[j].rows| == |s.jobs[j].proofs|
    ensures Inv(h, OnSaveSpent(s, j, ok))
  {
    if !ok || !Insertable(s.spent, s.jobs[j].rows) { CrashKeepsInv(h, s, j); }
    else if s.jobs[j].use.Redeem? { RedeemKeepsInv(h, s, j); }
    else { SwapKeepsInv(h, s, j); }
  }

  // ---- Every step, every run ----

  /** A step keeps the invariant exactly when it meets the two conditions of Sound. */
  lemma {:induction false} StepExact(h: CurveHash, s: Hubs, step: Step)
    requires Inv(h, s) && Enabled(s, step)
    ensures Inv(h, Apply(h, s, step)) <==> Sound(s, step)
  {
    match step
    case NewQuote(id, sats) => NewQuoteKeepsInv(h, s, id, sats);
    case Settle(id) => SettleKeepsInv(h, s, id);
    case GetQuote(j, id) => GetQuoteKeepsInv(h, s, j, id);
    case PostMint(j, id, outs) => PostMintKeepsInv(h, s, j, id, outs);
    case Lookup(j, ok) => LookupKeepsInv(h, s, j, ok);
    case MarkPaid(j, ok) =>
      if Sound(s, step) { FreshMarkPaidKeepsInv(h, s, j, ok); } else { StaleMarkPaidBreaksInv(h, s, j); }
    case ReadQuote(j, ok) => ReadQuoteKeepsInv(h, s, j, ok);
    case Claim(j, ok) => ClaimKeepsInv(h, s, j, ok);
    case Sign(j, ok) => SignExact(h, s, j, ok);
    case Release(j, ok) => ReleaseKeepsInv(h, s, j, ok);
    case PostRedeem(j, proofs) => PostRedeemKeepsInv(h, s, j, proofs);
    case PostSwap(j, proofs, outs) => PostSwapKeepsInv(h, s, j, proofs, outs);
    case CheckProof(j, ok) => CheckProofKeepsInv(h, s, j, ok);
    case SaveSpent(j, ok) => SaveSpentKeepsInv(h, s, j, ok);
    case Crash(j) => CrashKeepsInv(h, s, j);
  }

  /** In any state the invariant describes, sats redeemed are covered by sats received. */
  lemma {:induction false} InvBoundsRedeemed(h: CurveHash, s: Hubs)
    requires Inv(h, s)
    ensures s.redeemed <= SumBy(s.settled, PaymentSats)
  {
    var sigOf := (p: Proof) => if p.c.Holds? then p.c.sig else Sig("", 0, "");
    forall i | 0 <= i < |s.accepted|
      ensures sigOf(s.accepted[i]) in s.signed && ProofAmount(s.accepted[i]) <= SigAmount(sigOf(s.accepted[i]))
    {
      assert Backed(s.signed, s.spent, s.accepted[i]);
    }
    forall i, k | 0 <= i < k < |s.accepted| ensures sigOf(s.accepted[i]) != sigOf(s.accepted[k]) {
      assert Backed(s.signed, s.spent, s.accepted[i]) && Backed(s.signed, s.spent, s.accepted[k]);
    }
    InjectionBelow(s.accepted, ProofAmount, sigOf, s.signed, SigAmount);
    SumByMono(s.grants, OutsOf, Funds);
    SumByAdd(s.grants, QuoteFunds, SwapFunds, Funds);
    var paymentOf := (g: Grant) => if g.source.FromQuote? then g.source.payment else Payment("", 0);
    InjectionBelow(s.grants, QuoteFunds, paymentOf, s.settled, PaymentSats);
  }
}
