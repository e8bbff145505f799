/**
 * Several hub processes and one database, as a step system.
 *
 * Every request is a job that advances one database statement or one signing at
 * a time; any other job, in the same process or another, may run in between,
 * and a job may die anywhere. A step label carries what the environment decides
 * (an invoice is settled, a statement fails, a signing fails).
 */
module MintProtocol {
  import opened Sums
  import opened Ecash

  /** A settled Lightning invoice: the quote it pays and the sats received. */
  datatype Payment = Payment(quote: string, sats: nat)

  /** What pays for a batch of signatures. */
  datatype Source = FromQuote(payment: Payment) | FromSwap(inputs: seq<Proof>)

  /** Held: claimed or burned, nothing signed. Released: handed back to the quote. */
  datatype Phase = Held | Signed | Released

  /** One right to sign, and what was signed under it. */
  datatype Grant = Grant(source: Source, outs: seq<Blinded>, phase: Phase)

  /** Why proofs are being spent. */
  datatype Use = Redeem | SwapInto(outs: seq<Blinded>)

  /** Where a mark-paid sequence goes next: it ends, or it was part of a mint. */
  datatype Then = Reply | MintNext(outs: seq<Blinded>)

  datatype Job =
    | Polling(quote: string, next: Then)       // read UNPAID, about to ask the Lightning node
    | Marking(quote: string, next: Then)       // invoice settled, about to write PAID
    | Reading(quote: string, outs: seq<Blinded>)
    | Claiming(payment: Payment, outs: seq<Blinded>)
    | Signing(grant: nat, outs: seq<Blinded>)
    | Releasing(grant: nat, quote: string)
    | Checking(use: Use, proofs: seq<Proof>, rows: seq<SpentRow>)

  datatype Hubs = Hubs(
    quotes: QuoteTable,
    spent: SpentTable,
    settled: seq<Payment>,   // what the Lightning node received
    signed: seq<Sig>,        // every signature made, in order
    accepted: seq<Proof>,    // every proof recorded as spent, in order
    redeemed: nat,           // sats reported redeemed to nodes
    grants: seq<Grant>,
    jobs: map<nat, Job>)

  datatype Step =
    | NewQuote(id: string, sats: nat)
    | Settle(id: string)
    | GetQuote(job: nat, id: string)
    | PostMint(job: nat, id: string, outs: seq<Blinded>)
    | Lookup(job: nat, ok: bool)
    | MarkPaid(job: nat, ok: bool)
    | ReadQuote(job: nat, ok: bool)
    | Claim(job: nat, ok: bool)
    | Sign(job: nat, ok: bool)
    | Release(job: nat, ok: bool)
    | PostRedeem(job: nat, proofs: seq<Proof>)
    | PostSwap(job: nat, proofs: seq<Proof>, outs: seq<Blinded>)
    | CheckProof(job: nat, ok: bool)
    | SaveSpent(job: nat, ok: bool)
    | Crash(job: nat)

  const START := Hubs(map[], map[], [], [], [], 0, [], map[])

  function OutsOf(g: Grant): nat { SumBy(g.outs, BlindedAmount) }

  /** Sats an invoice put behind a grant; a released grant has none. */
  function QuoteFunds(g: Grant): nat {
    if g.source.FromQuote? && !g.phase.Released? then g.source.payment.sats else 0
  }

  function SwapFunds(g: Grant): nat {
    if g.source.FromSwap? then SumBy(g.source.inputs, ProofAmount) else 0
  }

  function Funds(g: Grant): nat { QuoteFunds(g) + SwapFunds(g) }

  function PaymentSats(p: Payment): nat { p.sats }

  /** A client can only present a signature the mint made. */
  predicate Presentable(signed: seq<Sig>, proofs: seq<Proof>) {
    forall i :: 0 <= i < |proofs| && proofs[i].c.Holds? ==> proofs[i].c.sig in signed
  }

  predicate Enabled(s: Hubs, step: Step) {
    match step
    case NewQuote(id, sats) => id !in s.quotes && 0 < sats <= MAX_QUOTE
    case Settle(id) => id in s.quotes && Payment(id, s.quotes[id].amount) !in s.settled
    case GetQuote(j, _) => j !in s.jobs
    case PostMint(j, _, _) => j !in s.jobs
    case Lookup(j, _) => j in s.jobs && s.jobs[j].Polling?
    case MarkPaid(j, _) => j in s.jobs && s.jobs[j].Marking?
    case ReadQuote(j, _) => j in s.jobs && s.jobs[j].Reading?
    case Claim(j, _) => j in s.jobs && s.jobs[j].Claiming?
    case Sign(j, _) => j in s.jobs && s.jobs[j].Signing? && s.jobs[j].grant < |s.grants|
    case Release(j, _) => j in s.jobs && s.jobs[j].Releasing? && s.jobs[j].grant < |s.grants|
    case PostRedeem(j, proofs) => j !in s.jobs && Presentable(s.signed, proofs)
    case PostSwap(j, proofs, _) => j !in s.jobs && Presentable(s.signed, proofs)
    case CheckProof(j, _) => j in s.jobs && s.jobs[j].Checking? && |s.jobs[j].rows| < |s.jobs[j].proofs|
    case SaveSpent(j, _) => j in s.jobs && s.jobs[j].Checking? && |s.jobs[j].rows| == |s.jobs[j].proofs|
    case Crash(j) => j in s.jobs
  }

  function End(s: Hubs, j: nat): Hubs { s.(jobs := s.jobs - {j}) }

  function Goto(s: Hubs, j: nat, job: Job): Hubs { s.(jobs := s.jobs[j := job]) }

  /** After the payment check a status poll replies, a mint request goes on to mint. */
  function Continue(s: Hubs, j: nat, id: string, next: Then): Hubs {
    match next
    case Reply => End(s, j)
    case MintNext(outs) => Goto(s, j, Reading(id, outs))
  }

  /** Handler: a status poll reads the quote and goes on to the Lightning node if it is unpaid. */
  function OnGetQuote(s: Hubs, j: nat, id: string): Hubs {
    if id in s.quotes && s.quotes[id].state == Unpaid then Goto(s, j, Polling(id, Reply)) else s
  }

  /** Handler: a mint request does the same, then mints whatever the answer was. */
  function OnPostMint(s: Hubs, j: nat, id: string, outs: seq<Blinded>): Hubs {
    if outs == [] || |outs| > MAX_ITEMS || id !in s.quotes then s
    else if s.quotes[id].state == Unpaid then Goto(s, j, Polling(id, MintNext(outs)))
    else Goto(s, j, Reading(id, outs))
  }

  function OnLookup(s: Hubs, j: nat, ok: bool): Hubs
    requires j in s.jobs && s.jobs[j].Polling?
  {
    var Polling(id, next) := s.jobs[j];
    if ok && id in s.quotes && Payment(id, s.quotes[id].amount) in s.settled
    then Goto(s, j, Marking(id, next))
    else Continue(s, j, id, next)
  }

  /** The write is unconditional and its error is ignored. */
  function OnMarkPaid(s: Hubs, j: nat, ok: bool): Hubs
    requires j in s.jobs && s.jobs[j].Marking?
  {
    var Marking(id, next) := s.jobs[j];
    Continue(if ok then s.(quotes := Overwrite(s.quotes, id, Paid)) else s, j, id, next)
  }

  function OnReadQuote(s: Hubs, j: nat, ok: bool): Hubs
    requires j in s.jobs && s.jobs[j].Reading?
  {
    var Reading(id, outs) := s.jobs[j];
    if ok && id in s.quotes && s.quotes[id].state == Paid && Total64(outs, BlindedAmount) <= s.quotes[id].amount
    then Goto(s, j, Claiming(Payment(id, s.quotes[id].amount), outs))
    else End(s, j)
  }

  function OnClaim(s: Hubs, j: nat, ok: bool): Hubs
    requires j in s.jobs && s.jobs[j].Claiming?
  {
    var Claiming(payment, outs) := s.jobs[j];
    var (quotes, won) := Transition(s.quotes, payment.quote, Paid, Issued);
    if ok && won
    then
      var grant := Grant(FromQuote(payment), [], Held);
      Goto(s.(quotes := quotes, grants := s.grants + [grant]), j, Signing(|s.grants|, outs))
    else End(s, j)
  }

  function OnSign(s: Hubs, j: nat, ok: bool): Hubs
    requires j in s.jobs && s.jobs[j].Signing? && s.jobs[j].grant < |s.grants|
  {
    var Signing(g, outs) := s.jobs[j];
    var source := s.grants[g].source;
    if ok then End(s.(signed := s.signed + Sigs(outs), grants := s.grants[g := Grant(source, outs, Signed)]), j)
    else if source.FromQuote? then Goto(s, j, Releasing(g, source.payment.quote))
    else End(s, j)
  }

  function OnRelease(s: Hubs, j: nat, ok: bool): Hubs
    requires j in s.jobs && s.jobs[j].Releasing? && s.jobs[j].grant < |s.grants|
  {
    var Releasing(g, id) := s.jobs[j];
    var (quotes, won) := Transition(s.quotes, id, Issued, Paid);
    if ok && won
    then End(s.(quotes := quotes, grants := s.grants[g := s.grants[g].(phase := Released)]), j)
    else End(s, j)
  }

  function OnPostRedeem(s: Hubs, j: nat, proofs: seq<Proof>): Hubs {
    if proofs == [] || |proofs| > MAX_ITEMS || !NoDuplicates(proofs) then s
    else Goto(s, j, Checking(Redeem, proofs, []))
  }

  function OnPostSwap(s: Hubs, j: nat, proofs: seq<Proof>, outs: seq<Blinded>): Hubs {
    if proofs == [] || outs == [] || |proofs| > MAX_ITEMS || |outs| > MAX_ITEMS || !NoDuplicates(proofs)
       || Total64(proofs, ProofAmount) != Total64(outs, BlindedAmount)
    then s
    else Goto(s, j, Checking(SwapInto(outs), proofs, []))
  }

  function OnCheckProof(h: CurveHash, s: Hubs, j: nat, ok: bool): Hubs
    requires j in s.jobs && s.jobs[j].Checking? && |s.jobs[j].rows| < |s.jobs[j].proofs|
  {
    var Checking(use, proofs, rows) := s.jobs[j];
    var p := proofs[|rows|];
    if ok && Verifies(h, p) && h(p.secret).y !in s.spent
    then Goto(s, j, Checking(use, proofs, rows + [RowOf(h, p)]))
    else End(s, j)
  }

  function OnSaveSpent(s: Hubs, j: nat, ok: bool): Hubs
    requires j in s.jobs && s.jobs[j].Checking? && |s.jobs[j].rows| == |s.jobs[j].proofs|
  {
    var Checking(use, proofs, rows) := s.jobs[j];
    if ok && Insertable(s.spent, rows) then
      var t := s.(spent := InsertAll(s.spent, rows), accepted := s.accepted + proofs);
      match use {
        case Redeem => End(t.(redeemed := t.redeemed + Total64(proofs, ProofAmount)), j)
        case SwapInto(outs) =>
          var grant := Grant(FromSwap(proofs), [], Held);
          Goto(t.(grants := t.grants + [grant]), j, Signing(|t.grants|, outs))
      }
    else End(s, j)
  }

  function Apply(h: CurveHash, s: Hubs, step: Step): Hubs
    requires Enabled(s, step)
  {
    match step
    case NewQuote(id, sats) => s.(quotes := s.quotes[id := Quote(sats, Unpaid)])
    case Settle(id) => s.(settled := s.settled + [Payment(id, s.quotes[id].amount)])
    case GetQuote(j, id) => OnGetQuote(s, j, id)
    case PostMint(j, id, outs) => OnPostMint(s, j, id, outs)
    case Lookup(j, ok) => OnLookup(s, j, ok)
    case MarkPaid(j, ok) => OnMarkPaid(s, j, ok)
    case ReadQuote(j, ok) => OnReadQuote(s, j, ok)
    case Claim(j, ok) => OnClaim(s, j, ok)
    case Sign(j, ok) => OnSign(s, j, ok)
    case Release(j, ok) => OnRelease(s, j, ok)
    case PostRedeem(j, proofs) => OnPostRedeem(s, j, proofs)
    case PostSwap(j, proofs, outs) => OnPostSwap(s, j, proofs, outs)
    case CheckProof(j, ok) => OnCheckProof(h, s, j, ok)
    case SaveSpent(j, ok) => OnSaveSpent(s, j, ok)
    case Crash(j) => End(s, j)
  }
}
