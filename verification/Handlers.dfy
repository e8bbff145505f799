/** The hub's endpoints for quotes, minting and redemption, as ordered calls on the mint and its store. */
module Handlers {
  import opened Sums
  import opened Ecash
  import opened EcashStores
  import opened Mints
  import opened Verdicts

  /** What the Lightning node says about a quote's invoice; an open circuit is no answer. */
  datatype Lookup = NoAnswer | Open | Settled

  datatype Shown = Shown(quote: Quote) | NoQuote | BadId | Limited

  datatype Issue = Signatures(sigs: seq<Sig>) | Denied(status: nat)

  datatype Spend = Spend(verdict: HubVerdict, sats: nat, bytesAllowed: int)

  /** int64(n), for an unsigned 64-bit n. */
  function AsInt64(n: nat): int {
    var low := n % U64;
    if low >= U64 / 2 then low - U64 else low
  }

  /** The wrapping product of two signed 64-bit numbers. */
  function Times64(a: int, b: int): int { AsInt64((a * b) % U64) }

  /** One sat buys a megabyte, for any amount below nine billion sats. */
  lemma {:induction false} SatsBuyMegabytes(sats: nat)
    requires sats * 1_000_000 < U64 / 2
    ensures Times64(AsInt64(sats), 1_000_000) == sats * 1_000_000
  {
  }

  class DiscoveryAPI {
    const mint: Mint

    constructor (mint: Mint)
      ensures this.mint == mint
    {
      this.mint := mint;
    }

    /** Writes PAID when the node reports the invoice settled; a failed write is ignored. */
    method MarkPaidIfSettled(id: string, state: QuoteState, lookup: Lookup) returns (settled: bool)
      requires id in mint.store.quotes
      modifies mint.store`quotes
      ensures settled <==> state == Unpaid && lookup.Settled?
      ensures mint.store.quotes == old(mint.store.quotes)
              || (settled && mint.store.quotes == Overwrite(old(mint.store.quotes), id, Paid))
      ensures !mint.store.faulty && settled ==> mint.store.quotes == Overwrite(old(mint.store.quotes), id, Paid)
    {
      settled := state == Unpaid && lookup.Settled?;
      if settled { var written := mint.store.UpdateMintQuoteState(id, Paid); }
    }

    /**
     * Shows a quote. With no other request in between it is shown, and stored, as
     * paid if it was paid or was unpaid with its invoice settled, and otherwise as
     * it was.
     */
    method HandleGetMintQuote(limited: bool, id: string, lookup: Lookup) returns (r: Shown)
      modifies mint.store`quotes
      ensures limited ==> r == Limited
      ensures !limited && (id == "" || |id| > 64) ==> r == BadId
      ensures r.Shown? ==> id in old(mint.store.quotes) && r.quote.amount == old(mint.store.quotes)[id].amount
      ensures r.Shown? ==>
                var before := old(mint.store.quotes)[id].state;
                && (r.quote.state == Paid <==> before == Paid || (before == Unpaid && lookup.Settled?))
                && (r.quote.state != Paid ==> r.quote.state == before)
      ensures r.Shown? && r.quote.state != Paid ==> mint.store.quotes == old(mint.store.quotes)
      ensures !r.Shown? ==> mint.store.quotes == old(mint.store.quotes)
      ensures !mint.store.faulty && !limited && id != "" && |id| <= 64 ==> (r.Shown? <==> id in old(mint.store.quotes))
      ensures !mint.store.faulty && r.Shown? ==> mint.store.quotes == old(mint.store.quotes)[id := r.quote]
    {
      if limited { return Limited; }
      if id == "" || |id| > 64 { return BadId; }
      var stored := mint.store.GetMintQuote(id);
      if stored.Err? { return NoQuote; }
      var quote := stored.value;
      var settled := MarkPaidIfSettled(id, quote.state, lookup);
      if settled { quote := quote.(state := Paid); }
      return Shown(quote);
    }

    static function MintStatus(e: MintError): nat {
      match e
      case QuoteNotFound => 404
      case QuoteNotPaid => 402
      case QuoteAlreadyUsed => 409
      case OutputOverQuote => 400
      case _ => 500
    }

    /**
     * Issues signatures for a paid quote, first catching up with the Lightning
     * node. Alone on a sound database it succeeds exactly when the invoice was
     * paid, the outputs fit the amount and every one of them can be signed; the
     * quote is then ISSUED, and otherwise no worse than it was.
     */
    method HandleMintTokens(limited: bool, id: string, outs: seq<Blinded>, lookup: Lookup) returns (r: Issue)
      modifies mint.store`quotes
      ensures r.Signatures? ==>
                && id in old(mint.store.quotes) && r.sigs == Sigs(outs) && 0 < |outs| <= MAX_ITEMS
                && Total64(outs, BlindedAmount) <= old(mint.store.quotes)[id].amount
                && mint.store.quotes == old(mint.store.quotes)[id := old(mint.store.quotes)[id].(state := Issued)]
      ensures !mint.store.faulty ==>
                var before := old(mint.store.quotes);
                var asked := !limited && id != "" && 0 < |outs| <= MAX_ITEMS && id in before;
                var paid := asked && (before[id].state == Paid || (before[id].state == Unpaid && lookup.Settled?));
                && (r.Signatures? <==> paid && Total64(outs, BlindedAmount) <= before[id].amount
                                       && AllSignable(mint.keysets, outs))
                && (r.Denied? ==>
                      && mint.store.quotes == (if paid then before[id := before[id].(state := Paid)] else before)
                      && r.status == if limited then 429
                                     else if id == "" || |outs| == 0 || |outs| > MAX_ITEMS then 400
                                     else if id !in before then 404
                                     else if before[id].state == Issued then 409
                                     else if !paid then 402
                                     else if Total64(outs, BlindedAmount) > before[id].amount then 400
                                     else 500)
    {
      if limited { return Denied(429); }
      if id == "" || |outs| == 0 || |outs| > MAX_ITEMS { return Denied(400); }
      var stored := mint.store.GetMintQuote(id);
      if stored.Err? { return Denied(404); }
      var settled := MarkPaidIfSettled(id, stored.value.state, lookup);
      var issued := mint.MintTokens(id, outs);
      if issued.Err? { return Denied(MintStatus(issued.error)); }
      return Signatures(issued.value);
    }

    /** The swap gets past the checks before the mint looks at it. */
    static predicate Swappable(limited: bool, inputs: seq<Proof>, outs: seq<Blinded>, workersBusy: bool) {
      !limited && 0 < |inputs| <= MAX_ITEMS && 0 < |outs| <= MAX_ITEMS && !workersBusy
    }

    static function SwapStatus(e: MintError): nat {
      match e
      case InvalidProof => 400
      case AlreadySpent => 409
      case DuplicateProofs => 400
      case AmountMismatch => 400
      case _ => 500
    }

    /**
     * Exchanges proofs for signatures. A 409 says that a proof was spent and
     * nothing was burned; any other refusal may come after the inputs were burned,
     * when an output could not be signed.
     */
    method HandleSwap(limited: bool, inputs: seq<Proof>, outs: seq<Blinded>, workersBusy: bool) returns (r: Issue)
      modifies mint.store`spent
      ensures r.Signatures? ==> r.sigs == Sigs(outs) && AllSignable(mint.keysets, outs)
      ensures r == Denied(409) ==>
                mint.store.spent == old(mint.store.spent)
                && (AllGenuine(mint.hash, mint.keysets, inputs) ==>
                      !Insertable(old(mint.store.spent), RowsOf(mint.hash, inputs)))
      ensures !mint.store.faulty && AllGenuine(mint.hash, mint.keysets, inputs) && NoDuplicates(inputs) ==>
                var rows, before := RowsOf(mint.hash, inputs), old(mint.store.spent);
                var looked := !limited && 0 < |inputs| <= MAX_ITEMS && 0 < |outs| <= MAX_ITEMS && !workersBusy
                              && Total64(inputs, ProofAmount) == Total64(outs, BlindedAmount);
                && mint.store.spent == (if looked && Insertable(before, rows) then InsertAll(before, rows) else before)
                && (r.Signatures? <==> looked && Insertable(before, rows) && AllSignable(mint.keysets, outs))
                && (r == Denied(409) <==> looked && !Insertable(before, rows))
    {
      if limited { return Denied(429); }
      if |inputs| == 0 || |inputs| > MAX_ITEMS || |outs| == 0 || |outs| > MAX_ITEMS { return Denied(400); }
      if workersBusy { return Denied(500); }
      var swapped := mint.Swap(inputs, outs);
      if swapped.Err? { return Denied(SwapStatus(swapped.error)); }
      return Signatures(swapped.value);
    }

    /** The request gets past the checks before the mint looks at the proofs. */
    static predicate Admitted(limited: bool, proofs: seq<Proof>, nodePubkey: string, workersBusy: bool) {
      !limited && 0 < |proofs| <= MAX_ITEMS && nodePubkey != "" && !workersBusy
    }

    /**
     * Burns a node's proofs. The verdict says exactly what happened to them: they
     * are recorded as spent if and only if it says burned.
     */
    method HandleRedeem(limited: bool, proofs: seq<Proof>, nodePubkey: string, workersBusy: bool) returns (r: Spend)
      modifies mint.store`spent
      ensures r.verdict.Burned? ==>
                Acceptable(mint.hash, mint.keysets, old(mint.store.spent), proofs) && 0 < |proofs| <= MAX_ITEMS
                                    && mint.store.spent == InsertAll(old(mint.store.spent), RowsOf(mint.hash, proofs))
                                    && r.sats == Total64(proofs, ProofAmount)
      ensures !r.verdict.Burned? ==> mint.store.spent == old(mint.store.spent) && r.sats == 0
      ensures r.verdict.Burned? && SumBy(proofs, ProofAmount) * 1_000_000 < U64 / 2 ==>
                r.bytesAllowed == SumBy(proofs, ProofAmount) * 1_000_000
      ensures r.verdict == HubVerdict.Refused(AlreadySpent) && AllGenuine(mint.hash, mint.keysets, proofs) ==>
                !Insertable(old(mint.store.spent), RowsOf(mint.hash, proofs))
      ensures !mint.store.faulty ==>
                (r.verdict.Burned? <==> !limited && 0 < |proofs| <= MAX_ITEMS && nodePubkey != "" && !workersBusy
                                        && Acceptable(mint.hash, mint.keysets, old(mint.store.spent), proofs))
      ensures r.verdict == HubVerdict.Refused(AlreadySpent) ==> Admitted(limited, proofs, nodePubkey, workersBusy)
      ensures !mint.store.faulty && AllGenuine(mint.hash, mint.keysets, proofs) && NoDuplicates(proofs) ==>
                (r.verdict.Burned? || r.verdict == HubVerdict.Refused(AlreadySpent)
                 <==> Admitted(limited, proofs, nodePubkey, workersBusy))
    {
      if limited { return Spend(RateLimited, 0, 0); }
      if |proofs| == 0 || |proofs| > MAX_ITEMS || nodePubkey == "" { return Spend(BadRequest, 0, 0); }
      if workersBusy { return Spend(HubVerdict.Refused(StoreFault), 0, 0); }
      var marked := mint.VerifyAndMarkSpent(proofs);
      if marked.Err? { return Spend(HubVerdict.Refused(marked.error), 0, 0); }
      var totalSats := mint.ProofsAmount(proofs);
      if SumBy(proofs, ProofAmount) * 1_000_000 < U64 / 2 { SatsBuyMegabytes(totalSats); }
      return Spend(Burned, totalSats, Times64(AsInt64(totalSats), 1_000_000));
    }
  }
}
