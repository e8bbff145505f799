/** One hub process's mint: it signs, verifies and spends against a shared database. */
module Mints {
  import opened Sums
  import opened Ecash
  import opened EcashStores

  datatype Keyset = Keyset(active: bool, amounts: set<nat>)

  /** What must hold for one blinded message to be signed. */
  predicate Signable(keysets: map<string, Keyset>, b: Blinded) {
    && b.keyset in keysets
    && keysets[b.keyset].active
    && b.amount in keysets[b.keyset].amounts
    && b.wellFormed
  }

  /** Why a blinded message cannot be signed. */
  function Unsignable(keysets: map<string, Keyset>, b: Blinded): MintError {
    if b.keyset !in keysets then UnknownKeyset
    else if !keysets[b.keyset].active then InactiveKeyset
    else if b.amount !in keysets[b.keyset].amounts then NoKeyForAmount
    else Malformed
  }

  ghost predicate AllSignable(keysets: map<string, Keyset>, outs: seq<Blinded>) {
    forall i :: 0 <= i < |outs| ==> Signable(keysets, outs[i])
  }

  /** A proof this process would accept if nothing else were known about it. */
  predicate Genuine(h: CurveHash, keysets: map<string, Keyset>, p: Proof) {
    && p.keyset in keysets
    && p.amount in keysets[p.keyset].amounts
    && Verifies(h, p)
  }

  ghost predicate AllGenuine(h: CurveHash, keysets: map<string, Keyset>, proofs: seq<Proof>) {
    forall i :: 0 <= i < |proofs| ==> Genuine(h, keysets, proofs[i])
  }

  /**
   * The atomic test a spend amounts to: every proof is genuine and unspent, and
   * no two share a point. It is stated on the table at a single moment.
   */
  ghost predicate Acceptable(h: CurveHash, keysets: map<string, Keyset>, spent: SpentTable, proofs: seq<Proof>) {
    && AllGenuine(h, keysets, proofs)
    && Insertable(spent, RowsOf(h, proofs))
  }

  class Mint {
    var keysets: map<string, Keyset>
    const store: EcashStore
    const hash: CurveHash

    constructor (store: EcashStore, hash: CurveHash, keysets: map<string, Keyset>)
      ensures this.store == store && this.hash == hash && this.keysets == keysets
    {
      this.store, this.hash, this.keysets := store, hash, keysets;
    }

    method ProofsAmount(proofs: seq<Proof>) returns (total: nat)
      ensures total == Total64(proofs, ProofAmount)
    {
      total := 0;
      assert proofs[..0] == [];
      for n := 0 to |proofs|
        invariant total == SumBy(proofs[..n], ProofAmount) % U64
      {
        assert proofs[..n + 1][..n] == proofs[..n];
        total := (total + proofs[n].amount) % U64;
      }
      assert proofs[..|proofs|] == proofs;
    }

    method OutputsAmount(outs: seq<Blinded>) returns (total: nat)
      ensures total == Total64(outs, BlindedAmount)
    {
      total := 0;
      assert outs[..0] == [];
      for n := 0 to |outs|
        invariant total == SumBy(outs[..n], BlindedAmount) % U64
      {
        assert outs[..n + 1][..n] == outs[..n];
        total := (total + outs[n].amount) % U64;
      }
      assert outs[..|outs|] == outs;
    }

    /** Signs every output or none, reporting the first that cannot be signed. */
    method SignBlindedMessages(outs: seq<Blinded>) returns (r: Result<seq<Sig>>)
      ensures r.Ok? <==> AllSignable(keysets, outs)
      ensures r.Ok? <==> forall i :: 0 <= i < |outs| ==>
                           outs[i].keyset in keysets && keysets[outs[i].keyset].active
                           && outs[i].amount in keysets[outs[i].keyset].amounts && outs[i].wellFormed
      ensures r.Ok? ==> |r.value| == |outs| && r.value == Sigs(outs)
                        && forall i :: 0 <= i < |outs| ==> r.value[i] == Sig(outs[i].keyset, outs[i].amount, outs[i].y)
      ensures r.Err? ==> exists i :: 0 <= i < |outs| && !Signable(keysets, outs[i]) && AllSignable(keysets, outs[..i])
                                     && r.error == Unsignable(keysets, outs[i])
      ensures r.Err? ==> match r.error
                         case UnknownKeyset => exists i :: 0 <= i < |outs| && outs[i].keyset !in keysets
                         case InactiveKeyset =>
                           exists i :: 0 <= i < |outs| && outs[i].keyset in keysets && !keysets[outs[i].keyset].active
                         case NoKeyForAmount =>
                           exists i :: 0 <= i < |outs| && outs[i].keyset in keysets
                                       && outs[i].amount !in keysets[outs[i].keyset].amounts
                         case Malformed => exists i :: 0 <= i < |outs| && !outs[i].wellFormed
                         case _ => false
    {
      var sigs := [];
      for n := 0 to |outs|
        invariant AllSignable(keysets, outs[..n])
        invariant sigs == Sigs(outs[..n])
      {
        var b := outs[n];
        assert forall i :: 0 <= i < n ==> outs[..n][i] == outs[i];
        if b.keyset !in keysets { return Err(UnknownKeyset); }
        if !keysets[b.keyset].active { return Err(InactiveKeyset); }
        if b.amount !in keysets[b.keyset].amounts { return Err(NoKeyForAmount); }
        if !b.wellFormed { return Err(Malformed); }
        sigs := sigs + [Sig(b.keyset, b.amount, b.y)];
      }
      assert outs[..|outs|] == outs;
      return Ok(sigs);
    }

    method HasDuplicates(proofs: seq<Proof>) returns (found: bool)
      ensures found <==> !NoDuplicates(proofs)
    {
      var seen: set<Proof> := {};
      for n := 0 to |proofs|
        invariant NoDuplicates(proofs[..n])
        invariant forall p :: p in seen <==> p in proofs[..n]
      {
        if proofs[n] in seen {
          var i :| 0 <= i < n && proofs[..n][i] == proofs[n];
          assert proofs[i] == proofs[n];
          return true;
        }
        forall i | 0 <= i < n ensures proofs[i] != proofs[n] { assert proofs[..n][i] in seen; }
        seen := seen + {proofs[n]};
        assert proofs[..n + 1] == proofs[..n] + [proofs[n]];
      }
      assert proofs[..|proofs|] == proofs;
      return false;
    }

    /** Checks each proof in turn against the keysets and the spent table. */
    method VerifyProofs(proofs: seq<Proof>) returns (r: Result<seq<SpentRow>>)
      ensures r.Ok? ==> NoDuplicates(proofs) && AllGenuine(hash, keysets, proofs)
                        && forall i :: 0 <= i < |proofs| ==>
                             var p := proofs[i];
                             && p.keyset in keysets && p.amount in keysets[p.keyset].amounts
                             && hash(p.secret).OnCurve? && p.c == Holds(Sig(p.keyset, p.amount, hash(p.secret).y))
      ensures r.Ok? ==> r.value == RowsOf(hash, proofs)
                        && forall i :: 0 <= i < |proofs| ==> r.value[i].y !in store.spent
      ensures r.Err? && r.error == DuplicateProofs ==> !NoDuplicates(proofs)
      ensures r.Err? && r.error == AlreadySpent ==>
                exists i :: 0 <= i < |proofs| && Genuine(hash, keysets, proofs[i])
                            && hash(proofs[i].secret).y in store.spent
      ensures r.Err? && r.error !in {DuplicateProofs, AlreadySpent, StoreFault} ==> !AllGenuine(hash, keysets, proofs)
      ensures r.Err? && r.error == StoreFault ==> store.faulty
    {
      var duplicates := HasDuplicates(proofs);
      if duplicates { return Err(DuplicateProofs); }
      var rows: seq<SpentRow> := [];
      for n := 0 to |proofs|
        invariant AllGenuine(hash, keysets, proofs[..n])
        invariant rows == RowsOf(hash, proofs[..n])
        invariant forall i :: 0 <= i < n ==> rows[i].y !in store.spent
      {
        var p := proofs[n];
        assert forall i :: 0 <= i < n ==> proofs[..n][i] == proofs[i];
        if p.keyset !in keysets { return Err(UnknownKeyset); }
        if p.amount !in keysets[p.keyset].amounts { return Err(NoKeyForAmount); }
        if p.c.Garbled? { return Err(Malformed); }
        if hash(p.secret).NoPoint? { return Err(Malformed); }
        if p.c.sig != Expected(hash, p) { return Err(InvalidProof); }
        var spent := store.IsProofSpent(hash(p.secret).y);
        if spent.Err? { return Err(spent.error); }
        if spent.value { return Err(AlreadySpent); }
        rows := rows + [RowOf(hash, p)];
      }
      assert proofs[..|proofs|] == proofs;
      return Ok(rows);
    }

    /**
     * Verify and record as one step. On a sound database this is exactly the
     * all-or-nothing test-and-insert Acceptable describes.
     */
    method VerifyAndMarkSpent(proofs: seq<Proof>) returns (r: Result<seq<SpentRow>>)
      modifies store`spent
      ensures r.Ok? ==> Acceptable(hash, keysets, old(store.spent), proofs)
                        && r.value == RowsOf(hash, proofs)
                        && store.spent == InsertAll(old(store.spent), r.value)
      ensures r.Err? ==> store.spent == old(store.spent)
      ensures r.Err? && r.error == AlreadySpent && AllGenuine(hash, keysets, proofs) ==>
                !Insertable(old(store.spent), RowsOf(hash, proofs))
      ensures !store.faulty ==> (r.Ok? <==> Acceptable(hash, keysets, old(store.spent), proofs))
      ensures !store.faulty && r.Err? && AllGenuine(hash, keysets, proofs) && NoDuplicates(proofs) ==>
                r.error == AlreadySpent
    {
      r := VerifyProofs(proofs);
      if r.Err? {
        if r.error == DuplicateProofs && AllGenuine(hash, keysets, proofs) {
          var i, j :| 0 <= i < j < |proofs| && proofs[i] == proofs[j];
          assert RowsOf(hash, proofs)[i].y == RowsOf(hash, proofs)[j].y;
        } else if r.error == AlreadySpent && AllGenuine(hash, keysets, proofs) {
          var i :| 0 <= i < |proofs| && hash(proofs[i].secret).y in store.spent;
          assert RowsOf(hash, proofs)[i].y in store.spent;
        }
        return;
      }
      var saved := store.SaveSpentProofs(r.value);
      if saved.Err? { r := Err(saved.error); }
    }

    /** NUT-03: equal totals in and out, inputs burned before outputs are signed. */
    method Swap(inputs: seq<Proof>, outs: seq<Blinded>) returns (r: Result<seq<Sig>>)
      modifies store`spent
      ensures r.Ok? ==> Total64(inputs, ProofAmount) == Total64(outs, BlindedAmount)
                        && Acceptable(hash, keysets, old(store.spent), inputs)
                        && store.spent == InsertAll(old(store.spent), RowsOf(hash, inputs))
                        && AllSignable(keysets, outs) && r.value == Sigs(outs)
      ensures r.Err? ==> store.spent == old(store.spent)
                         || (Acceptable(hash, keysets, old(store.spent), inputs)
                             && store.spent == InsertAll(old(store.spent), RowsOf(hash, inputs))
                             && !AllSignable(keysets, outs))
      ensures !store.faulty ==> (r.Ok? <==> Total64(inputs, ProofAmount) == Total64(outs, BlindedAmount)
                                            && Acceptable(hash, keysets, old(store.spent), inputs)
                                            && AllSignable(keysets, outs))
      ensures r.Err? && r.error == AlreadySpent ==>
                store.spent == old(store.spent) && Total64(inputs, ProofAmount) == Total64(outs, BlindedAmount)
                && (AllGenuine(hash, keysets, inputs) ==> !Insertable(old(store.spent), RowsOf(hash, inputs)))
      ensures !store.faulty && AllGenuine(hash, keysets, inputs) && NoDuplicates(inputs) ==>
                var rows := RowsOf(hash, inputs);
                var looked := Total64(inputs, ProofAmount) == Total64(outs, BlindedAmount);
                && store.spent
                   == (if looked && Insertable(old(store.spent), rows)
                       then InsertAll(old(store.spent), rows) else old(store.spent))
                && (r.Err? && r.error == AlreadySpent <==> looked && !Insertable(old(store.spent), rows))
    {
      var inTotal := ProofsAmount(inputs);
      var outTotal := OutputsAmount(outs);
      if inTotal != outTotal { return Err(AmountMismatch); }
      var marked := VerifyAndMarkSpent(inputs);
      if marked.Err? { return Err(marked.error); }
      r := SignBlindedMessages(outs);
    }

    /**
     * NUT-04: claim, sign, and hand the quote back when signing fails. Run with
     * no other process between its steps, it either issues once or changes
     * nothing; MintProtocol interleaves the same steps.
     */
    method MintTokens(id: string, outs: seq<Blinded>) returns (r: Result<seq<Sig>>)
      modifies store`quotes
      ensures r.Ok? ==> id in old(store.quotes)
                        && Transition(old(store.quotes), id, Paid, Issued) == (store.quotes, true)
                        && Total64(outs, BlindedAmount) <= old(store.quotes)[id].amount
                        && AllSignable(keysets, outs) && r.value == Sigs(outs)
      ensures r.Err? ==> store.quotes == old(store.quotes)
                         || (store.faulty && !AllSignable(keysets, outs)
                             && Transition(old(store.quotes), id, Paid, Issued) == (store.quotes, true))
      ensures !store.faulty ==> (r.Ok? <==> id in old(store.quotes) && old(store.quotes)[id].state == Paid
                                            && Total64(outs, BlindedAmount) <= old(store.quotes)[id].amount
                                            && AllSignable(keysets, outs))
      ensures !store.faulty && r.Err? ==>
                var before := old(store.quotes);
                if id !in before then r.error == QuoteNotFound
                else if before[id].state == Issued then r.error == QuoteAlreadyUsed
                else if before[id].state != Paid then r.error == QuoteNotPaid
                else if Total64(outs, BlindedAmount) > before[id].amount then r.error == OutputOverQuote
                else r.error in {UnknownKeyset, InactiveKeyset, NoKeyForAmount, Malformed}
    {
      var quote := store.GetMintQuote(id);
      if quote.Err? { return Err(QuoteNotFound); }
      match quote.value.state {
        case Unpaid => return Err(QuoteNotPaid);
        case Issued => return Err(QuoteAlreadyUsed);
        case Expired => return Err(QuoteNotPaid);
        case Paid =>
      }
      var total := OutputsAmount(outs);
      if total > quote.value.amount { return Err(OutputOverQuote); }
      var won := store.TransitionMintQuoteState(id, Paid, Issued);
      if won.Err? { return Err(won.error); }
      if !won.value { return Err(QuoteAlreadyUsed); }
      r := SignBlindedMessages(outs);
      if r.Err? {
        var released := store.TransitionMintQuoteState(id, Issued, Paid);
        if released.Err? { return Err(released.error); }
        if !released.value { return Err(NotReleased); }
        assert store.quotes == old(store.quotes);
      }
    }

    /** NUT-07: one verdict per point, in request order. */
    method CheckProofsState(ys: seq<Point>) returns (r: Result<seq<bool>>)
      ensures r.Ok? ==> |r.value| == |ys| && forall i :: 0 <= i < |ys| ==> r.value[i] == (ys[i] in store.spent)
      ensures r.Err? ==> store.faulty
    {
      var states: seq<bool> := [];
      for n := 0 to |ys|
        invariant |states| == n
        invariant forall i :: 0 <= i < n ==> states[i] == (ys[i] in store.spent)
      {
        var spent := store.IsProofSpent(ys[n]);
        if spent.Err? { return Err(spent.error); }
        states := states + [spent.value];
      }
      return Ok(states);
    }
  }
}
