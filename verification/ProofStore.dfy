/** The client's vault of unspent proofs, in memory and on disk. */
module ProofStores {
  import opened Sums
  import opened Ecash
  import opened Denominations
  import opened Holdings

  datatype TakeError = ZeroAmount | InsufficientBalance | NotPersisted
  datatype Taken = Took(proofs: seq<Proof>) | Refused(why: TakeError)

  class EncryptedProofStore {
    var hubs: map<string, seq<Proof>>
    /** The vault as last written; it outlives the process. */
    var disk: map<string, seq<Proof>>
    /** How often the vault was written, and which of the writes work. */
    var writes: nat
    const works: nat -> bool

    constructor (works: nat -> bool)
      ensures hubs == map[] && disk == map[] && writes == 0 && this.works == works
    {
      hubs, disk, writes := map[], map[], 0;
      this.works := works;
    }

    function Held(hub: string): seq<Proof>
      reads this`hubs
    {
      if hub in hubs then hubs[hub] else []
    }

    /** Writes the whole vault or leaves the file as it was. */
    method Persist() returns (ok: bool)
      modifies this`disk, this`writes
      ensures ok == works(old(writes)) && writes == old(writes) + 1
      ensures disk == if ok then hubs else old(disk)
    {
      ok := works(writes);
      writes := writes + 1;
      if ok { disk := hubs; }
    }

    method List(hub: string) returns (held: seq<Proof>)
      ensures held == Held(hub)
    {
      held := if hub in hubs then hubs[hub] else [];
    }

    /**
     * Adds proofs that are not held yet. A failed write is reported, but the
     * proofs stay in memory.
     */
    method Add(hub: string, proofs: seq<Proof>) returns (ok: bool)
      modifies this
      ensures hub == "" ==> !ok && hubs == old(hubs) && disk == old(disk) && writes == old(writes)
      ensures hub != "" && proofs == [] ==> ok && hubs == old(hubs) && disk == old(disk) && writes == old(writes)
      ensures hub != "" && proofs != [] ==> ok == works(old(writes)) && writes == old(writes) + 1
                                            && hubs == old(hubs)[hub := Merge(old(Held(hub)), proofs)]
                                            && disk == if ok then hubs else old(disk)
    {
      if hub == "" { return false; }
      if proofs == [] { return true; }
      var held := if hub in hubs then hubs[hub] else [];
      var existing := Secrets(held);
      var merged := held;
      assert proofs[..0] == [];
      for n := 0 to |proofs|
        invariant hubs == old(hubs) && disk == old(disk) && writes == old(writes)
        invariant merged == Merge(held, proofs[..n])
        invariant existing == Secrets(merged)
      {
        assert proofs[..n + 1][..n] == proofs[..n];
        if proofs[n].secret !in existing {
          existing := existing + {proofs[n].secret};
          SecretsConcat(merged, [proofs[n]]);
          assert [proofs[n]][0].secret in Secrets([proofs[n]]);
          assert Secrets([proofs[n]]) == {proofs[n].secret};
          merged := merged + [proofs[n]];
        }
      }
      assert proofs[..|proofs|] == proofs;
      hubs := hubs[hub := merged];
      ok := Persist();
    }

    /**
     * Removes and returns proofs worth at least the amount. It succeeds exactly
     * when the balance covers the amount and the write works; a failed write
     * leaves the holdings as they were.
     */
    method Take(hub: string, amount: nat) returns (r: Taken)
      modifies this
      ensures r.Took? ==> var held := old(Held(hub));
                          var chosen := Chosen(Amounts(held), amount);
                          && 0 < amount <= Total(held)
                          && r.proofs == Part(held, chosen, true)
                          && hubs == old(hubs)[hub := Part(held, chosen, false)]
                          && disk == hubs
      ensures r.Refused? ==> hubs == old(hubs) && disk == old(disk)
      ensures r.Refused? && r.why == ZeroAmount <==> amount == 0
      ensures r.Refused? && r.why == InsufficientBalance <==> amount > Total(old(Held(hub)))
      ensures r.Took? <==> 0 < amount <= Total(old(Held(hub))) && works(old(writes))
      ensures writes == old(writes) + if 0 < amount <= Total(old(Held(hub))) then 1 else 0
    {
      if amount == 0 { return Refused(ZeroAmount); }
      var available := if hub in hubs then hubs[hub] else [];
      var total := TotalOf(available);
      if total < amount { return Refused(InsufficientBalance); }

      var found, selected := Select(available, amount);
      if !found { return Refused(InsufficientBalance); }
      var taken, remaining := Partition(available, selected);
      ghost var before := hubs;
      hubs := hubs[hub := remaining];
      var ok := Persist();
      if !ok {
        hubs := hubs[hub := available];
        assert hub in before;
        assert hubs == before;
        return Refused(NotPersisted);
      }
      return Took(taken);
    }

    /**
     * Greedy by falling denomination, then the smallest proof that closes the
     * gap. Nothing closes it only when all the proofs together would not.
     */
    method Select(available: seq<Proof>, amount: nat) returns (found: bool, selected: set<nat>)
      ensures found <==> amount <= Total(available)
      ensures found ==> selected == Chosen(Amounts(available), amount)
    {
      ghost var a := Amounts(available);
      var order := Falling(Amounts(available));
      FallingFalls(a);
      TotalIsWorth(available);
      var collected;
      selected, collected := SelectLargest(available, order, amount);
      WorthMono(a, selected, Positions(a));
      if collected < amount {
        var best := SmallestClosing(available, order, selected, amount - collected);
        if best == -1 {
          if amount <= Total(available) { GapCloses(a, order, amount); }
          return false, selected;
        }
        WorthAdd(a, selected, best);
        WorthMono(a, selected + {best}, Positions(a));
        selected := selected + {best};
      }
      return true, selected;
    }

    method TotalOf(proofs: seq<Proof>) returns (total: nat)
      ensures total == Total(proofs)
    {
      total := 0;
      assert proofs[..0] == [];
      for n := 0 to |proofs|
        invariant total == Total(proofs[..n])
      {
        assert proofs[..n + 1][..n] == proofs[..n];
        total := total + proofs[n].amount;
      }
      assert proofs[..|proofs|] == proofs;
    }

    /** Walks the order, taking whatever still fits. */
    method SelectLargest(available: seq<Proof>, order: seq<nat>, amount: nat)
      returns (selected: set<nat>, collected: nat)
      requires Falls(Amounts(available), order)
      ensures selected == Greedy(Amounts(available), order, amount)
      ensures collected == Worth(Amounts(available), selected) <= amount
    {
      ghost var a := Amounts(available);
      selected, collected := {}, 0;
      WorthNone(a);
      GreedyLeaves(a, order, amount);
      assert order[0..] == order;
      for n := 0 to |order|
        invariant collected == Worth(a, selected) <= amount
        invariant forall i :: i in selected ==> i in order[..n]
        invariant selected + Greedy(a, order[n..], amount - collected) == Greedy(a, order, amount)
      {
        if collected >= amount { break; }
        var idx := order[n];
        assert order[n..][1..] == order[n + 1..];
        assert idx !in order[..n];
        assert order[..n + 1] == order[..n] + [idx];
        if available[idx].amount <= amount - collected {
          WorthAdd(a, selected, idx);
          selected := selected + {idx};
          collected := collected + available[idx].amount;
        }
      }
    }

    /** The smallest proof not selected that covers the shortfall, or -1. */
    method SmallestClosing(available: seq<Proof>, order: seq<nat>, selected: set<nat>, short: nat) returns (best: int)
      requires Falls(Amounts(available), order)
      ensures best == Closing(Amounts(available), order, selected, short)
    {
      ghost var a := Amounts(available);
      best := -1;
      for n := 0 to |order|
        invariant best == Closing(a, order[..n], selected, short)
      {
        assert order[..n + 1][..n] == order[..n];
        var idx := order[n];
        if idx in selected { continue; }
        if available[idx].amount < short { continue; }
        if best == -1 || available[idx].amount < available[best].amount { best := idx; }
      }
      assert order[..|order|] == order;
    }

    method Partition(available: seq<Proof>, selected: set<nat>) returns (taken: seq<Proof>, remaining: seq<Proof>)
      ensures taken == Part(available, selected, true) && remaining == Part(available, selected, false)
    {
      taken, remaining := [], [];
      for n := 0 to |available|
        invariant taken == Part(available[..n], selected, true)
        invariant remaining == Part(available[..n], selected, false)
      {
        assert available[..n + 1][..n] == available[..n];
        if n in selected { taken := taken + [available[n]]; } else { remaining := remaining + [available[n]]; }
      }
      assert available[..|available|] == available;
    }
  }
}
