/** A reservation that needs change, with the hub's spent table: what the sats held are still good for. */
module SwapAtHub {
  import opened Sums
  import opened Ecash
  import opened EcashStores
  import opened Mints
  import opened Denominations
  import opened Holdings
  import opened HopAtHub
  import Handlers
  import Verdicts
  import Wallets

  /** What a proof can still pay. */
  function GoodFor(h: CurveHash, spent: SpentTable, p: Proof): nat {
    if h(p.secret).OnCurve? && h(p.secret).y in spent then 0 else p.amount
  }

  function Good(h: CurveHash, spent: SpentTable): Proof -> nat { (p: Proof) => GoodFor(h, spent, p) }

  function Spendable(h: CurveHash, spent: SpentTable, proofs: seq<Proof>): nat { SumBy(proofs, Good(h, spent)) }

  /** The hub's signatures as the client reads them, or its refusal; without an answer the hub is unreachable. */
  function Read(keyset: Wallets.KeysetInfo, answer: Handlers.Issue, link: Verdicts.Link): Wallets.SwapReply {
    if link.Lost? then Wallets.Unreachable
    else match answer
      case Signatures(sigs) =>
        Wallets.Signatures(keyset, seq(|sigs|, i requires 0 <= i < |sigs| =>
          Wallets.BlindSignature(sigs[i].amount, Holds(sigs[i]))))
      case Denied(status) => Wallets.HubError(status)
  }

  /** What the hub did about a swap and what the client was told of it can be this. */
  ghost predicate HubDid(h: CurveHash, before: SpentTable, taken: seq<Proof>, burned: bool, after: SpentTable,
                         reply: Wallets.SwapReply)
    requires AllHashed(h, taken)
  {
    && (burned ==> NoneSpent(h, before, taken) && after == InsertAll(before, RowsOf(h, taken)))
    && (!burned ==> after == before)
    && (reply.Signatures? ==> burned)
    && (reply == Wallets.HubError(Wallets.CONFLICT) ==> !burned && !NoneSpent(h, before, taken))
  }

  /** One swap at the hub, seen from both ends. */
  method SwapHop(api: Handlers.DiscoveryAPI, keyset: Wallets.KeysetInfo, limited: bool, taken: seq<Proof>,
                 outs: seq<Blinded>, workersBusy: bool, link: Verdicts.Link)
    returns (reply: Wallets.SwapReply, ghost burned: bool)
    requires !api.mint.store.faulty && Batch(api.mint.hash, api.mint.keysets, taken)
    modifies api.mint.store`spent
    ensures HubDid(api.mint.hash, old(api.mint.store.spent), taken, burned, api.mint.store.spent, reply)
    ensures var looked := Handlers.DiscoveryAPI.Swappable(limited, taken, outs, workersBusy)
                          && Total64(taken, ProofAmount) == Total64(outs, BlindedAmount);
            && (burned <==> looked && NoneSpent(api.mint.hash, old(api.mint.store.spent), taken))
            && (link.Delivered? ==>
                  && (reply == Wallets.HubError(Wallets.CONFLICT) <==> looked && !burned)
                  && (reply.Signatures? <==> burned && AllSignable(api.mint.keysets, outs)))
  {
    BatchTests(api.mint.hash, api.mint.keysets, api.mint.store.spent, taken);
    var answer := api.HandleSwap(limited, taken, outs, workersBusy);
    burned := Handlers.DiscoveryAPI.Swappable(limited, taken, outs, workersBusy)
              && Total64(taken, ProofAmount) == Total64(outs, BlindedAmount)
              && NoneSpent(api.mint.hash, old(api.mint.store.spent), taken);
    reply := Read(keyset, answer, link);
  }

  /** What the client asks for: a well-formed output of each denomination, for the point of a drawn secret. */
  predicate Blinds(h: CurveHash, keyset: Wallets.KeysetInfo, draw: nat -> string, amounts: seq<nat>,
                   outs: seq<Blinded>) {
    && |outs| == |amounts|
    && forall i :: 0 <= i < |outs| ==>
         h(draw(i)).OnCurve? && outs[i] == Blinded(keyset.id, amounts[i], true, h(draw(i)).y)
  }

  /**
   * Whenever the hub signs what the client asked for, with the keys the client
   * knows of, the client finds the signatures right, and every proof it makes of
   * them is one the hub accepts as its own.
   */
  lemma {:induction false} MadeIsGenuine(h: CurveHash, keysets: map<string, Keyset>, keyset: Wallets.KeysetInfo,
                                         draw: nat -> string, total: nat, amount: nat, outs: seq<Blinded>)
    requires amount <= total && keyset.id != "" && keyset.id in keysets && keysets[keyset.id].amounts == keyset.amounts
    requires Blinds(h, keyset, draw, Wallets.AmountSplit(amount) + Wallets.AmountSplit(total - amount), outs)
    requires AllSignable(keysets, outs)
    ensures var reply := Read(keyset, Handlers.Signatures(Sigs(outs)), Verdicts.Delivered);
            Wallets.SwapWorks(reply, draw, total, amount)
            && AllGenuine(h, keysets, Wallets.Made(reply, draw, total, amount))
  {
    var reply := Read(keyset, Handlers.Signatures(Sigs(outs)), Verdicts.Delivered);
    var amounts := Wallets.AmountSplit(amount) + Wallets.AmountSplit(total - amount);
    forall i | 0 <= i < |outs|
      ensures reply.sigs[i] == Wallets.BlindSignature(amounts[i], Holds(Sig(keyset.id, amounts[i], h(draw(i)).y)))
              && amounts[i] in keyset.amounts
    {
      assert Signable(keysets, outs[i]);
    }
    var made := Wallets.Made(reply, draw, total, amount);
    forall i | 0 <= i < |made| ensures Genuine(h, keysets, made[i]) {
      assert made[i] == Proof(keyset.id, amounts[i], draw(i), reply.sigs[i].c);
    }
  }

  // ---- What a table makes of the holdings ----

  lemma {:induction false} SameGood(proofs: seq<Proof>, f: Proof -> nat, g: Proof -> nat)
    requires forall i :: 0 <= i < |proofs| ==> f(proofs[i]) == g(proofs[i])
    ensures SumBy(proofs, f) == SumBy(proofs, g)
  {
    SumByMono(proofs, f, g);
    SumByMono(proofs, g, f);
  }

  lemma {:induction false} NoGood(proofs: seq<Proof>, f: Proof -> nat)
    requires forall i :: 0 <= i < |proofs| ==> f(proofs[i]) == 0
    ensures SumBy(proofs, f) == 0
  {
    if proofs != [] {
      var last := |proofs| - 1;
      assert forall i :: 0 <= i < last ==> proofs[..last][i] == proofs[i];
      NoGood(proofs[..last], f);
    }
  }

  lemma {:induction false} OwnPush(h: CurveHash, keysets: map<string, Keyset>, proofs: seq<Proof>, p: Proof)
    requires Own(h, keysets, proofs) && Genuine(h, keysets, p) && h(p.secret).y !in Points(h, proofs)
    ensures Own(h, keysets, proofs + [p]) && Points(h, proofs + [p]) == Points(h, proofs) + {h(p.secret).y}
  {
    var all := proofs + [p];
    assert forall i :: 0 <= i < |proofs| ==> all[i] == proofs[i];
    assert all[|proofs|] == p;
    forall y | y in Points(h, proofs) + {h(p.secret).y} ensures y in Points(h, all) {
      if y in Points(h, proofs) {
        var i :| 0 <= i < |proofs| && h(proofs[i].secret).OnCurve? && h(proofs[i].secret).y == y;
        assert all[i] == proofs[i];
      }
    }
  }

  /** Every proof belongs to one part, and so does its point. */
  lemma {:induction false} PartsOwn(h: CurveHash, keysets: map<string, Keyset>, held: seq<Proof>, chosen: set<nat>)
    requires Own(h, keysets, held)
    ensures Own(h, keysets, Part(held, chosen, true)) && Own(h, keysets, Part(held, chosen, false))
    ensures Points(h, Part(held, chosen, true)) !! Points(h, Part(held, chosen, false))
    ensures Points(h, Part(held, chosen, true)) + Points(h, Part(held, chosen, false)) == Points(h, held)
  {
    if held != [] {
      var last := |held| - 1;
      var init, p, inside := held[..last], held[last], last in chosen;
      assert forall i :: 0 <= i < last ==> init[i] == held[i];
      PartStep(held, chosen);
      PartsOwn(h, keysets, init, chosen);
      assert h(p.secret).y !in Points(h, init);
      OwnPush(h, keysets, init, p);
      OwnPush(h, keysets, Part(init, chosen, inside), p);
    }
  }

  lemma {:induction false} PartsAddUp(held: seq<Proof>, chosen: set<nat>, f: Proof -> nat)
    ensures SumBy(held, f) == SumBy(Part(held, chosen, true), f) + SumBy(Part(held, chosen, false), f)
  {
    PartsSplit(held, chosen);
    SumByPermuted(held, Part(held, chosen, true) + Part(held, chosen, false), f);
    SumByConcat(Part(held, chosen, true), Part(held, chosen, false), f);
  }

  /** Burning one part spends all of it and none of the other. */
  lemma {:induction false} BurningSpends(h: CurveHash, keysets: map<string, Keyset>, spent: SpentTable,
                                         held: seq<Proof>, chosen: set<nat>)
    requires Own(h, keysets, held) && NoneSpent(h, spent, Part(held, chosen, true))
    ensures var taken, left := Part(held, chosen, true), Part(held, chosen, false);
            AllHashed(h, taken) && var after := InsertAll(spent, RowsOf(h, taken));
            && Spendable(h, spent, taken) == Total(taken) && Spendable(h, after, taken) == 0
            && Spendable(h, after, left) == Spendable(h, spent, left)
  {
    var taken, left := Part(held, chosen, true), Part(held, chosen, false);
    PartsOwn(h, keysets, held, chosen);
    var rows := RowsOf(h, taken);
    var after := InsertAll(spent, rows);
    InsertAllKeys(spent, rows);
    forall i | 0 <= i < |taken| ensures Good(h, after)(taken[i]) == 0 && Good(h, spent)(taken[i]) == taken[i].amount {
      assert rows[i].y == h(taken[i].secret).y;
    }
    NoGood(taken, Good(h, after));
    SameGood(taken, Good(h, spent), ProofAmount);
    forall i | 0 <= i < |left| ensures Good(h, after)(left[i]) == Good(h, spent)(left[i]) {
      assert h(left[i].secret).y in Points(h, left);
      forall k | 0 <= k < |rows| ensures rows[k].y != h(left[i].secret).y {
        assert rows[k].y == h(taken[k].secret).y && rows[k].y in Points(h, taken);
      }
    }
    SameGood(left, Good(h, after), Good(h, spent));
  }

  /** No secret still to be drawn is one the hub has seen. */
  ghost predicate Unseen(h: CurveHash, spent: SpentTable, draw: nat -> string) {
    forall i: nat :: h(draw(i)).OnCurve? ==> h(draw(i)).y !in spent
  }

  lemma {:induction false} DrawnAreGood(h: CurveHash, spent: SpentTable, draw: nat -> string, proofs: seq<Proof>)
    requires Unseen(h, spent, draw) && forall x :: x in Secrets(proofs) ==> Wallets.Draws(draw, x)
    ensures Spendable(h, spent, proofs) == Total(proofs)
  {
    forall i | 0 <= i < |proofs| ensures Good(h, spent)(proofs[i]) == proofs[i].amount {
      assert Wallets.Draws(draw, proofs[i].secret);
      var k: nat :| draw(k) == proofs[i].secret;
    }
    SameGood(proofs, Good(h, spent), ProofAmount);
  }

  // ---- What a reservation costs by the hub's table ----

  /** The selection is taken and sent to the mint for change. */
  ghost predicate Asks(held: seq<Proof>, amount: nat, works: nat -> bool, n: nat) {
    0 < amount <= Total(held) && works(n) && Wallets.Picked(held, amount) != amount
  }

  ghost function Taken(held: seq<Proof>, amount: nat): seq<Proof> { Part(held, Chosen(Amounts(held), amount), true) }

  /**
   * The sats that can be spent no more: all of a selection that was burned
   * without a usable answer, what was still good of one given up on a 409, and a
   * payment whose change could not be written.
   */
  ghost function Cost(h: CurveHash, before: SpentTable, held: seq<Proof>, amount: nat, draw: nat -> string,
                      reply: Wallets.SwapReply, works: nat -> bool, n: nat, burned: bool): nat {
    if !Asks(held, amount, works, n) then 0
    else if Wallets.SwapWorks(reply, draw, Wallets.Picked(held, amount), amount)
    then if works(n + 1) then 0 else amount
    else if burned then Total(Taken(held, amount))
    else if reply == Wallets.HubError(Wallets.CONFLICT) then Spendable(h, before, Taken(held, amount))
    else 0
  }

  ghost function HandedOut(result: Wallets.Reserved): seq<Proof> {
    match result
    case Got(proofs) => proofs
    case NotReserved(_) => []
  }

  /**
   * What can be spent before a reservation can be spent after it, held or handed
   * out, except for exactly its cost.
   */
  lemma {:induction false} SpendableExact(h: CurveHash, keysets: map<string, Keyset>, before: SpentTable,
                                          after: SpentTable, held: seq<Proof>, amount: nat, draw: nat -> string,
                                          reply: Wallets.SwapReply, works: nat -> bool, n: nat, burned: bool)
    requires Own(h, keysets, held) && Distinct(held) && Wallets.Fresh(draw, Secrets(held)) && Unseen(h, after, draw)
    requires AllHashed(h, Taken(held, amount))
    requires HubDid(h, before, Taken(held, amount), burned, after, reply)
    requires burned ==> Asks(held, amount, works, n)
    ensures var v := Wallets.Reserving(held, amount, draw, reply, works, n);
            Spendable(h, after, v.after) + Spendable(h, after, HandedOut(v.result))
            + Cost(h, before, held, amount, draw, reply, works, n, burned) == Spendable(h, before, held)
  {
    var chosen := Chosen(Amounts(held), amount);
    PartsAddUp(held, chosen, Good(h, before));
    if Asks(held, amount, works, n) {
      Wallets.SelectionCovers(held, amount);
      PartWorth(held, chosen);
      if burned { BurningSpends(h, keysets, before, held, chosen); }
      if Wallets.SwapWorks(reply, draw, Wallets.Picked(held, amount), amount) {
        Exchanged(h, after, held, amount, draw, reply);
      } else {
        Unexchanged(h, before, after, held, amount, draw, reply, works, n + 1, burned);
      }
    }
  }

  /** Without an exchange the selection is back, for what it is worth by now, or given up. */
  lemma {:induction false} Unexchanged(h: CurveHash, before: SpentTable, after: SpentTable, held: seq<Proof>,
                                       amount: nat, draw: nat -> string, reply: Wallets.SwapReply, works: nat -> bool,
                                       n: nat, burned: bool)
    requires Distinct(held) && !Wallets.SwapWorks(reply, draw, Wallets.Picked(held, amount), amount)
    requires var taken, left := Taken(held, amount), Part(held, Chosen(Amounts(held), amount), false);
             && Spendable(h, before, held) == Spendable(h, before, taken) + Spendable(h, before, left)
             && Spendable(h, after, left) == Spendable(h, before, left)
             && Spendable(h, after, taken) == (if burned then 0 else Spendable(h, before, taken))
             && (burned ==> Spendable(h, before, taken) == Total(taken))
    requires reply == Wallets.HubError(Wallets.CONFLICT) ==> !burned
    ensures var v := Wallets.Exchanging(held, Chosen(Amounts(held), amount), amount, draw, reply, works, n);
            v.result.NotReserved?
            && Spendable(h, after, v.after)
               + (if burned then Total(Taken(held, amount))
                  else if reply == Wallets.HubError(Wallets.CONFLICT) then Spendable(h, before, Taken(held, amount))
                  else 0)
               == Spendable(h, before, held)
  {
    PutBackIsWorth(held, Chosen(Amounts(held), amount), Good(h, after));
  }

  /** Putting the selection back gives back its worth, whatever each proof is worth. */
  lemma {:induction false} PutBackIsWorth(held: seq<Proof>, chosen: set<nat>, f: Proof -> nat)
    requires Distinct(held)
    ensures var taken, left := Part(held, chosen, true), Part(held, chosen, false);
            SumBy(Merge(left, taken), f) == SumBy(left, f) + SumBy(taken, f)
  {
    PutBack(held, chosen);
    SumByPermuted(Merge(Part(held, chosen, false), Part(held, chosen, true)), held, f);
    PartsAddUp(held, chosen, f);
  }

  /** What an exchange makes is good, and the change adds to what was left. */
  lemma {:induction false} Exchanged(h: CurveHash, after: SpentTable, held: seq<Proof>, amount: nat,
                                     draw: nat -> string, reply: Wallets.SwapReply)
    requires Distinct(held) && Wallets.Fresh(draw, Secrets(held)) && Unseen(h, after, draw)
    requires Wallets.SwapWorks(reply, draw, Wallets.Picked(held, amount), amount)
    ensures var worth, cut := Wallets.Picked(held, amount), |Wallets.AmountSplit(amount)|;
            var made := Wallets.Made(reply, draw, worth, amount);
            var left := Part(held, Chosen(Amounts(held), amount), false);
            && Spendable(h, after, made[..cut]) == amount
            && Spendable(h, after, Merge(left, made[cut..])) == Spendable(h, after, left) + worth - amount
  {
    var worth, cut := Wallets.Picked(held, amount), |Wallets.AmountSplit(amount)|;
    var chosen := Chosen(Amounts(held), amount);
    var made, left := Wallets.Made(reply, draw, worth, amount), Part(held, chosen, false);
    var payment, change := made[..cut], made[cut..];
    Wallets.MintedSplit(reply.keyset, reply.sigs, draw, amount, worth - amount);
    assert payment + change == made;
    PartWorth(held, chosen);
    Wallets.NewOnesApart(held, chosen, payment, change, draw);
    NewAreGood(h, after, draw, left, payment, change);
  }

  lemma {:induction false} NewAreGood(h: CurveHash, after: SpentTable, draw: nat -> string, left: seq<Proof>,
                                      payment: seq<Proof>, change: seq<Proof>)
    requires Unseen(h, after, draw) && Distinct(change) && Secrets(left) !! Secrets(change)
    requires forall x :: x in Secrets(payment) + Secrets(change) ==> Wallets.Draws(draw, x)
    ensures Spendable(h, after, payment) == Total(payment)
    ensures Spendable(h, after, Merge(left, change)) == Spendable(h, after, left) + Total(change)
  {
    MergeNew(left, change);
    SumByConcat(left, change, Good(h, after));
    DrawnAreGood(h, after, draw, payment);
    DrawnAreGood(h, after, draw, change);
  }

  /** A spent proof among them is worth nothing any more. */
  lemma {:induction false} SpentIsLess(h: CurveHash, spent: SpentTable, proofs: seq<Proof>)
    requires forall i :: 0 <= i < |proofs| ==> proofs[i].amount > 0
    ensures Spendable(h, spent, proofs) <= Total(proofs)
    ensures !NoneSpent(h, spent, proofs) ==> Spendable(h, spent, proofs) < Total(proofs)
  {
    SumByMono(proofs, Good(h, spent), ProofAmount);
    if y :| y in Points(h, proofs) && y in spent {
      var i :| 0 <= i < |proofs| && h(proofs[i].secret).OnCurve? && h(proofs[i].secret).y == y;
      SumByRemove(proofs, i, Good(h, spent));
      SumByRemove(proofs, i, ProofAmount);
      SumByMono(proofs[..i] + proofs[i + 1..], Good(h, spent), ProofAmount);
    }
  }

  /**
   * The balance falls by what was really lost if and only if the reservation got
   * its change or neither burned its selection nor was answered 409: a burned
   * selection comes back as if it were good, and a 409 takes proofs that were
   * spent already off the balance.
   */
  lemma {:induction false} BalanceTellsExact(h: CurveHash, before: SpentTable, after: SpentTable, held: seq<Proof>,
                                             amount: nat, draw: nat -> string, reply: Wallets.SwapReply,
                                             works: nat -> bool, n: nat, burned: bool)
    requires AllHashed(h, Taken(held, amount)) && forall i :: 0 <= i < |held| ==> held[i].amount > 0
    requires HubDid(h, before, Taken(held, amount), burned, after, reply)
    ensures var v := Wallets.Reserving(held, amount, draw, reply, works, n);
            Cost(h, before, held, amount, draw, reply, works, n, burned) == Wallets.LossOf(held, amount, v.result)
            <==> !Asks(held, amount, works, n)
                 || Wallets.SwapWorks(reply, draw, Wallets.Picked(held, amount), amount)
                 || (!burned && reply != Wallets.HubError(Wallets.CONFLICT))
  {
    var chosen := Chosen(Amounts(held), amount);
    PartWorth(held, chosen);
    if Asks(held, amount, works, n) { Wallets.SelectionCovers(held, amount); }
    PartPositive(held, chosen);
    SpentIsLess(h, before, Taken(held, amount));
  }

  lemma {:induction false} PartPositive(held: seq<Proof>, chosen: set<nat>)
    requires forall i :: 0 <= i < |held| ==> held[i].amount > 0
    ensures var taken := Part(held, chosen, true); forall i :: 0 <= i < |taken| ==> taken[i].amount > 0
  {
    var taken := Part(held, chosen, true);
    PartsSplit(held, chosen);
    forall i | 0 <= i < |taken| ensures taken[i].amount > 0 { assert taken[i] in multiset(held); }
  }
}
