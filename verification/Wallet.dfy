/** Reserving exact payments, with exact change from the mint when needed. */
module Wallets {
  import opened Sums
  import opened Ecash
  import opened Denominations
  import opened Holdings
  import opened ProofStores

  /** The hub's keys: one per denomination. */
  datatype KeysetInfo = KeysetInfo(id: string, amounts: set<nat>)

  datatype BlindSignature = BlindSignature(amount: nat, c: Presented)

  /** What the exchange with the mint came to. */
  datatype SwapReply =
    | KeysetUnavailable
    | Unreachable
    | HubError(status: nat)
    | Signatures(keyset: KeysetInfo, sigs: seq<BlindSignature>)

  const CONFLICT: nat := 409

  /** Client-side material for one output: its secret and denomination. */
  datatype BlindState = BlindState(secret: string, amount: nat)

  datatype Unblinded = Proofs(proofs: seq<Proof>) | BadSignatures

  datatype Change = Swapped(payment: seq<Proof>, change: seq<Proof>) | NoChange

  /** Why nothing was reserved. */
  datatype Reason = NotTaken | NoExchange | ProofsSpent | ChangeNotSaved

  datatype Reserved = Got(proofs: seq<Proof>) | NotReserved(why: Reason)

  /** Splits an amount into its binary digits, lowest first, counted in units of p. */
  function SplitFrom(n: nat, p: nat): seq<nat> {
    if n == 0 then []
    else if n % 2 == 1 then [p] + SplitFrom(n / 2, 2 * p)
    else SplitFrom(n / 2, 2 * p)
  }

  function AmountSplit(n: nat): seq<nat> { SplitFrom(n, 1) }

  function Same(n: nat): nat { n }

  lemma {:induction false} DoubleIsPower(p: nat)
    requires IsPowerOfTwo(p)
    ensures IsPowerOfTwo(2 * p)
  {
    assert (2 * p) % 2 == 0 && (2 * p) / 2 == p;
  }

  lemma {:induction false} OneMoreDigit(p: nat, rest: seq<nat>)
    ensures SumBy([p] + rest, Same) == p + SumBy(rest, Same)
  {
    SumByConcat([p], rest, Same);
    SumByPush([], p, Same);
    assert [] + [p] == [p];
  }

  /** The denominations of a split add up to the amount and are powers of two. */
  lemma {:induction false} SplitAddsUp(n: nat, p: nat)
    requires IsPowerOfTwo(p)
    ensures SumBy(SplitFrom(n, p), Same) == n * p
    ensures forall i :: 0 <= i < |SplitFrom(n, p)| ==> IsPowerOfTwo(SplitFrom(n, p)[i])
  {
    if n > 0 {
      DoubleIsPower(p);
      SplitAddsUp(n / 2, 2 * p);
      OneMoreDigit(p, SplitFrom(n / 2, 2 * p));
      HalvesAddUp(n / 2, n % 2, p);
    }
  }

  lemma {:induction false} HalvesAddUp(h: nat, b: nat, p: nat)
    ensures (2 * h + b) * p == h * (2 * p) + b * p
  {
  }

  /** A source of secrets no proof in sight has. */
  ghost predicate Fresh(draw: nat -> string, names: set<string>) {
    Injective(draw) && forall i: nat :: draw(i) !in names
  }

  /** No secret is drawn twice. */
  ghost predicate Injective(draw: nat -> string) { forall i: nat, j: nat :: i < j ==> draw(i) != draw(j) }

  ghost predicate Draws(draw: nat -> string, name: string) { exists i: nat :: draw(i) == name }

  function States(draw: nat -> string, amounts: seq<nat>): seq<BlindState> {
    seq(|amounts|, i requires 0 <= i < |amounts| => BlindState(draw(i), amounts[i]))
  }

  /** The hub signed each denomination asked for, with a key it has. */
  predicate Matches(keyset: KeysetInfo, sigs: seq<BlindSignature>, states: seq<BlindState>) {
    && |sigs| == |states|
    && forall i :: 0 <= i < |sigs| ==>
         sigs[i].amount == states[i].amount && sigs[i].c.Holds? && states[i].amount in keyset.amounts
  }

  function Minted(keyset: KeysetInfo, sigs: seq<BlindSignature>, states: seq<BlindState>): seq<Proof>
    requires |sigs| == |states|
  {
    seq(|sigs|, i requires 0 <= i < |sigs| => Proof(keyset.id, states[i].amount, states[i].secret, sigs[i].c))
  }

  /**
   * Proofs are made only of signatures for the amounts asked for; one for another
   * amount fails them all.
   */
  lemma {:induction false} MintedIsSigned(keyset: KeysetInfo, sigs: seq<BlindSignature>, states: seq<BlindState>,
                                          i: nat)
    requires i < |states| && Matches(keyset, sigs, states)
    ensures var p := Minted(keyset, sigs, states)[i];
            && |sigs| == |states| && p.amount == sigs[i].amount == states[i].amount && p.amount in keyset.amounts
            && sigs[i].c.Holds? && p == Proof(keyset.id, sigs[i].amount, states[i].secret, sigs[i].c)
  {
  }

  /** A slice of freshly minted proofs is worth its amounts ... */
  lemma {:induction false} MintedWorth(keyset: KeysetInfo, sigs: seq<BlindSignature>, draw: nat -> string,
                                       amounts: seq<nat>, lo: nat, hi: nat)
    requires |sigs| == |amounts| && lo <= hi <= |amounts|
    ensures Total(Minted(keyset, sigs, States(draw, amounts))[lo..hi]) == SumBy(amounts[lo..hi], Same)
  {
    var all := Minted(keyset, sigs, States(draw, amounts));
    if lo < hi {
      var last := hi - 1;
      MintedWorth(keyset, sigs, draw, amounts, lo, last);
      assert all[lo..hi] == all[lo..last] + [all[last]];
      assert amounts[lo..hi] == amounts[lo..last] + [amounts[last]];
      SumByPush(all[lo..last], all[last], ProofAmount);
      SumByPush(amounts[lo..last], amounts[last], Same);
    }
  }

  /** ... and has secrets of its own, all of them drawn. */
  lemma {:induction false} MintedSecrets(keyset: KeysetInfo, sigs: seq<BlindSignature>, draw: nat -> string,
                                         amounts: seq<nat>)
    requires |sigs| == |amounts|
    requires Injective(draw)
    ensures var proofs := Minted(keyset, sigs, States(draw, amounts));
            Distinct(proofs) && forall x :: x in Secrets(proofs) ==> Draws(draw, x)
  {
    var all := Minted(keyset, sigs, States(draw, amounts));
    assert forall i :: 0 <= i < |all| ==> all[i].secret == draw(i);
  }

  /** Cutting the minted proofs where the payment amounts end gives two exact, disjoint sets. */
  lemma {:induction false} MintedSplit(keyset: KeysetInfo, sigs: seq<BlindSignature>, draw: nat -> string, amount: nat,
                                       rest: nat)
    requires |sigs| == |AmountSplit(amount) + AmountSplit(rest)|
    ensures var proofs := Minted(keyset, sigs, States(draw, AmountSplit(amount) + AmountSplit(rest)));
            var cut := |AmountSplit(amount)|;
            && Total(proofs[..cut]) == amount && Total(proofs[cut..]) == rest
            && (Injective(draw) ==> Distinct(proofs) && forall x :: x in Secrets(proofs) ==> Draws(draw, x))
  {
    var payments, changes := AmountSplit(amount), AmountSplit(rest);
    var amounts, cut := payments + changes, |payments|;
    var proofs := Minted(keyset, sigs, States(draw, amounts));
    SplitAddsUp(amount, 1);
    SplitAddsUp(rest, 1);
    assert amounts[0..cut] == payments && amounts[cut..|amounts|] == changes;
    MintedWorth(keyset, sigs, draw, amounts, 0, cut);
    MintedWorth(keyset, sigs, draw, amounts, cut, |amounts|);
    if Injective(draw) { MintedSecrets(keyset, sigs, draw, amounts); }
    assert proofs[0..cut] == proofs[..cut] && proofs[cut..|amounts|] == proofs[cut..];
  }

  /** Every secret that may be around after drawing new ones. */
  ghost predicate Around(names: set<string>, draw: nat -> string, x: string) { x in names || Draws(draw, x) }

  /** The holdings stay free of doubles and gain no secret that was not drawn. */
  ghost predicate Sane(before: seq<Proof>, after: seq<Proof>, draw: nat -> string) {
    Distinct(after) && forall x :: x in Secrets(after) ==> Around(Secrets(before), draw, x)
  }

  /** Proofs worth exactly the amount left the holdings, none of them staying behind. */
  ghost predicate PaidOut(before: seq<Proof>, after: seq<Proof>, proofs: seq<Proof>, amount: nat, draw: nat -> string) {
    && Total(proofs) == amount
    && Total(after) == Total(before) - amount
    && Distinct(proofs)
    && Secrets(proofs) !! Secrets(after)
    && forall x :: x in Secrets(proofs) ==> Around(Secrets(before), draw, x)
  }

  /** The same proofs, possibly in another order. */
  ghost predicate Restored(before: seq<Proof>, after: seq<Proof>) {
    multiset(after) == multiset(before) && Total(after) == Total(before)
  }

  lemma {:induction false} TakenExactly(held: seq<Proof>, chosen: set<nat>, draw: nat -> string)
    requires Distinct(held)
    ensures var taken, left := Part(held, chosen, true), Part(held, chosen, false);
            PaidOut(held, left, taken, Worth(Amounts(held), chosen), draw) && Sane(held, left, draw)
  {
    PartsSplit(held, chosen);
    PartSecrets(held, chosen);
    PartsDistinct(held, chosen);
    PartWorth(held, chosen);
  }

  lemma {:induction false} TakenBack(held: seq<Proof>, chosen: set<nat>, draw: nat -> string)
    requires Distinct(held)
    ensures var back := Merge(Part(held, chosen, false), Part(held, chosen, true));
            Restored(held, back) && Sane(held, back, draw)
  {
    PutBack(held, chosen);
  }

  /** The change joins what was left; the payment stays apart from both. */
  lemma {:induction false} ChangeJoins(held: seq<Proof>, chosen: set<nat>, payment: seq<Proof>, change: seq<Proof>,
                                       draw: nat -> string)
    requires Distinct(held) && Fresh(draw, Secrets(held))
    requires Distinct(payment + change) && forall x :: x in Secrets(payment + change) ==> Draws(draw, x)
    requires Total(payment) + Total(change) == Worth(Amounts(held), chosen)
    ensures var after := Merge(Part(held, chosen, false), change);
            PaidOut(held, after, payment, Total(payment), draw) && Sane(held, after, draw)
  {
    var left := Part(held, chosen, false);
    NewOnesApart(held, chosen, payment, change, draw);
    PartsSplit(held, chosen);
    PartWorth(held, chosen);
    MergeNew(left, change);
    MergeKeeps(left, change);
    SumByConcat(left, change, ProofAmount);
  }

  /** Freshly drawn secrets collide with nothing that was left, nor with one another. */
  lemma {:induction false} NewOnesApart(held: seq<Proof>, chosen: set<nat>, payment: seq<Proof>, change: seq<Proof>,
                                        draw: nat -> string)
    requires Distinct(held) && Fresh(draw, Secrets(held))
    requires Distinct(payment + change) && forall x :: x in Secrets(payment + change) ==> Draws(draw, x)
    ensures var left := Part(held, chosen, false);
            && Distinct(left) && Distinct(payment) && Distinct(change) && Secrets(left) <= Secrets(held)
            && Secrets(left) !! Secrets(payment) && Secrets(left) !! Secrets(change)
            && Secrets(payment) !! Secrets(change)
            && (forall x :: x in Secrets(payment) + Secrets(change) ==> Draws(draw, x))
  {
    PartsDistinct(held, chosen);
    PartSecrets(held, chosen);
    DistinctConcat(payment, change);
    SecretsConcat(payment, change);
  }

  /** Whether an exchange of inputs worth total for an exact amount goes through. */
  ghost predicate SwapWorks(reply: SwapReply, draw: nat -> string, total: nat, amount: nat) {
    && amount <= total
    && reply.Signatures?
    && reply.keyset.id != ""
    && Matches(reply.keyset, reply.sigs, States(draw, AmountSplit(amount) + AmountSplit(total - amount)))
  }

  /** The proofs an exchange that goes through makes: payment first, then change. */
  ghost function Made(reply: SwapReply, draw: nat -> string, total: nat, amount: nat): seq<Proof>
    requires SwapWorks(reply, draw, total, amount)
  {
    Minted(reply.keyset, reply.sigs, States(draw, AmountSplit(amount) + AmountSplit(total - amount)))
  }

  /** What the selection for an amount is worth. */
  ghost function Picked(held: seq<Proof>, amount: nat): nat { Worth(Amounts(held), Chosen(Amounts(held), amount)) }

  /** What one reservation comes to: its result, the holdings it leaves, and the writes made so far. */
  datatype Reservation = Reservation(result: Reserved, after: seq<Proof>, writes: nat)

  /** A reservation, given the mint's answer and which writes of the vault work. */
  ghost function Reserving(held: seq<Proof>, amount: nat, draw: nat -> string, reply: SwapReply, works: nat -> bool,
                           n: nat): Reservation {
    var chosen := Chosen(Amounts(held), amount);
    if !(0 < amount <= Total(held)) then Reservation(NotReserved(NotTaken), held, n)
    else if !works(n) then Reservation(NotReserved(NotTaken), held, n + 1)
    else Paying(held, chosen, amount, draw, reply, works, n + 1)
  }

  /** The selection taken is handed out if it is exact. */
  ghost function Paying(held: seq<Proof>, chosen: set<nat>, amount: nat, draw: nat -> string, reply: SwapReply,
                        works: nat -> bool, n: nat): Reservation {
    if Worth(Amounts(held), chosen) == amount
    then Reservation(Got(Part(held, chosen, true)), Part(held, chosen, false), n)
    else Exchanging(held, chosen, amount, draw, reply, works, n)
  }

  /** The selection is worth more: it is exchanged for exact change, or comes back unless the mint says it is spent. */
  ghost function Exchanging(held: seq<Proof>, chosen: set<nat>, amount: nat, draw: nat -> string, reply: SwapReply,
                            works: nat -> bool, n: nat): Reservation {
    var taken, left, worth := Part(held, chosen, true), Part(held, chosen, false), Worth(Amounts(held), chosen);
    if SwapWorks(reply, draw, worth, amount) then
      var made, cut := Made(reply, draw, worth, amount), |AmountSplit(amount)|;
      Reservation(if works(n) then Got(made[..cut]) else NotReserved(ChangeNotSaved), Merge(left, made[cut..]), n + 1)
    else if reply == HubError(CONFLICT) then Reservation(NotReserved(ProofsSpent), left, n)
    else Reservation(NotReserved(NoExchange), Merge(left, taken), n + 1)
  }

  /** The sats a reservation that failed has cost. */
  ghost function LossOf(held: seq<Proof>, amount: nat, result: Reserved): nat {
    match result
    case Got(_) => 0
    case NotReserved(NotTaken) => 0
    case NotReserved(NoExchange) => 0
    case NotReserved(ProofsSpent) => Picked(held, amount)
    case NotReserved(ChangeNotSaved) => amount
  }

  /** A reservation hands out the exact amount, or the balance falls by what it lost. */
  ghost predicate Accounted(held: seq<Proof>, amount: nat, draw: nat -> string, v: Reservation) {
    && Sane(held, v.after, draw)
    && (v.result.Got? ==> PaidOut(held, v.after, v.result.proofs, amount, draw))
    && (v.result.NotReserved? ==> Total(v.after) + LossOf(held, amount, v.result) == Total(held))
    && (v.result.NotReserved? && LossOf(held, amount, v.result) == 0 ==> Restored(held, v.after))
  }

  lemma {:induction false} ReservingAccounts(held: seq<Proof>, amount: nat, draw: nat -> string, reply: SwapReply,
                                             works: nat -> bool, n: nat)
    requires Distinct(held) && Fresh(draw, Secrets(held))
    ensures Accounted(held, amount, draw, Reserving(held, amount, draw, reply, works, n))
  {
    var chosen := Chosen(Amounts(held), amount);
    TakenExactly(held, chosen, draw);
    if 0 < amount <= Total(held) && works(n) && Picked(held, amount) != amount {
      SelectionCovers(held, amount);
      ExchangingAccounts(held, amount, draw, reply, works, n + 1);
    }
  }

  lemma {:induction false} SelectionCovers(held: seq<Proof>, amount: nat)
    requires amount <= Total(held)
    ensures amount <= Picked(held, amount)
  {
    TotalIsWorth(held);
    ChosenCovers(Amounts(held), amount);
  }

  lemma {:induction false} ExchangingAccounts(held: seq<Proof>, amount: nat, draw: nat -> string, reply: SwapReply,
                                              works: nat -> bool, n: nat)
    requires Distinct(held) && Fresh(draw, Secrets(held)) && 0 < amount <= Picked(held, amount)
    ensures var chosen := Chosen(Amounts(held), amount);
            Accounted(held, amount, draw, Exchanging(held, chosen, amount, draw, reply, works, n))
  {
    var chosen, worth := Chosen(Amounts(held), amount), Picked(held, amount);
    if SwapWorks(reply, draw, worth, amount) {
      SwapAccounts(held, chosen, amount, draw, reply);
    } else if reply == HubError(CONFLICT) {
      TakenExactly(held, chosen, draw);
    } else {
      TakenBack(held, chosen, draw);
    }
  }

  /** Once exchanged, the payment is out and the change is in. */
  lemma {:induction false} SwapAccounts(held: seq<Proof>, chosen: set<nat>, amount: nat, draw: nat -> string,
                                        reply: SwapReply)
    requires Distinct(held) && Fresh(draw, Secrets(held))
    requires SwapWorks(reply, draw, Worth(Amounts(held), chosen), amount)
    ensures var made, cut := Made(reply, draw, Worth(Amounts(held), chosen), amount), |AmountSplit(amount)|;
            var after := Merge(Part(held, chosen, false), made[cut..]);
            PaidOut(held, after, made[..cut], amount, draw) && Sane(held, after, draw)
  {
    var worth := Worth(Amounts(held), chosen);
    var made, cut := Made(reply, draw, worth, amount), |AmountSplit(amount)|;
    MintedSplit(reply.keyset, reply.sigs, draw, amount, worth - amount);
    assert made[..cut] + made[cut..] == made;
    ChangeJoins(held, chosen, made[..cut], made[cut..], draw);
  }

  /**
   * The balance covers the amount, the selection was taken but is not exact, and
   * the mint calls it spent or the change it made cannot be written.
   */
  ghost predicate Loses(held: seq<Proof>, amount: nat, draw: nat -> string, reply: SwapReply, works: nat -> bool,
                        n: nat) {
    && 0 < amount <= Total(held) && works(n) && Picked(held, amount) != amount
    && (reply == HubError(CONFLICT) || (SwapWorks(reply, draw, Picked(held, amount), amount) && !works(n + 1)))
  }

  /** Those are exactly the reservations that cost sats without handing any out. */
  lemma {:induction false} LosesExact(held: seq<Proof>, amount: nat, draw: nat -> string, reply: SwapReply,
                                      works: nat -> bool, n: nat)
    ensures LossOf(held, amount, Reserving(held, amount, draw, reply, works, n).result) > 0
            <==> Loses(held, amount, draw, reply, works, n)
  {
    if 0 < amount <= Total(held) { SelectionCovers(held, amount); }
  }

  /** A wallet holding one proof that is too large loses all of it to a 409. */
  lemma {:induction false} OneProofLost(p: Proof, amount: nat, draw: nat -> string, works: nat -> bool, n: nat)
    requires 0 < amount < p.amount && works(n)
    ensures var v := Reserving([p], amount, draw, HubError(CONFLICT), works, n);
            v.result == NotReserved(ProofsSpent) && v.after == [] && LossOf([p], amount, v.result) == p.amount
  {
    var held, none: seq<Proof> := [p], [];
    var chosen := Chosen(Amounts(held), amount);
    assert none + [p] == held;
    SumByPush(none, p, ProofAmount);
    SelectionCovers(held, amount);
    ChosenCovers(Amounts(held), amount);
    PartWorth(held, chosen);
    PartStep(held, chosen);
    assert held[..0] == none && Part(none, chosen, true) == none && Part(none, chosen, false) == none;
  }

  /** It succeeds if and only if the selection is exact or is changed by the mint, and every write works. */
  lemma {:induction false} ReservesExact(held: seq<Proof>, amount: nat, draw: nat -> string, reply: SwapReply,
                                         works: nat -> bool, n: nat)
    ensures Reserving(held, amount, draw, reply, works, n).result.Got? <==>
            0 < amount <= Total(held) && works(n)
            && (Picked(held, amount) == amount
                || (SwapWorks(reply, draw, Picked(held, amount), amount) && works(n + 1)))
  {
  }

  class Wallet {
    const store: EncryptedProofStore
    const hub: string

    constructor (store: EncryptedProofStore, hub: string)
      ensures this.store == store && this.hub == hub
    {
      this.store, this.hub := store, hub;
    }

    /** Checks every signature against what was asked for; one mismatch fails the lot. */
    method UnblindSignatures(keyset: KeysetInfo, sigs: seq<BlindSignature>, states: seq<BlindState>)
      returns (r: Unblinded)
      ensures r.Proofs? <==> Matches(keyset, sigs, states)
      ensures r.Proofs? ==> r.proofs == Minted(keyset, sigs, states)
    {
      if |sigs| != |states| { return BadSignatures; }
      var proofs := [];
      for n := 0 to |sigs|
        invariant proofs == Minted(keyset, sigs[..n], states[..n])
        invariant Matches(keyset, sigs[..n], states[..n])
      {
        var sig, state := sigs[n], states[n];
        if sig.amount != state.amount { return BadSignatures; }
        if sig.c.Garbled? { return BadSignatures; }
        if state.amount !in keyset.amounts { return BadSignatures; }
        proofs := proofs + [Proof(keyset.id, state.amount, state.secret, sig.c)];
        assert forall i :: 0 <= i < n ==> sigs[..n][i] == sigs[i] && states[..n][i] == states[i];
      }
      assert sigs[..|sigs|] == sigs && states[..|states|] == states;
      return Proofs(proofs);
    }

    /** Exchanges the inputs for proofs worth exactly the amount and proofs worth the rest. */
    method SwapForChange(inputs: seq<Proof>, amount: nat, draw: nat -> string, reply: SwapReply) returns (r: Change)
      ensures r.Swapped? <==> SwapWorks(reply, draw, Total(inputs), amount)
      ensures r.Swapped? ==> Total(r.payment) == amount && Total(r.change) == Total(inputs) - amount
                             && r.payment + r.change == Made(reply, draw, Total(inputs), amount)
                             && |r.payment| == |AmountSplit(amount)|
      ensures r.Swapped? && Injective(draw) ==>
                && Distinct(r.payment + r.change)
                && forall x :: x in Secrets(r.payment + r.change) ==> Draws(draw, x)
    {
      var total := store.TotalOf(inputs);
      if total < amount { return NoChange; }
      if !reply.Signatures? { return NoChange; }
      if reply.keyset.id == "" { return NoChange; }
      var payments, changes := AmountSplit(amount), AmountSplit(total - amount);
      var amounts := payments + changes;
      var unblinded := UnblindSignatures(reply.keyset, reply.sigs, States(draw, amounts));
      if unblinded.BadSignatures? { return NoChange; }
      var proofs, cut := unblinded.proofs, |payments|;
      MintedSplit(reply.keyset, reply.sigs, draw, amount, total - amount);
      assert proofs[..cut] + proofs[cut..] == proofs;
      return Swapped(proofs[..cut], proofs[cut..]);
    }

    /**
     * Takes proofs worth exactly the amount out of the store. On success the
     * balance falls by exactly that amount and nothing handed out stays behind. On
     * failure the same proofs are held, except that a selection the mint calls
     * spent is dropped, and a payment whose change could not be written is lost.
     */
    method Reserve(amount: nat, draw: nat -> string, reply: SwapReply) returns (r: Reserved)
      requires hub != "" && Distinct(store.Held(hub)) && Fresh(draw, Secrets(store.Held(hub)))
      modifies store
      ensures Reservation(r, store.Held(hub), store.writes)
              == Reserving(old(store.Held(hub)), amount, draw, reply, store.works, old(store.writes))
      ensures Accounted(old(store.Held(hub)), amount, draw, Reservation(r, store.Held(hub), store.writes))
      ensures store.hubs - {hub} == old(store.hubs) - {hub}
    {
      ReservingAccounts(store.Held(hub), amount, draw, reply, store.works, store.writes);
      r := TakeOrExchange(amount, draw, reply);
    }

    method TakeOrExchange(amount: nat, draw: nat -> string, reply: SwapReply) returns (r: Reserved)
      requires hub != ""
      modifies store
      ensures Reservation(r, store.Held(hub), store.writes)
              == Reserving(old(store.Held(hub)), amount, draw, reply, store.works, old(store.writes))
      ensures store.hubs - {hub} == old(store.hubs) - {hub}
    {
      ghost var held := store.Held(hub);
      var took := store.Take(hub, amount);
      if took.Refused? { return NotReserved(NotTaken); }
      ghost var n := store.writes;
      SelectionCovers(held, amount);
      r := PayOrExchange(took.proofs, amount, draw, reply, held);
      assert Reservation(r, store.Held(hub), store.writes)
             == Paying(held, Chosen(Amounts(held), amount), amount, draw, reply, store.works, n);
      assert n == old(store.writes) + 1;
    }

    method PayOrExchange(taken: seq<Proof>, amount: nat, draw: nat -> string, reply: SwapReply, ghost held: seq<Proof>)
      returns (r: Reserved)
      requires hub != "" && 0 < amount <= Picked(held, amount)
      requires var chosen := Chosen(Amounts(held), amount);
               taken == Part(held, chosen, true) && store.Held(hub) == Part(held, chosen, false)
      modifies store
      ensures Reservation(r, store.Held(hub), store.writes)
              == Paying(held, Chosen(Amounts(held), amount), amount, draw, reply, store.works, old(store.writes))
      ensures store.hubs - {hub} == old(store.hubs) - {hub}
    {
      PartWorth(held, Chosen(Amounts(held), amount));
      var worth := store.TotalOf(taken);
      if worth == amount { return Got(taken); }
      r := Exchange(taken, amount, draw, reply, held);
    }

    /** Has the proofs taken changed for exact ones, or puts them back unless the mint says they are spent. */
    method Exchange(taken: seq<Proof>, amount: nat, draw: nat -> string, reply: SwapReply, ghost held: seq<Proof>)
      returns (r: Reserved)
      requires hub != "" && 0 < amount < Total(taken)
      requires var chosen := Chosen(Amounts(held), amount);
               taken == Part(held, chosen, true) && store.Held(hub) == Part(held, chosen, false)
      modifies store
      ensures Reservation(r, store.Held(hub), store.writes)
              == Exchanging(held, Chosen(Amounts(held), amount), amount, draw, reply, store.works, old(store.writes))
      ensures store.hubs - {hub} == old(store.hubs) - {hub}
    {
      PartWorth(held, Chosen(Amounts(held), amount));
      var swap := SwapForChange(taken, amount, draw, reply);
      if swap.NoChange? {
        if reply == HubError(CONFLICT) { return NotReserved(ProofsSpent); }
        var back := store.Add(hub, taken);
        return NotReserved(NoExchange);
      }
      assert swap.payment + swap.change == (swap.payment + swap.change)[..|swap.payment|] + swap.change;
      if swap.change != [] {
        var saved := store.Add(hub, swap.change);
        if !saved { return NotReserved(ChangeNotSaved); }
      }
      return Got(swap.payment);
    }

    /** Returns reserved proofs that were never presented. */
    method Release(proofs: seq<Proof>) returns (ok: bool)
      requires hub != ""
      modifies store
      ensures store.Held(hub) == Merge(old(store.Held(hub)), proofs)
      ensures store.hubs - {hub} == old(store.hubs) - {hub}
      ensures ok <==> proofs == [] || store.works(old(store.writes))
      ensures store.writes == old(store.writes) + if proofs == [] then 0 else 1
    {
      if proofs == [] { return true; }
      ok := store.Add(hub, proofs);
    }
  }
}
