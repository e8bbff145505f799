/** Paying two nodes for a session, with every way out of the procedure accounted for. */
module Connects {
  import opened Sums
  import opened Ecash
  import opened EcashStores
  import opened Holdings
  import opened Verdicts
  import opened ProofStores
  import opened Wallets
  import Tunnels

  datatype State = Disconnected | Connecting | Online | Disconnecting

  datatype Session = NoSession | Session(entryIP: string, exitIP: string, spentSats: nat)

  /** One hop's payment: never sent, or sent and travelling as Verdicts describes. */
  datatype Hop =
    | NotSent
    | Sent(verdict: HubVerdict, hubLink: Link, admission: Admission, nodeKey: string, nodeLink: Link)

  function ReplyOf(mode: Delivery, hop: Hop): ConnectReply {
    match hop
    case NotSent => OtherError
    case Sent(verdict, hubLink, admission, nodeKey, nodeLink) =>
      EndToEnd(mode, verdict, hubLink, admission, nodeKey, nodeLink)
  }

  /** The hub's verdict reached the node and the node's reply reached the client. */
  predicate Heard(hop: Hop) {
    hop.Sent? ==> hop.hubLink.Delivered? && hop.nodeLink.Delivered? && hop.nodeKey != ""
                  && (hop.admission.PeerFailed? ==> hop.admission.detail != "")
  }

  /** The hub's verdict was that the hop's proofs are spent, by this request or by an earlier one. */
  predicate CalledSpent(hop: Hop) {
    hop.Sent? && (hop.verdict.Burned? || hop.verdict == HubVerdict.Refused(AlreadySpent))
  }

  lemma {:induction false} HeardExactly(mode: Delivery, hop: Hop)
    requires Heard(hop)
    ensures TreatAsSpent(ReplyOf(mode, hop)) <==> CalledSpent(hop)
  {
    if hop.Sent? {
      DeliveredVerdictExact(mode, hop.verdict, hop.admission, hop.nodeKey);
    }
  }

  /** The proofs were burned, the peer let in, and both answers arrived. */
  predicate Admitted(hop: Hop) {
    && hop.Sent? && hop.verdict.Burned? && hop.admission.Granted? && hop.nodeKey != ""
    && hop.hubLink.Delivered? && hop.nodeLink.Delivered?
  }

  /** The address a node granted, as a host prefix. */
  function GrantedBy(hop: Hop): string
    requires Admitted(hop)
  {
    hop.admission.tunnelIP + "/32"
  }

  /** The client is connected exactly to a node that admitted it, and then under the address granted. */
  lemma {:induction false} ConnectedExact(mode: Delivery, hop: Hop)
    ensures ReplyOf(mode, hop).Connected? <==> Admitted(hop)
    ensures Admitted(hop) ==> ReplyOf(mode, hop).tunnelIP == GrantedBy(hop)
  {
  }

  /** What the outside world answers during one connect or one top-up. */
  datatype World = World(
    pairUsable: bool, keysReady: bool, preflight: bool, endpointsValid: bool,
    entryDraw: nat -> string, entryChange: SwapReply,
    exitDraw: nat -> string, exitChange: SwapReply,
    relaysUp: bool,
    entry: Hop, outerUp: bool, exit: Hop, innerUp: bool, tunnelUp: bool)

  /** The two payments taken from the wallet, and whether each was given up. */
  datatype Payments = Payments(entry: seq<Proof>, exit: seq<Proof>, entrySpent: bool, exitSpent: bool)

  const NOTHING := Payments([], [], false, false)

  datatype Outcome = Outcome(ok: bool, entryAsked: bool, exitAsked: bool, paid: Payments)

  function Price(spent: bool, perHop: nat): nat { if spent then perHop else 0 }

  function Unspent(p: Payments): seq<Proof> {
    (if p.entrySpent then [] else p.entry) + (if p.exitSpent then [] else p.exit)
  }

  /** Both payments are out of the wallet: exact, apart from each other and from what is left. */
  ghost predicate BothOut(before: seq<Proof>, left: seq<Proof>, p: Payments, perHop: nat) {
    && Distinct(left) && Distinct(p.entry) && Distinct(p.exit)
    && Total(p.entry) == perHop && Total(p.exit) == perHop
    && Total(left) + perHop + perHop == Total(before)
    && Secrets(p.entry) !! Secrets(p.exit)
    && Secrets(p.entry) !! Secrets(left)
    && Secrets(p.exit) !! Secrets(left)
  }

  /**
   * A hop given up is gone, a hop not given up is back, and the balance fell by the
   * hops given up and what was lost.
   */
  ghost predicate Settled(before: seq<Proof>, after: seq<Proof>, p: Payments, perHop: nat, lost: nat) {
    && Distinct(after)
    && Total(after) + Price(p.entrySpent, perHop) + Price(p.exitSpent, perHop) + lost == Total(before)
    && (p.entrySpent ==> Total(p.entry) == perHop && Secrets(p.entry) !! Secrets(after))
    && (p.exitSpent ==> Total(p.exit) == perHop && Secrets(p.exit) !! Secrets(after))
    && (!p.entrySpent ==> Secrets(p.entry) <= Secrets(after))
    && (!p.exitSpent ==> Secrets(p.exit) <= Secrets(after))
    && Secrets(p.entry) !! Secrets(p.exit)
  }

  /**
   * A hop's proofs are given up only if they were sent; and if they were sent and
   * the answers were heard, exactly when the hub's verdict was that they are spent.
   */
  predicate Faithful(asked: bool, hop: Hop, spent: bool) {
    && (spent ==> asked && hop.Sent?)
    && (asked && Heard(hop) ==> (spent <==> CalledSpent(hop)))
  }

  /** The secrets drawn for one reservation are new to the wallet and to the other one. */
  ghost predicate FreshDraws(w: World, names: set<string>) {
    && Fresh(w.entryDraw, names)
    && Fresh(w.exitDraw, names)
    && forall i: nat :: !Draws(w.exitDraw, w.entryDraw(i))
  }

  /** No secret but those there were before and those drawn. */
  ghost predicate Known(before: set<string>, w: World, names: set<string>) {
    forall x :: x in names ==> x in before || Draws(w.entryDraw, x) || Draws(w.exitDraw, x)
  }

  /** Reserving for the entry ... */
  ghost function First(held: seq<Proof>, perHop: nat, w: World, works: nat -> bool, n: nat): Reservation {
    Reserving(held, perHop, w.entryDraw, w.entryChange, works, n)
  }

  /** ... and, if that succeeded, for the exit. */
  ghost function Second(one: Reservation, perHop: nat, w: World, works: nat -> bool): Reservation {
    Reserving(one.after, perHop, w.exitDraw, w.exitChange, works, one.writes)
  }

  ghost predicate BothReserve(held: seq<Proof>, perHop: nat, w: World, works: nat -> bool, n: nat) {
    var one := First(held, perHop, w, works, n);
    one.result.Got? && Second(one, perHop, w, works).result.Got?
  }

  /** What the two reservations cost without handing it out. */
  ghost function LostReserving(held: seq<Proof>, perHop: nat, w: World, works: nat -> bool, n: nat): nat {
    var one := First(held, perHop, w, works, n);
    if one.result.NotReserved? then LossOf(held, perHop, one.result)
    else LossOf(one.after, perHop, Second(one, perHop, w, works).result)
  }

  /**
   * Sats are lost if and only if the first reservation loses them, or it succeeds
   * and the second one does: a selection that needed change, with a 409 from the
   * mint or change that could not be written. Then nothing was sent to any node.
   */
  lemma {:induction false} LostReservingExact(held: seq<Proof>, perHop: nat, w: World, works: nat -> bool, n: nat)
    ensures var one := First(held, perHop, w, works, n);
            LostReserving(held, perHop, w, works, n) > 0 <==>
            Loses(held, perHop, w.entryDraw, w.entryChange, works, n)
            || (one.result.Got? && Loses(one.after, perHop, w.exitDraw, w.exitChange, works, one.writes))
    ensures LostReserving(held, perHop, w, works, n) > 0 ==> !BothReserve(held, perHop, w, works, n)
  {
    var one := First(held, perHop, w, works, n);
    LosesExact(held, perHop, w.entryDraw, w.entryChange, works, n);
    LosesExact(one.after, perHop, w.exitDraw, w.exitChange, works, one.writes);
  }

  /** What two reservations and giving the first payment back leave in sight. */
  lemma {:induction false} BothKnown(before: seq<Proof>, middle: seq<Proof>, after: seq<Proof>, entry: seq<Proof>,
                                     exit: seq<Proof>, perHop: nat, w: World)
    requires PaidOut(before, middle, entry, perHop, w.entryDraw) && Sane(before, middle, w.entryDraw)
    requires Sane(middle, after, w.exitDraw)
    requires forall x :: x in Secrets(exit) ==> Around(Secrets(middle), w.exitDraw, x)
    ensures Known(Secrets(before), w, Secrets(after) + Secrets(entry) + Secrets(exit))
  {
  }

  lemma {:induction false} StillFresh(before: seq<Proof>, middle: seq<Proof>, w: World)
    requires FreshDraws(w, Secrets(before)) && Sane(before, middle, w.entryDraw)
    ensures Fresh(w.exitDraw, Secrets(middle))
  {
  }

  /** Two reservations in a row hand out disjoint payments. */
  lemma {:induction false} ReservedBoth(before: seq<Proof>, middle: seq<Proof>, left: seq<Proof>, p: Payments,
                                        perHop: nat, w: World)
    requires FreshDraws(w, Secrets(before))
    requires PaidOut(before, middle, p.entry, perHop, w.entryDraw) && Sane(before, middle, w.entryDraw)
    requires PaidOut(middle, left, p.exit, perHop, w.exitDraw) && Sane(middle, left, w.exitDraw)
    ensures BothOut(before, left, p, perHop)
  {
  }

  /** What was not given up: no doubles, its secrets, its worth. */
  lemma {:induction false} UnspentWorth(p: Payments, perHop: nat)
    requires Distinct(p.entry) && Distinct(p.exit) && Secrets(p.entry) !! Secrets(p.exit)
    requires Total(p.entry) == perHop && Total(p.exit) == perHop
    ensures Distinct(Unspent(p))
    ensures Secrets(Unspent(p))
            == (if p.entrySpent then {} else Secrets(p.entry)) + (if p.exitSpent then {} else Secrets(p.exit))
    ensures Total(Unspent(p)) + Price(p.entrySpent, perHop) + Price(p.exitSpent, perHop) == perHop + perHop
  {
    var entry := if p.entrySpent then [] else p.entry;
    var exit := if p.exitSpent then [] else p.exit;
    DistinctConcat(entry, exit);
    SecretsConcat(entry, exit);
    SumByConcat(entry, exit, ProofAmount);
  }

  /** Giving back what was not given up settles the books. */
  lemma {:induction false} GivingBackSettles(before: seq<Proof>, left: seq<Proof>, p: Payments, perHop: nat)
    requires BothOut(before, left, p, perHop)
    ensures Settled(before, Merge(left, Unspent(p)), p, perHop, 0)
  {
    var back := Unspent(p);
    UnspentWorth(p, perHop);
    MergeNew(left, back);
    MergeKeeps(left, back);
    SumByConcat(left, back, ProofAmount);
  }

  lemma {:induction false} SecretsOfSame(a: seq<Proof>, b: seq<Proof>)
    requires multiset(a) == multiset(b)
    ensures Secrets(a) == Secrets(b)
  {
    forall x | x in Secrets(a) ensures x in Secrets(b) {
      var i :| 0 <= i < |a| && a[i].secret == x;
      assert a[i] in multiset(a) && a[i] in b;
    }
    forall x | x in Secrets(b) ensures x in Secrets(a) {
      var i :| 0 <= i < |b| && b[i].secret == x;
      assert b[i] in multiset(b) && b[i] in a;
    }
  }

  /** The first payment goes back when the second could not be reserved, whatever that cost. */
  lemma {:induction false} FirstGoesBack(before: seq<Proof>, middle: seq<Proof>, v: Reservation, entry: seq<Proof>,
                                         perHop: nat, w: World)
    requires FreshDraws(w, Secrets(before))
    requires PaidOut(before, middle, entry, perHop, w.entryDraw) && Sane(before, middle, w.entryDraw)
    requires v.result.NotReserved? && Accounted(middle, perHop, w.exitDraw, v)
    ensures Settled(before, Merge(v.after, entry), NOTHING, perHop, LossOf(middle, perHop, v.result))
  {
    EntryApart(before, middle, v.after, entry, perHop, w);
    MergeNew(v.after, entry);
    MergeKeeps(v.after, entry);
    SumByConcat(v.after, entry, ProofAmount);
  }

  lemma {:induction false} EntryApart(before: seq<Proof>, middle: seq<Proof>, after: seq<Proof>, entry: seq<Proof>,
                                      perHop: nat, w: World)
    requires FreshDraws(w, Secrets(before))
    requires PaidOut(before, middle, entry, perHop, w.entryDraw) && Sane(middle, after, w.exitDraw)
    ensures Secrets(entry) !! Secrets(after)
  {
  }

  class Service {
    var state: State
    var session: Session
    const wallet: Wallet
    const delivery: Delivery
    const staged: bool   // the tunnel can be brought up one hop at a time

    constructor (wallet: Wallet, delivery: Delivery, staged: bool)
      ensures state == Disconnected && session == NoSession
      ensures this.wallet == wallet && this.delivery == delivery && this.staged == staged
    {
      state, session := Disconnected, NoSession;
      this.wallet, this.delivery, this.staged := wallet, delivery, staged;
    }

    function Held(): seq<Proof>
      reads wallet.store`hubs
    {
      wallet.store.Held(wallet.hub)
    }

    /** At rest the service is either on with a session or off without one. */
    predicate Valid()
      reads this
    {
      if session.Session? then state == Online else state == Disconnected
    }

    /** A wallet bound to a hub, without doubled secrets. */
    ghost predicate Ready(w: World)
      reads wallet.store`hubs
    {
      wallet.hub != "" && Distinct(Held()) && FreshDraws(w, Secrets(Held()))
    }

    /** What reserving both payments now would lose. */
    ghost function LostNow(perHop: nat, w: World): nat
      reads wallet.store`hubs, wallet.store`writes
    {
      LostReserving(Held(), perHop, w, wallet.store.works, wallet.store.writes)
    }

    ghost predicate BothReservable(perHop: nat, w: World)
      reads wallet.store`hubs, wallet.store`writes
    {
      BothReserve(Held(), perHop, w, wallet.store.works, wallet.store.writes)
    }

    /** Reserves both payments, or neither. */
    method ReserveBoth(perHop: nat, w: World) returns (ok: bool, p: Payments)
      requires Ready(w)
      modifies wallet.store
      ensures ok <==> old(BothReservable(perHop, w))
      ensures ok ==>
                BothOut(old(Held()), Held(), p, perHop) && !p.entrySpent && !p.exitSpent && old(LostNow(perHop, w)) == 0
      ensures !ok ==> p == NOTHING && Settled(old(Held()), Held(), p, perHop, old(LostNow(perHop, w)))
      ensures Known(old(Secrets(Held())), w, Secrets(Held()) + Secrets(p.entry) + Secrets(p.exit))
    {
      ghost var before := Held();
      var first := wallet.Reserve(perHop, w.entryDraw, w.entryChange);
      ghost var middle := Held();
      if first.NotReserved? { return false, NOTHING; }
      StillFresh(before, middle, w);
      var second := wallet.Reserve(perHop, w.exitDraw, w.exitChange);
      if second.NotReserved? {
        FirstGoesBack(before, middle, Reservation(second, Held(), wallet.store.writes), first.proofs, perHop, w);
        MergeKeeps(Held(), first.proofs);
        BothKnown(before, middle, Held(), first.proofs, [], perHop, w);
        var back := wallet.Release(first.proofs);
        return false, NOTHING;
      }
      p := Payments(first.proofs, second.proofs, false, false);
      ReservedBoth(before, middle, Held(), p, perHop, w);
      BothKnown(before, middle, Held(), p.entry, p.exit, perHop, w);
      return true, p;
    }

    /** Puts back the payments not given up. */
    method Refund(p: Payments, ghost before: seq<Proof>, ghost perHop: nat)
      requires wallet.hub != "" && BothOut(before, Held(), p, perHop)
      modifies wallet.store
      ensures Settled(before, Held(), p, perHop, 0)
      ensures Secrets(Held()) <= old(Secrets(Held())) + Secrets(p.entry) + Secrets(p.exit)
    {
      MergeKeeps(Held(), Unspent(p));
      UnspentWorth(p, perHop);
      GivingBackSettles(before, Held(), p, perHop);
      var back := wallet.Release(Unspent(p));
    }

    /** Relays are only needed to deliver proofs over them. */
    predicate CanSend(w: World) { delivery.Http? || w.relaysUp }

    /** The exit is paid through the entry when proofs travel over HTTP. */
    predicate Stages() { staged && delivery.Http? }

    /** Both nodes accept, with the outer hop up in between when the connect is staged. */
    predicate BothAccept(w: World, outer: bool) {
      CanSend(w) && Admitted(w.entry) && (outer ==> w.outerUp) && Admitted(w.exit)
    }

    /** Sends the entry's payment, then, once the entry is up, the exit's. */
    method PayBoth(p: Payments, w: World, outer: bool, ghost before: seq<Proof>, ghost perHop: nat) returns (o: Outcome)
      requires wallet.hub != "" && BothOut(before, Held(), p, perHop) && !p.entrySpent && !p.exitSpent
      modifies wallet.store
      ensures Settled(before, Held(), o.paid, perHop, 0)
      ensures Secrets(Held()) <= old(Secrets(Held())) + Secrets(p.entry) + Secrets(p.exit)
      ensures o.ok <==> BothAccept(w, outer)
      ensures o.ok ==> o.entryAsked && o.exitAsked && o.paid.entrySpent && o.paid.exitSpent
      ensures o.entryAsked <==> CanSend(w)
      ensures o.exitAsked <==> o.entryAsked && Admitted(w.entry) && (outer ==> w.outerUp)
      ensures Faithful(o.entryAsked, w.entry, o.paid.entrySpent) && Faithful(o.exitAsked, w.exit, o.paid.exitSpent)
    {
      ConnectedExact(delivery, w.entry);
      ConnectedExact(delivery, w.exit);
      if delivery.Nip44? && !w.relaysUp {
        Refund(p, before, perHop);
        return Outcome(false, false, false, p);
      }
      if Heard(w.entry) { HeardExactly(delivery, w.entry); }
      if Heard(w.exit) { HeardExactly(delivery, w.exit); }
      var entryReply := ReplyOf(delivery, w.entry);
      if !entryReply.Connected? {
        var failed := p.(entrySpent := TreatAsSpent(entryReply));
        Refund(failed, before, perHop);
        return Outcome(false, true, false, failed);
      }
      var entered := p.(entrySpent := true);
      if outer && !w.outerUp {
        Refund(entered, before, perHop);
        return Outcome(false, true, false, entered);
      }
      var exitReply := ReplyOf(delivery, w.exit);
      if !exitReply.Connected? {
        var failed := entered.(exitSpent := TreatAsSpent(exitReply));
        Refund(failed, before, perHop);
        return Outcome(false, true, true, failed);
      }
      var both := entered.(exitSpent := true);
      GivingBackSettles(before, Held(), both, perHop);
      assert Merge(Held(), Unspent(both)) == Held();
      return Outcome(true, true, true, both);
    }

    /** Reserves both payments and pays both nodes; reserving can lose sats, paying cannot. */
    method ReserveAndPay(perHop: nat, w: World, outer: bool) returns (o: Outcome)
      requires Ready(w)
      modifies wallet.store
      ensures Settled(old(Held()), Held(), o.paid, perHop, old(LostNow(perHop, w)))
      ensures Known(old(Secrets(Held())), w, Secrets(Held()))
      ensures o.ok <==> old(BothReservable(perHop, w)) && BothAccept(w, outer)
      ensures o.ok ==> o.paid.entrySpent && o.paid.exitSpent
      ensures o.entryAsked <==> old(BothReservable(perHop, w)) && CanSend(w)
      ensures o.exitAsked <==> o.entryAsked && Admitted(w.entry) && (outer ==> w.outerUp)
      ensures Faithful(o.entryAsked, w.entry, o.paid.entrySpent) && Faithful(o.exitAsked, w.exit, o.paid.exitSpent)
    {
      ghost var before := Held();
      var reserved, p := ReserveBoth(perHop, w);
      if !reserved { return Outcome(false, false, false, NOTHING); }
      o := PayBoth(p, w, outer, before, perHop);
    }

    /** The node pair, the keys and the tunnel are in order, so money may be spent. */
    predicate Cleared(w: World) {
      w.pairUsable && (delivery.Http? ==> staged) && w.keysReady && w.preflight && w.endpointsValid
    }

    /**
     * One connect. Whatever stage it ends at, the balance has dropped by the price
     * of exactly the hops given up plus what reserving lost, the other payments
     * are back, and a payment whose answers were heard is given up exactly when
     * the hub's verdict was that it is spent.
     */
    method Connect(perHop: nat, w: World) returns (o: Outcome)
      requires Valid() && Ready(w)
      modifies this, wallet.store
      ensures Valid()
      ensures var inStages := staged && delivery.Http?;
              var reached := perHop > 0 && old(state) == Disconnected && w.pairUsable && (delivery.Http? ==> staged)
                             && w.keysReady && w.preflight && w.endpointsValid;
              var sent := reached && old(BothReservable(perHop, w)) && (delivery.Http? || w.relaysUp);
              && Settled(old(Held()), Held(), o.paid, perHop, if reached then old(LostNow(perHop, w)) else 0)
              && (o.ok <==> sent && Admitted(w.entry) && Admitted(w.exit)
                            && if inStages then w.outerUp && w.innerUp else w.tunnelUp)
              && (!reached ==> Held() == old(Held()))
              && (o.entryAsked <==> sent)
              && (o.exitAsked <==> sent && Admitted(w.entry) && (inStages ==> w.outerUp))
      ensures Known(old(Secrets(Held())), w, Secrets(Held()))
      ensures Faithful(o.entryAsked, w.entry, o.paid.entrySpent) && Faithful(o.exitAsked, w.exit, o.paid.exitSpent)
      ensures o.ok ==> o.paid.entrySpent && o.paid.exitSpent && Admitted(w.entry) && Admitted(w.exit)
                       && session == Session(GrantedBy(w.entry), GrantedBy(w.exit), Total(old(Held())) - Total(Held()))
      ensures !o.ok ==> state == old(state) && session == old(session)
    {
      if perHop == 0 || state != Disconnected { return Outcome(false, false, false, NOTHING); }
      state := Connecting;
      o := TryConnect(perHop, w);
      Conclude(o.ok, perHop, w);
    }

    /** Both replies open a session under the addresses granted; otherwise the service is off again. */
    method Conclude(connected: bool, perHop: nat, w: World)
      requires session == NoSession && (connected ==> BothAccept(w, Stages()))
      modifies this
      ensures Valid()
      ensures session
              == if connected then Session(GrantedBy(w.entry), GrantedBy(w.exit), perHop + perHop) else NoSession
    {
      if !connected {
        state := Disconnected;
        return;
      }
      ConnectedExact(delivery, w.entry);
      ConnectedExact(delivery, w.exit);
      state := Online;
      session := Session(ReplyOf(delivery, w.entry).tunnelIP, ReplyOf(delivery, w.exit).tunnelIP, perHop + perHop);
    }

    method TryConnect(perHop: nat, w: World) returns (o: Outcome)
      requires Ready(w)
      modifies wallet.store
      ensures Settled(old(Held()), Held(), o.paid, perHop, if Cleared(w) then old(LostNow(perHop, w)) else 0)
      ensures o.ok <==> Cleared(w) && old(BothReservable(perHop, w)) && BothAccept(w, Stages())
                        && if Stages() then w.innerUp else w.tunnelUp
      ensures !Cleared(w) ==> Held() == old(Held())
      ensures Known(old(Secrets(Held())), w, Secrets(Held()))
      ensures o.entryAsked <==> Cleared(w) && old(BothReservable(perHop, w)) && CanSend(w)
      ensures o.exitAsked <==> o.entryAsked && Admitted(w.entry) && (Stages() ==> w.outerUp)
      ensures Faithful(o.entryAsked, w.entry, o.paid.entrySpent) && Faithful(o.exitAsked, w.exit, o.paid.exitSpent)
      ensures o.ok ==> o.paid.entrySpent && o.paid.exitSpent
    {
      o := Outcome(false, false, false, NOTHING);
      if !w.pairUsable { return; }
      if delivery.Http? && !staged { return; }
      if !w.keysReady { return; }
      if !w.preflight { return; }
      if !w.endpointsValid { return; }

      o := ReserveAndPay(perHop, w, Stages());
      if !o.ok { return; }
      if Stages() {
        if !w.innerUp { return o.(ok := false); }
      } else if !w.tunnelUp {
        return o.(ok := false);
      }
    }

    /**
     * Pays both nodes of the live session again, with the tunnel up throughout.
     * What another call made of the session in the meantime is a parameter: once
     * both nodes answered, a session that has ended or a moved tunnel address
     * fails the top-up although both payments are spent.
     */
    method Extend(perHop: nat, w: World, meanwhile: Session) returns (o: Outcome)
      requires Valid() && Ready(w)
      modifies this, wallet.store
      ensures Valid()
      ensures var reached := perHop > 0 && old(state) == Online;
              var sent := reached && old(BothReservable(perHop, w)) && (delivery.Http? || w.relaysUp);
              var accepted := sent && Admitted(w.entry) && Admitted(w.exit);
              && Settled(old(Held()), Held(), o.paid, perHop, if reached then old(LostNow(perHop, w)) else 0)
              && (!reached ==> Held() == old(Held()))
              && (o.entryAsked <==> sent) && (o.exitAsked <==> sent && Admitted(w.entry))
              && (o.ok <==> accepted && meanwhile.Session? && meanwhile.entryIP == GrantedBy(w.entry)
                            && meanwhile.exitIP == GrantedBy(w.exit))
              && (accepted ==> o.paid.entrySpent && o.paid.exitSpent)
              && session == (if o.ok then meanwhile.(spentSats := meanwhile.spentSats + perHop + perHop)
                             else if accepted then meanwhile else old(session))
      ensures Faithful(o.entryAsked, w.entry, o.paid.entrySpent) && Faithful(o.exitAsked, w.exit, o.paid.exitSpent)
    {
      o := Outcome(false, false, false, NOTHING);
      if perHop == 0 || state != Online || session == NoSession { return; }
      o := ReserveAndPay(perHop, w, false);
      if !o.ok { return; }
      var added := AddToSession(perHop, w, meanwhile);
      o := o.(ok := added);
    }

    /** Counts both payments towards the session, if it is still there under the same addresses. */
    method AddToSession(perHop: nat, w: World, meanwhile: Session) returns (ok: bool)
      requires BothAccept(w, false)
      modifies this
      ensures Valid()
      ensures ok <==> meanwhile.Session? && meanwhile.entryIP == GrantedBy(w.entry)
                      && meanwhile.exitIP == GrantedBy(w.exit)
      ensures session == if ok then meanwhile.(spentSats := meanwhile.spentSats + perHop + perHop) else meanwhile
    {
      ConnectedExact(delivery, w.entry);
      ConnectedExact(delivery, w.exit);
      state, session := if meanwhile.NoSession? then Disconnected else Online, meanwhile;
      if session == NoSession { return false; }
      var entryIP, exitIP := ReplyOf(delivery, w.entry).tunnelIP, ReplyOf(delivery, w.exit).tunnelIP;
      if entryIP != session.entryIP || exitIP != session.exitIP { return false; }
      session := session.(spentSats := session.spentSats + perHop + perHop);
      return true;
    }

    /**
     * Ends the session whether or not the tunnel came down cleanly. It reports
     * success exactly when the machine is as it was before the tunnel, and in
     * particular whenever nothing failed during the teardown.
     */
    method Disconnect(tunnel: Tunnels.Tunnel?) returns (ok: bool)
      requires Valid() && (tunnel != null ==> tunnel.Valid())
      modifies this
      modifies if tunnel != null then {tunnel, tunnel.host} + tunnel.States() else {}
      ensures Valid() && session == NoSession && state == Disconnected
      ensures tunnel != null ==> tunnel.Valid() && (old(state) == Online ==> tunnel.active == null)
      ensures ok <==> old(state) == Online && (tunnel == null || tunnel.Restored())
      ensures tunnel != null && old(state) == Online ==> (ok <==> tunnel.host.failures == old(tunnel.host.failures))
    {
      if state != Online { return false; }
      state := Disconnecting;
      ok := true;
      if tunnel != null { ok := tunnel.Down(); }
      state, session := Disconnected, NoSession;
    }
  }

  /** The secrets drawn for a later call are new to the wallet, now and after an earlier call. */
  ghost predicate NewDraws(earlier: World, later: World, names: set<string>) {
    && FreshDraws(later, names)
    && (forall i: nat :: !Draws(earlier.entryDraw, later.entryDraw(i)) && !Draws(earlier.exitDraw, later.entryDraw(i)))
    && (forall i: nat :: !Draws(earlier.entryDraw, later.exitDraw(i)) && !Draws(earlier.exitDraw, later.exitDraw(i)))
  }

  lemma {:induction false} StillNew(earlier: World, later: World, before: set<string>, after: set<string>)
    requires NewDraws(earlier, later, before) && Known(before, earlier, after)
    ensures FreshDraws(later, after)
  {
  }

  /**
   * A top-up with nothing else going on: once paid and accepted it counts if and
   * only if both addresses are the session's.
   */
  method TopUp(service: Service, topUp: nat, v: World) returns (o: Outcome)
    requires service.Valid() && service.Ready(v)
    modifies service, service.wallet.store
    ensures service.Valid() && Total(service.Held()) <= Total(old(service.Held()))
    ensures o.ok ==> o.entryAsked
    ensures o.entryAsked ==> old(service.session).Session?
    ensures o.entryAsked && Admitted(v.entry) && Admitted(v.exit) ==>
              (o.ok <==> GrantedBy(v.entry) == old(service.session).entryIP
                         && GrantedBy(v.exit) == old(service.session).exitIP)
    ensures o.ok ==>
              && service.session.Session? && service.session.entryIP == old(service.session).entryIP
              && service.session.exitIP == old(service.session).exitIP
              && Total(service.Held()) + service.session.spentSats
                 == Total(old(service.Held())) + old(service.session).spentSats
  {
    o := service.Extend(topUp, v, service.session);
  }

  /**
   * A top-up right after a connect: once its payments are reserved and both nodes
   * accept them, it succeeds if and only if each node grants the address it
   * granted before. The session then counts exactly what both calls took from the
   * balance.
   */
  method ConnectThenExtend(service: Service, perHop: nat, w: World, topUp: nat, v: World)
    returns (first: Outcome, second: Outcome)
    requires service.Valid() && service.Ready(w) && NewDraws(w, v, Secrets(service.Held()))
    modifies service, service.wallet.store
    ensures service.Valid()
    ensures first.ok ==> Admitted(w.entry) && Admitted(w.exit)
    ensures first.ok && second.entryAsked && Admitted(v.entry) && Admitted(v.exit) ==>
              (second.ok <==> GrantedBy(v.entry) == GrantedBy(w.entry) && GrantedBy(v.exit) == GrantedBy(w.exit))
    ensures first.ok && second.ok ==>
              && service.session.Session? && service.session.entryIP == GrantedBy(w.entry)
              && service.session.exitIP == GrantedBy(w.exit)
              && Total(service.Held()) + service.session.spentSats == Total(old(service.Held()))
  {
    ghost var before := Secrets(service.Held());
    first := service.Connect(perHop, w);
    StillNew(w, v, before, Secrets(service.Held()));
    second := TopUp(service, topUp, v);
  }
}
