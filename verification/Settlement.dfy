/** Turning a period's usage into what each node is owed. */
module Settlement {
  import opened Sums

  datatype Role = Entry | Exit

  /** A node is known by its public key. */
  datatype Node = Node(pubkey: string)

  /** A node's signed, cumulative byte count for its side of a session. */
  datatype Report = Report(session: string, ticket: string, node: Node, role: Role, bytes: nat, receivedAt: nat)

  /** One session with both sides reported. */
  datatype Summary = Summary(session: string, ticket: string, entryNode: Node, exitNode: Node, entryBytes: nat,
                             exitBytes: nat)

  datatype Lookup = NoSummary | Found(summary: Summary)

  /** The chain from a ticket to the invoice that paid for it. */
  datatype TicketInfo = TicketInfo(redeemed: bool, bytes: nat, invoice: string, settled: bool, amountSats: nat,
                                   bytesAllowed: nat)

  /** What one node is owed for one period. */
  datatype Tally = Tally(entryBytes: nat, exitBytes: nat, billable: nat, sats: nat, tickets: nat)

  const ZERO := Tally(0, 0, 0, 0, 0)

  function Min(a: nat, b: nat): nat { if a < b then a else b }

  /** The reports of one side of a session received in [from, to). */
  function Side(reports: seq<Report>, session: string, role: Role, from: nat, to: nat): seq<Report> {
    if reports == [] then []
    else
      var n := |reports| - 1;
      var r := reports[n];
      Side(reports[..n], session, role, from, to)
        + if r.session == session && r.role == role && from <= r.receivedAt < to then [r] else []
  }

  predicate Consistent(side: seq<Report>) {
    side != [] && forall i :: 0 <= i < |side| ==> side[i].node == side[0].node && side[i].ticket == side[0].ticket
  }

  function MaxBytes(side: seq<Report>): nat {
    if side == [] then 0
    else
      var n := |side| - 1;
      var before := MaxBytes(side[..n]);
      if side[n].bytes > before then side[n].bytes else before
  }

  /** The session as one period's settlement sees it: both sides reported, without contradiction, on one ticket. */
  function SummaryOf(reports: seq<Report>, session: string, from: nat, to: nat): Lookup {
    var entry, exit := Side(reports, session, Entry, from, to), Side(reports, session, Exit, from, to);
    if !Consistent(entry) || !Consistent(exit) || entry[0].ticket != exit[0].ticket then NoSummary
    else Found(Summary(session, entry[0].ticket, entry[0].node, exit[0].node, MaxBytes(entry), MaxBytes(exit)))
  }

  /** A session is settled only on a redeemed ticket of a settled invoice with bytes to its name. */
  predicate Payable(s: Summary, tickets: map<string, TicketInfo>) {
    s.ticket in tickets && var t := tickets[s.ticket]; t.redeemed && t.settled && t.bytesAllowed != 0
  }

  function Billable(s: Summary, tickets: map<string, TicketInfo>): nat {
    if !Payable(s, tickets) then 0
    else Min(Min(s.entryBytes, s.exitBytes), tickets[s.ticket].bytes)
  }

  function ComputePayoutSats(billable: nat, amountSats: nat, bytesAllowed: nat): nat {
    if bytesAllowed == 0 then 0 else billable * amountSats / bytesAllowed
  }

  /** What both nodes of a session share. */
  function Pool(s: Summary, tickets: map<string, TicketInfo>, margin: nat): nat
    requires margin <= 100
  {
    if !Payable(s, tickets) then 0
    else
      var t := tickets[s.ticket];
      ComputePayoutSats(Billable(s, tickets), t.amountSats, t.bytesAllowed) * (100 - margin) / 100
  }

  /** How a period values a session. */
  datatype Value = Unpaid | Paid(billable: nat, pool: nat) {
    function Worth(): nat { if Paid? then pool else 0 }
  }

  function ValueOf(s: Summary, tickets: map<string, TicketInfo>, margin: nat): Value
    requires margin <= 100
  {
    if !Payable(s, tickets) then Unpaid else Paid(Billable(s, tickets), Pool(s, tickets, margin))
  }

  function Pricing(tickets: map<string, TicketInfo>, margin: nat): Summary -> Value
    requires margin <= 100
  {
    s => ValueOf(s, tickets, margin)
  }

  /** Half of the pool rounded down; the exit gets the rest, so that the halves add up to it. */
  function EntrySats(pool: nat): nat { pool / 2 }

  /** What one session adds to a node: an entry share, an exit share, or both. */
  function Share(node: Node, s: Summary, v: Value, entry: nat, exit: nat): nat {
    if v.Unpaid? then 0
    else (if s.entryNode == node then entry else 0) + (if s.exitNode == node then exit else 0)
  }

  function SatsShare(node: Node, s: Summary, v: Value): nat {
    if v.Unpaid? then 0 else Share(node, s, v, EntrySats(v.pool), v.pool - EntrySats(v.pool))
  }

  function BillableShare(node: Node, s: Summary, v: Value): nat {
    if v.Unpaid? then 0 else Share(node, s, v, v.billable, v.billable)
  }

  function EntryBytesTo(node: Node, price: Summary -> Value): Summary -> nat {
    s => Share(node, s, price(s), s.entryBytes, s.entryBytes)
  }

  function ExitBytesTo(node: Node, price: Summary -> Value): Summary -> nat {
    s => Share(node, s, price(s), s.exitBytes, s.exitBytes)
  }

  function BillableTo(node: Node, price: Summary -> Value): Summary -> nat { s => BillableShare(node, s, price(s)) }

  function SatsTo(node: Node, price: Summary -> Value): Summary -> nat { s => SatsShare(node, s, price(s)) }

  function TicketsTo(node: Node, price: Summary -> Value): Summary -> nat { s => Share(node, s, price(s), 1, 1) }

  /** The reference: every figure of a node's tally is the sum of its shares. */
  function Owed(node: Node, summaries: seq<Summary>, price: Summary -> Value): Tally {
    Tally(SumBy(summaries, EntryBytesTo(node, price)), SumBy(summaries, ExitBytesTo(node, price)),
          SumBy(summaries, BillableTo(node, price)), SumBy(summaries, SatsTo(node, price)),
          SumBy(summaries, TicketsTo(node, price)))
  }

  predicate Earns(node: Node, s: Summary, v: Value) { v.Paid? && (s.entryNode == node || s.exitNode == node) }

  predicate Involved(node: Node, summaries: seq<Summary>, price: Summary -> Value) {
    exists i :: 0 <= i < |summaries| && Earns(node, summaries[i], price(summaries[i]))
  }

  function WorthOf(price: Summary -> Value): Summary -> nat { s => price(s).Worth() }

  predicate NoRepeats(names: seq<Node>) { forall i, j :: 0 <= i < j < |names| ==> names[i] != names[j] }

  /** Every node that earned something is on the list. */
  predicate Covers(nodes: seq<Node>, summaries: seq<Summary>, price: Summary -> Value) {
    forall i :: 0 <= i < |summaries| ==> Listed(nodes, summaries[i], price(summaries[i]))
  }

  predicate Listed(nodes: seq<Node>, s: Summary, v: Value) { v.Paid? ==> s.entryNode in nodes && s.exitNode in nodes }

  function SatsFrom(s: Summary, v: Value): Node -> nat { node => SatsShare(node, s, v) }

  function OwedSats(summaries: seq<Summary>, price: Summary -> Value): Node -> nat {
    node => Owed(node, summaries, price).sats
  }

  function At(node: Node, value: nat): Node -> nat { other => if other == node then value else 0 }

  /** A list without repeats credits one node exactly once. */
  lemma {:induction false} CreditedOnce(nodes: seq<Node>, node: Node, value: nat)
    requires NoRepeats(nodes)
    ensures SumBy(nodes, At(node, value)) == if node in nodes then value else 0
  {
    if nodes != [] {
      var n := |nodes| - 1;
      CreditedOnce(nodes[..n], node, value);
      assert nodes == nodes[..n] + [nodes[n]];
      if nodes[n] == node { assert forall i :: 0 <= i < n ==> nodes[..n][i] != node; }
    }
  }

  /** Over any such list, one session's shares add up to its pool: the split loses nothing. */
  lemma {:induction false} SharesMakePool(nodes: seq<Node>, s: Summary, v: Value)
    requires NoRepeats(nodes) && Listed(nodes, s, v)
    ensures SumBy(nodes, SatsFrom(s, v)) == v.Worth()
  {
    var entry := if v.Unpaid? then 0 else EntrySats(v.pool);
    var exit := v.Worth() - entry;
    CreditedOnce(nodes, s.entryNode, entry);
    CreditedOnce(nodes, s.exitNode, exit);
    SumByAdd(nodes, At(s.entryNode, entry), At(s.exitNode, exit), SatsFrom(s, v));
  }

  lemma {:induction false} OwedNothing(nodes: seq<Node>, price: Summary -> Value)
    ensures SumBy(nodes, OwedSats([], price)) == 0
  {
    if nodes != [] { OwedNothing(nodes[..|nodes| - 1], price); }
  }

  /** What all nodes together are owed is exactly what all sessions together are worth. */
  lemma {:induction false} NothingLostOrMade(nodes: seq<Node>, summaries: seq<Summary>, price: Summary -> Value)
    requires NoRepeats(nodes) && Covers(nodes, summaries, price)
    ensures SumBy(nodes, OwedSats(summaries, price)) == SumBy(summaries, WorthOf(price))
  {
    if summaries == [] {
      OwedNothing(nodes, price);
    } else {
      var n := |summaries| - 1;
      var init, last := summaries[..n], summaries[n];
      assert forall i :: 0 <= i < n ==> init[i] == summaries[i];
      NothingLostOrMade(nodes, init, price);
      SharesMakePool(nodes, last, price(last));
      SumByAdd(nodes, OwedSats(init, price), SatsFrom(last, price(last)), OwedSats(summaries, price));
    }
  }

  /** The order sessions are read in makes no difference. */
  lemma {:induction false} OrderIrrelevant(node: Node, a: seq<Summary>, b: seq<Summary>, price: Summary -> Value)
    requires multiset(a) == multiset(b)
    ensures Owed(node, a, price) == Owed(node, b, price)
  {
    SumByPermuted(a, b, EntryBytesTo(node, price));
    SumByPermuted(a, b, ExitBytesTo(node, price));
    SumByPermuted(a, b, BillableTo(node, price));
    SumByPermuted(a, b, SatsTo(node, price));
    SumByPermuted(a, b, TicketsTo(node, price));
  }

  /** n is the greatest number with n * d <= x. */
  predicate Greatest(n: nat, d: nat, x: nat) { n * d <= x < (n + 1) * d }

  /**
   * What a session is worth: something only on a redeemed ticket of a settled
   * invoice that allows bytes; then the least of both reports and the ticket is
   * billed, and its price at the invoice's rate falls short of the exact one by a
   * rounding down to sats, and the pool by another once the margin is off.
   */
  lemma {:induction false} ValueExact(s: Summary, tickets: map<string, TicketInfo>, margin: nat)
    requires margin <= 100
    ensures var v := ValueOf(s, tickets, margin);
            && (v.Paid? <==> s.ticket in tickets && tickets[s.ticket].redeemed && tickets[s.ticket].settled
                             && tickets[s.ticket].bytesAllowed != 0)
            && (v.Paid? ==> var t := tickets[s.ticket];
                            && v.billable <= s.entryBytes && v.billable <= s.exitBytes && v.billable <= t.bytes
                            && (v.billable == s.entryBytes || v.billable == s.exitBytes || v.billable == t.bytes)
                            && exists sats: nat :: Greatest(sats, t.bytesAllowed, v.billable * t.amountSats)
                                                   && Greatest(v.pool, 100, sats * (100 - margin)))
  {
    BillsTheLeast(s, tickets);
    if Payable(s, tickets) {
      var t := tickets[s.ticket];
      var sats := ComputePayoutSats(Billable(s, tickets), t.amountSats, t.bytesAllowed);
      FloorIsGreatest(Billable(s, tickets) * t.amountSats, t.bytesAllowed);
      FloorIsGreatest(sats * (100 - margin), 100);
    }
  }

  lemma {:induction false} FloorIsGreatest(x: nat, d: nat)
    requires d > 0
    ensures Greatest(x / d, d, x)
  {
    var q := x / d;
    FloorBelow(x, d);
    assert (q + 1) * d == q * d + 1 * d by { Distribute(q, 1, d); }
  }

  /**
   * Two nodes share the pool, the exit's half being the larger by at most one sat;
   * a node that is both gets all of it.
   */
  lemma {:induction false} SharesExact(node: Node, s: Summary, v: Value)
    ensures s.entryNode != s.exitNode ==>
              var entry, exit := SatsShare(s.entryNode, s, v), SatsShare(s.exitNode, s, v);
              entry + exit == v.Worth() && entry <= exit <= entry + 1
    ensures s.entryNode == s.exitNode ==> SatsShare(s.entryNode, s, v) == v.Worth()
    ensures node != s.entryNode && node != s.exitNode ==> SatsShare(node, s, v) == 0
  {
  }

  /** How often a session counts towards a node: once for each side the node was. */
  function Sides(node: Node, s: Summary): nat {
    (if s.entryNode == node then 1 else 0) + (if s.exitNode == node then 1 else 0)
  }

  /**
   * A session that is paid for adds both byte counts, what is billed and one ticket
   * for each side a node was; any other session adds nothing.
   */
  lemma {:induction false} OwedExact(node: Node, summaries: seq<Summary>, s: Summary, price: Summary -> Value)
    ensures var before, after, v := Owed(node, summaries, price), Owed(node, summaries + [s], price), price(s);
            var times := if v.Paid? then Sides(node, s) else 0;
            && after.entryBytes == before.entryBytes + times * s.entryBytes
            && after.exitBytes == before.exitBytes + times * s.exitBytes
            && (v.Paid? ==> after.billable == before.billable + times * v.billable)
            && (v.Unpaid? ==> after == before)
            && after.sats == before.sats + SatsShare(node, s, v)
            && after.tickets == before.tickets + times
    ensures Owed(node, [], price) == ZERO
  {
    SumByPush(summaries, s, EntryBytesTo(node, price));
    SumByPush(summaries, s, ExitBytesTo(node, price));
    SumByPush(summaries, s, BillableTo(node, price));
    SumByPush(summaries, s, SatsTo(node, price));
    SumByPush(summaries, s, TicketsTo(node, price));
  }

  // Rounding down never lets the parts exceed the whole.

  lemma {:induction false} FloorBelow(x: nat, d: nat)
    requires d > 0
    ensures x / d * d <= x < x / d * d + d
  {
  }

  lemma {:induction false} FloorMono(x: nat, y: nat, d: nat)
    requires d > 0 && x * d <= y
    ensures x <= y / d
  {
    FloorBelow(y, d);
    if y / d < x { MulMono(y / d + 1, x, d); }
  }

  lemma {:induction false} MulMono(a: nat, b: nat, c: nat)
    requires a <= b
    ensures a * c <= b * c
  {
  }

  predicate OfInvoice(s: Summary, invoice: string, tickets: map<string, TicketInfo>) {
    Payable(s, tickets) && tickets[s.ticket].invoice == invoice
  }

  function PoolWithin(invoice: string, tickets: map<string, TicketInfo>, margin: nat): Summary -> nat
    requires margin <= 100
  {
    s => if OfInvoice(s, invoice, tickets) then Pool(s, tickets, margin) else 0
  }

  function BillableWithin(invoice: string, tickets: map<string, TicketInfo>): Summary -> nat {
    s => if OfInvoice(s, invoice, tickets) then Billable(s, tickets) else 0
  }

  function TicketBytes(tickets: map<string, TicketInfo>): string -> nat {
    t => if t in tickets then tickets[t].bytes else 0
  }

  /** Every ticket of the invoice carries the invoice's price and allowance. */
  predicate OneInvoice(invoice: string, tickets: map<string, TicketInfo>, amountSats: nat, bytesAllowed: nat) {
    forall t :: t in tickets && tickets[t].invoice == invoice ==>
      tickets[t].amountSats == amountSats && tickets[t].bytesAllowed == bytesAllowed
  }

  /** No two sessions of the invoice were paid with one ticket. */
  predicate TicketEach(invoice: string, summaries: seq<Summary>, tickets: map<string, TicketInfo>) {
    forall i, j :: 0 <= i < j < |summaries| ==>
      OfInvoice(summaries[i], invoice, tickets) && OfInvoice(summaries[j], invoice, tickets) ==>
        summaries[i].ticket != summaries[j].ticket
  }

  /** 100 * allowed * pool <= billable * amount * kept, the exact rate without rounding. */
  lemma {:induction false} PoolAtRate(s: Summary, invoice: string, tickets: map<string, TicketInfo>, margin: nat,
                                      amountSats: nat, bytesAllowed: nat)
    requires margin <= 100 && bytesAllowed > 0 && OneInvoice(invoice, tickets, amountSats, bytesAllowed)
    ensures PoolWithin(invoice, tickets, margin)(s) * (100 * bytesAllowed)
            <= BillableWithin(invoice, tickets)(s) * (amountSats * (100 - margin))
  {
    if OfInvoice(s, invoice, tickets) {
      var b, kept := Billable(s, tickets), 100 - margin;
      var sats := ComputePayoutSats(b, amountSats, bytesAllowed);
      var pool := Pool(s, tickets, margin);
      FloorBelow(b * amountSats, bytesAllowed);
      FloorBelow(sats * kept, 100);
      AtRate(pool, sats, b, amountSats, bytesAllowed, kept);
    }
  }

  lemma {:induction false} AtRate(pool: nat, sats: nat, b: nat, amount: nat, allowed: nat, kept: nat)
    requires pool * 100 <= sats * kept && sats * allowed <= b * amount
    ensures pool * (100 * allowed) <= b * (amount * kept)
  {
    MulMono(pool * 100, sats * kept, allowed);
    MulMono(sats * allowed, b * amount, kept);
    assert pool * 100 * allowed == pool * (100 * allowed);
    assert sats * kept * allowed == sats * allowed * kept by { Commute(sats, kept, allowed); }
    assert b * amount * kept == b * (amount * kept) by { Assoc(b, amount, kept); }
  }

  lemma {:induction false} Commute(a: nat, b: nat, c: nat)
    ensures a * b * c == a * c * b
  {
    Assoc(a, b, c);
    Assoc(a, c, b);
  }

  lemma {:induction false} Assoc(a: nat, b: nat, c: nat)
    ensures a * b * c == a * (b * c)
  {
  }

  /** Summing the rate over all sessions. */
  lemma {:induction false} PoolsAtRate(summaries: seq<Summary>, invoice: string, tickets: map<string, TicketInfo>,
                                       margin: nat, amountSats: nat, bytesAllowed: nat)
    requires margin <= 100 && bytesAllowed > 0 && OneInvoice(invoice, tickets, amountSats, bytesAllowed)
    ensures SumBy(summaries, PoolWithin(invoice, tickets, margin)) * (100 * bytesAllowed)
            <= SumBy(summaries, BillableWithin(invoice, tickets)) * (amountSats * (100 - margin))
  {
    if summaries != [] {
      var n := |summaries| - 1;
      PoolsAtRate(summaries[..n], invoice, tickets, margin, amountSats, bytesAllowed);
      PoolAtRate(summaries[n], invoice, tickets, margin, amountSats, bytesAllowed);
      var pool, billable := PoolWithin(invoice, tickets, margin), BillableWithin(invoice, tickets);
      Distribute(SumBy(summaries[..n], pool), pool(summaries[n]), 100 * bytesAllowed);
      Distribute(SumBy(summaries[..n], billable), billable(summaries[n]), amountSats * (100 - margin));
    }
  }

  lemma {:induction false} Distribute(a: nat, b: nat, c: nat)
    ensures (a + b) * c == a * c + b * c
  {
  }

  /**
   * When each session used a ticket of its own and the invoice's tickets carry no
   * more bytes than it allows, all its sessions' pools together stay within the
   * invoice's price less the hub's margin.
   */
  lemma {:induction false} InvoiceBoundsPools(summaries: seq<Summary>, invoice: string, ids: seq<string>,
                                              tickets: map<string, TicketInfo>, margin: nat, amountSats: nat,
                                              bytesAllowed: nat)
    requires margin <= 100 && bytesAllowed > 0 && OneInvoice(invoice, tickets, amountSats, bytesAllowed)
    requires TicketEach(invoice, summaries, tickets)
    requires forall t :: t in tickets && tickets[t].invoice == invoice ==> t in ids
    requires SumBy(ids, TicketBytes(tickets)) <= bytesAllowed
    ensures SumBy(summaries, PoolWithin(invoice, tickets, margin)) <= amountSats * (100 - margin) / 100
  {
    var pools := SumBy(summaries, PoolWithin(invoice, tickets, margin));
    var bytes := SumBy(summaries, BillableWithin(invoice, tickets));
    forall i | 0 <= i < |summaries| && BillableWithin(invoice, tickets)(summaries[i]) > 0
      ensures summaries[i].ticket in ids
              && BillableWithin(invoice, tickets)(summaries[i]) <= TicketBytes(tickets)(summaries[i].ticket)
    {
      BillsTheLeast(summaries[i], tickets);
    }
    InjectionBelow(summaries, BillableWithin(invoice, tickets), (s: Summary) => s.ticket, ids, TicketBytes(tickets));
    PoolsAtRate(summaries, invoice, tickets, margin, amountSats, bytesAllowed);
    var price := amountSats * (100 - margin);
    MulMono(bytes, bytesAllowed, price);
    assert pools * (100 * bytesAllowed) == (pools * 100) * bytesAllowed by { Assoc(pools, 100, bytesAllowed); }
    assert (pools * 100) * bytesAllowed <= price * bytesAllowed;
    CancelRight(pools * 100, price, bytesAllowed);
    FloorMono(pools, price, 100);
  }

  lemma {:induction false} CancelRight(a: nat, b: nat, c: nat)
    requires c > 0 && a * c <= b * c
    ensures a <= b
  {
    if b < a { Distribute(b, a - b, c); MulMono(1, a - b, c); }
  }

  /** No session bills above either report or its ticket. */
  lemma {:induction false} BillsTheLeast(s: Summary, tickets: map<string, TicketInfo>)
    ensures Payable(s, tickets) ==>
              var b := Billable(s, tickets);
              b <= s.entryBytes && b <= s.exitBytes && b <= tickets[s.ticket].bytes
              && (b == s.entryBytes || b == s.exitBytes || b == tickets[s.ticket].bytes)
    ensures !Payable(s, tickets) ==> Billable(s, tickets) == 0
  {
  }

  class SettlementEngine {
    var minPayout: nat
    var hubMarginPct: nat

    constructor ()
      ensures minPayout == 1000 && hubMarginPct == 20
    {
      minPayout, hubMarginPct := 1000, 20;
    }

    method SetMinPayout(sats: nat)
      modifies this`minPayout
      ensures minPayout == sats
    {
      minPayout := sats;
    }

    /** Anything outside 0 to 50 percent falls back to 20. */
    method SetHubMargin(pct: int)
      modifies this`hubMarginPct
      ensures hubMarginPct <= 50
      ensures if 0 <= pct <= 50 then hubMarginPct == pct else hubMarginPct == 20
    {
      hubMarginPct := if pct < 0 || pct > 50 then 20 else pct;
    }

    /** What a payable session's nodes share, at the invoice's rate less the hub's margin. */
    method Price(s: Summary, t: TicketInfo) returns (billable: nat, nodePool: nat)
      requires hubMarginPct <= 50 && t.bytesAllowed != 0
      ensures billable == Min(Min(s.entryBytes, s.exitBytes), t.bytes)
      ensures nodePool == ComputePayoutSats(billable, t.amountSats, t.bytesAllowed) * (100 - hubMarginPct) / 100
    {
      billable := if s.entryBytes < s.exitBytes then s.entryBytes else s.exitBytes;
      if billable > t.bytes { billable := t.bytes; }
      var totalSats := ComputePayoutSats(billable, t.amountSats, t.bytesAllowed);
      nodePool := totalSats * (100 - hubMarginPct) / 100;
    }

    /** Credits both nodes of each payable session; the tallies are exactly the sums owed. */
    method Aggregate(summaries: seq<Summary>, tickets: map<string, TicketInfo>)
      returns (tallies: map<Node, Tally>, settled: nat, skipped: nat)
      requires hubMarginPct <= 50
      ensures var price := Pricing(tickets, hubMarginPct);
              && (forall node :: node in tallies <==> Involved(node, summaries, price))
              && (forall node :: Get(tallies, node) == Owed(node, summaries, price))
              && settled == PaidCount(summaries, price) && settled + skipped == |summaries|
    {
      tallies, settled, skipped := map[], 0, 0;
      ghost var price := Pricing(tickets, hubMarginPct);
      assert summaries[..0] == [];
      for n := 0 to |summaries|
        invariant forall node :: node in tallies <==> Involved(node, summaries[..n], price)
        invariant forall node :: Get(tallies, node) == Owed(node, summaries[..n], price)
        invariant settled == PaidCount(summaries[..n], price) && settled + skipped == n
      {
        InvolvedStep(summaries, n, price);
        PaidStep(summaries, n, price);
        ghost var before := tallies;
        var paid;
        paid, tallies := SettleSession(summaries[n], tickets, tallies);
        if paid { settled := settled + 1; } else { skipped := skipped + 1; }
        AllOwedStep(summaries, n, price, before, tallies);
      }
      assert summaries[..|summaries|] == summaries;
    }

    /** Skips a session without a valid ticket chain; credits both nodes of any other. */
    method SettleSession(s: Summary, tickets: map<string, TicketInfo>, tallies: map<Node, Tally>)
      returns (paid: bool, next: map<Node, Tally>)
      requires hubMarginPct <= 50
      ensures var v := ValueOf(s, tickets, hubMarginPct);
              && paid == v.Paid?
              && next.Keys == (if paid then tallies.Keys + {s.entryNode, s.exitNode} else tallies.Keys)
              && forall node :: Grown(Get(tallies, node), Get(next, node), node, s, v)
    {
      if s.ticket !in tickets { return false, tallies; }
      var t := tickets[s.ticket];
      if !t.redeemed || !t.settled || t.bytesAllowed == 0 { return false, tallies; }
      var billable, nodePool := Price(s, t);
      assert ValueOf(s, tickets, hubMarginPct) == Paid(billable, nodePool);
      next := CreditBoth(tallies, s, billable, nodePool);
      return true, next;
    }
  }

  method CreditBoth(tallies: map<Node, Tally>, s: Summary, billable: nat, nodePool: nat)
    returns (next: map<Node, Tally>)
    ensures next.Keys == tallies.Keys + {s.entryNode, s.exitNode}
    ensures forall node :: Grown(Get(tallies, node), Get(next, node), node, s, Paid(billable, nodePool))
  {
    var entrySats := nodePool / 2;
    var exitSats := nodePool - entrySats;
    next := CreditNode(tallies, s.entryNode, s, billable, entrySats);
    next := CreditNode(next, s.exitNode, s, billable, exitSats);
  }

  /** Adds one side of a session to one node's tally. */
  method CreditNode(tallies: map<Node, Tally>, node: Node, s: Summary, billable: nat, sats: nat)
    returns (next: map<Node, Tally>)
    ensures next.Keys == tallies.Keys + {node}
    ensures forall other :: other != node ==> Get(next, other) == Get(tallies, other)
    ensures Get(next, node) == Credited(Get(tallies, node), s, billable, sats)
  {
    next := tallies[node := Credited(Get(tallies, node), s, billable, sats)];
  }

  function Credited(t: Tally, s: Summary, billable: nat, sats: nat): Tally {
    Tally(t.entryBytes + s.entryBytes, t.exitBytes + s.exitBytes, t.billable + billable, t.sats + sats, t.tickets + 1)
  }

  /** A tally grown by a session's shares. */
  predicate Grown(before: Tally, after: Tally, node: Node, s: Summary, v: Value) {
    && after.entryBytes == before.entryBytes + Share(node, s, v, s.entryBytes, s.entryBytes)
    && after.exitBytes == before.exitBytes + Share(node, s, v, s.exitBytes, s.exitBytes)
    && after.billable == before.billable + BillableShare(node, s, v)
    && after.sats == before.sats + SatsShare(node, s, v)
    && after.tickets == before.tickets + Share(node, s, v, 1, 1)
  }

  lemma {:induction false} OwedStep(node: Node, summaries: seq<Summary>, n: nat, price: Summary -> Value, before: Tally,
                                    after: Tally)
    requires n < |summaries|
    requires before == Owed(node, summaries[..n], price)
             && Grown(before, after, node, summaries[n], price(summaries[n]))
    ensures after == Owed(node, summaries[..n + 1], price)
  {
    var init, s := summaries[..n], summaries[n];
    assert summaries[..n + 1] == init + [s];
    SumByPush(init, s, EntryBytesTo(node, price));
    SumByPush(init, s, ExitBytesTo(node, price));
    SumByPush(init, s, BillableTo(node, price));
    SumByPush(init, s, SatsTo(node, price));
    SumByPush(init, s, TicketsTo(node, price));
  }

  /** A node's tally so far; none yet means nothing owed. */
  function Get(tallies: map<Node, Tally>, node: Node): Tally {
    if node in tallies then tallies[node] else ZERO
  }

  lemma {:induction false} AllOwedStep(summaries: seq<Summary>, n: nat, price: Summary -> Value,
                                       before: map<Node, Tally>, after: map<Node, Tally>)
    requires n < |summaries|
    requires forall node :: Get(before, node) == Owed(node, summaries[..n], price)
    requires forall node :: Grown(Get(before, node), Get(after, node), node, summaries[n], price(summaries[n]))
    ensures forall node :: Get(after, node) == Owed(node, summaries[..n + 1], price)
  {
    forall node ensures Get(after, node) == Owed(node, summaries[..n + 1], price) {
      OwedStep(node, summaries, n, price, Get(before, node), Get(after, node));
    }
  }

  function PaidOne(price: Summary -> Value): Summary -> nat { s => if price(s).Paid? then 1 else 0 }

  function PaidCount(summaries: seq<Summary>, price: Summary -> Value): nat { SumBy(summaries, PaidOne(price)) }

  lemma {:induction false} PaidStep(summaries: seq<Summary>, n: nat, price: Summary -> Value)
    requires n < |summaries|
    ensures PaidCount(summaries[..n + 1], price)
            == PaidCount(summaries[..n], price) + if price(summaries[n]).Paid? then 1 else 0
  {
    assert summaries[..n + 1] == summaries[..n] + [summaries[n]];
    SumByPush(summaries[..n], summaries[n], PaidOne(price));
  }

  lemma {:induction false} InvolvedStep(summaries: seq<Summary>, n: nat, price: Summary -> Value)
    requires n < |summaries|
    ensures forall node :: Involved(node, summaries[..n + 1], price)
                           <==> Involved(node, summaries[..n], price) || Earns(node, summaries[n], price(summaries[n]))
  {
    var next, now := summaries[..n + 1], summaries[..n];
    assert next == now + [summaries[n]];
    forall node | Involved(node, now, price) ensures Involved(node, next, price) {
      var i :| 0 <= i < |now| && Earns(node, now[i], price(now[i]));
      assert next[i] == now[i];
    }
    forall node | Earns(node, summaries[n], price(summaries[n])) ensures Involved(node, next, price) {
      assert next[n] == summaries[n];
    }
  }
}
