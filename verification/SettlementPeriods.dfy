/** What a settlement period sees of the usage reports, and where that bills a session twice. */
module SettlementPeriods {
  import opened Sums
  import opened Settlement

  predicate InWindow(r: Report, session: string, role: Role, from: nat, to: nat) {
    r.session == session && r.role == role && from <= r.receivedAt < to
  }

  lemma {:induction false} SideHolds(reports: seq<Report>, session: string, role: Role, from: nat, to: nat, r: Report)
    ensures r in Side(reports, session, role, from, to) <==> r in reports && InWindow(r, session, role, from, to)
  {
    if reports != [] {
      var n := |reports| - 1;
      assert reports == reports[..n] + [reports[n]];
      SideHolds(reports[..n], session, role, from, to, r);
    }
  }

  lemma {:induction false} MaxIsAttained(side: seq<Report>)
    ensures forall r :: r in side ==> r.bytes <= MaxBytes(side)
    ensures side != [] ==> exists r :: r in side && r.bytes == MaxBytes(side)
  {
    if side != [] {
      var n := |side| - 1;
      assert side == side[..n] + [side[n]];
      MaxIsAttained(side[..n]);
      assert side[n] in side;
    }
  }

  /** One side of a summary: reported, only by this node, only on this ticket, never above these bytes, once at them. */
  predicate SideSays(reports: seq<Report>, session: string, role: Role, from: nat, to: nat, node: Node, ticket: string,
                     bytes: nat) {
    && (forall r :: r in reports && InWindow(r, session, role, from, to) ==>
          r.node == node && r.ticket == ticket && r.bytes <= bytes)
    && (exists r :: r in reports && InWindow(r, session, role, from, to) && r.bytes == bytes)
  }

  lemma {:induction false} SideIsSaid(reports: seq<Report>, session: string, role: Role, from: nat, to: nat)
    requires Consistent(Side(reports, session, role, from, to))
    ensures var side := Side(reports, session, role, from, to);
            SideSays(reports, session, role, from, to, side[0].node, side[0].ticket, MaxBytes(side))
  {
    var side := Side(reports, session, role, from, to);
    MaxIsAttained(side);
    var best :| best in side && best.bytes == MaxBytes(side);
    SideHolds(reports, session, role, from, to, best);
    forall r | r in reports && InWindow(r, session, role, from, to)
      ensures r.node == side[0].node && r.ticket == side[0].ticket && r.bytes <= MaxBytes(side)
    {
      SideHolds(reports, session, role, from, to, r);
      var i :| 0 <= i < |side| && side[i] == r;
    }
  }

  lemma {:induction false} SaidIsSide(reports: seq<Report>, session: string, role: Role, from: nat, to: nat, node: Node,
                                      ticket: string, bytes: nat)
    requires SideSays(reports, session, role, from, to, node, ticket, bytes)
    ensures var side := Side(reports, session, role, from, to);
            Consistent(side) && side[0].node == node && side[0].ticket == ticket && MaxBytes(side) == bytes
  {
    var side := Side(reports, session, role, from, to);
    var top :| top in reports && InWindow(top, session, role, from, to) && top.bytes == bytes;
    SideHolds(reports, session, role, from, to, top);
    forall i | 0 <= i < |side| ensures side[i].node == node && side[i].ticket == ticket && side[i].bytes <= bytes {
      SideHolds(reports, session, role, from, to, side[i]);
    }
    MaxIsAttained(side);
    var best :| best in side && best.bytes == MaxBytes(side);
  }

  /**
   * A session has a summary exactly when, within the period, both sides reported,
   * each by one node only and both on one ticket; its bytes are the largest
   * reported on each side.
   */
  lemma {:induction false} SummaryExact(reports: seq<Report>, session: string, from: nat, to: nat, s: Summary)
    ensures SummaryOf(reports, session, from, to) == Found(s)
            <==> s.session == session
                 && SideSays(reports, session, Entry, from, to, s.entryNode, s.ticket, s.entryBytes)
                 && SideSays(reports, session, Exit, from, to, s.exitNode, s.ticket, s.exitBytes)
  {
    if SummaryOf(reports, session, from, to) == Found(s) {
      SideIsSaid(reports, session, Entry, from, to);
      SideIsSaid(reports, session, Exit, from, to);
    }
    if SideSays(reports, session, Entry, from, to, s.entryNode, s.ticket, s.entryBytes)
       && SideSays(reports, session, Exit, from, to, s.exitNode, s.ticket, s.exitBytes)
    {
      SaidIsSide(reports, session, Entry, from, to, s.entryNode, s.ticket, s.entryBytes);
      SaidIsSide(reports, session, Exit, from, to, s.exitNode, s.ticket, s.exitBytes);
    }
  }

  /** A session whose reports all arrived in one period is invisible to every other one. */
  lemma {:induction false} SeenInOnePeriod(reports: seq<Report>, session: string, from: nat, to: nat, from2: nat,
                                           to2: nat)
    requires forall r :: r in reports && r.session == session ==> from <= r.receivedAt < to
    requires to <= from2 || to2 <= from
    ensures SummaryOf(reports, session, from2, to2) == NoSummary
  {
    var side := Side(reports, session, Entry, from2, to2);
    if side != [] {
      assert side[0] in side;
      SideHolds(reports, session, Entry, from2, to2, side[0]);
    }
  }

  // ---- What a session earns its nodes over consecutive periods ----

  /** The sats one period pays for a session, both nodes together. */
  function PaidFor(reports: seq<Report>, session: string, tickets: map<string, TicketInfo>, margin: nat, from: nat,
                   to: nat): nat
    requires margin <= 100
  {
    match SummaryOf(reports, session, from, to)
    case NoSummary => 0
    case Found(s) => Pool(s, tickets, margin)
  }

  /** Both sides reported within the period, each by one node and both on one ticket. */
  ghost predicate BothReported(reports: seq<Report>, session: string, from: nat, to: nat) {
    exists s: Summary :: SidesSay(reports, session, from, to, s)
  }

  ghost predicate SidesSay(reports: seq<Report>, session: string, from: nat, to: nat, s: Summary) {
    && s.session == session
    && SideSays(reports, session, Entry, from, to, s.entryNode, s.ticket, s.entryBytes)
    && SideSays(reports, session, Exit, from, to, s.exitNode, s.ticket, s.exitBytes)
  }

  lemma {:induction false} FoundExact(reports: seq<Report>, session: string, from: nat, to: nat)
    ensures SummaryOf(reports, session, from, to).Found? <==> BothReported(reports, session, from, to)
  {
    var found := SummaryOf(reports, session, from, to);
    if found.Found? {
      SummaryExact(reports, session, from, to, found.summary);
      assert SidesSay(reports, session, from, to, found.summary);
    }
    if s :| SidesSay(reports, session, from, to, s) { SummaryExact(reports, session, from, to, s); }
  }

  /** A session is billed in two periods if and only if both sides reported consistently in each of them. */
  lemma {:induction false} BilledTwiceExact(reports: seq<Report>, session: string, from: nat, to: nat, from2: nat,
                                            to2: nat)
    ensures SummaryOf(reports, session, from, to).Found? && SummaryOf(reports, session, from2, to2).Found?
            <==> BothReported(reports, session, from, to) && BothReported(reports, session, from2, to2)
  {
    FoundExact(reports, session, from, to);
    FoundExact(reports, session, from2, to2);
  }

  /** A node's later report never shows fewer bytes than an earlier one. */
  predicate Cumulative(reports: seq<Report>, session: string) {
    forall r, q :: r in reports && q in reports && r.session == q.session == session && r.role == q.role ==>
      r.receivedAt <= q.receivedAt ==> r.bytes <= q.bytes
  }

  /** If the later part of a period shows a side at all, it shows it as the whole does. */
  lemma {:induction false} LaterSideIsWhole(reports: seq<Report>, session: string, role: Role, from: nat, border: nat,
                                            to: nat, node: Node, ticket: string, bytes: nat, later: Node,
                                            laterTicket: string, most: nat)
    requires from <= border <= to && Cumulative(reports, session)
    requires SideSays(reports, session, role, from, to, node, ticket, bytes)
    requires SideSays(reports, session, role, border, to, later, laterTicket, most)
    ensures later == node && laterTicket == ticket && most == bytes
  {
    var top :| top in reports && InWindow(top, session, role, from, to) && top.bytes == bytes;
    var last :| last in reports && InWindow(last, session, role, border, to) && last.bytes == most;
    assert InWindow(last, session, role, from, to);
    if top.receivedAt >= border { assert InWindow(top, session, role, border, to); }
  }

  lemma {:induction false} LaterIsWhole(reports: seq<Report>, session: string, from: nat, border: nat, to: nat,
                                        s: Summary, t: Summary)
    requires from <= border <= to && Cumulative(reports, session)
    requires SummaryOf(reports, session, from, to) == Found(s) && SummaryOf(reports, session, border, to) == Found(t)
    ensures t == s
  {
    SummaryExact(reports, session, from, to, s);
    SummaryExact(reports, session, border, to, t);
    LaterSideIsWhole(reports, session, Entry, from, border, to, s.entryNode, s.ticket, s.entryBytes,
                     t.entryNode, t.ticket, t.entryBytes);
    LaterSideIsWhole(reports, session, Exit, from, border, to, s.exitNode, s.ticket, s.exitBytes,
                     t.exitNode, t.ticket, t.exitBytes);
  }

  /** A part of a period shows a side by the same node, on the same ticket, with no more bytes. */
  lemma {:induction false} PartSideIsLess(reports: seq<Report>, session: string, role: Role, from: nat, border: nat,
                                          to: nat, node: Node, ticket: string, bytes: nat, part: Node,
                                          partTicket: string, most: nat)
    requires from <= border <= to
    requires SideSays(reports, session, role, from, to, node, ticket, bytes)
    requires SideSays(reports, session, role, from, border, part, partTicket, most)
    ensures part == node && partTicket == ticket && most <= bytes
  {
    var top :| top in reports && InWindow(top, session, role, from, border) && top.bytes == most;
    assert InWindow(top, session, role, from, to);
  }

  lemma {:induction false} PoolMono(s: Summary, t: Summary, tickets: map<string, TicketInfo>, margin: nat)
    requires margin <= 100 && s.ticket == t.ticket && Billable(s, tickets) <= Billable(t, tickets)
    ensures Pool(s, tickets, margin) <= Pool(t, tickets, margin)
  {
    if Payable(t, tickets) {
      var info, kept := tickets[t.ticket], 100 - margin;
      var less, more := Billable(s, tickets), Billable(t, tickets);
      MulMono(less, more, info.amountSats);
      DivMono(less * info.amountSats, more * info.amountSats, info.bytesAllowed);
      var few, many := less * info.amountSats / info.bytesAllowed, more * info.amountSats / info.bytesAllowed;
      MulMono(few, many, kept);
      DivMono(few * kept, many * kept, 100);
    }
  }

  lemma {:induction false} DivMono(x: nat, y: nat, d: nat)
    requires d > 0 && x <= y
    ensures x / d <= y / d
  {
    FloorBelow(x, d);
    FloorMono(x / d, y, d);
  }

  lemma {:induction false} FirstPaysNoMore(reports: seq<Report>, session: string, tickets: map<string, TicketInfo>,
                                           margin: nat, from: nat, border: nat, to: nat)
    requires margin <= 100 && from <= border <= to && SummaryOf(reports, session, from, to).Found?
    ensures PaidFor(reports, session, tickets, margin, from, border)
            <= PaidFor(reports, session, tickets, margin, from, to)
  {
    var whole, first := SummaryOf(reports, session, from, to), SummaryOf(reports, session, from, border);
    if first.Found? {
      var s, t := first.summary, whole.summary;
      SummaryExact(reports, session, from, border, s);
      SummaryExact(reports, session, from, to, t);
      PartSideIsLess(reports, session, Entry, from, border, to, t.entryNode, t.ticket, t.entryBytes,
                     s.entryNode, s.ticket, s.entryBytes);
      PartSideIsLess(reports, session, Exit, from, border, to, t.exitNode, t.ticket, t.exitBytes,
                     s.exitNode, s.ticket, s.exitBytes);
      PoolMono(s, t, tickets, margin);
    }
  }

  /**
   * Reports are cumulative, so when both sides report in the later of two
   * consecutive periods, that period alone pays for everything, and what the
   * earlier one paid comes on top. A session that one period over both would
   * settle is overpaid if and only if both sides reported in the later period and
   * the earlier one paid anything.
   */
  lemma {:induction false} OverpaidExact(reports: seq<Report>, session: string, tickets: map<string, TicketInfo>,
                                         margin: nat, from: nat, border: nat, to: nat)
    requires margin <= 100 && from <= border <= to && Cumulative(reports, session)
    requires BothReported(reports, session, from, to)
    ensures var first := PaidFor(reports, session, tickets, margin, from, border);
            var later := PaidFor(reports, session, tickets, margin, border, to);
            var whole := PaidFor(reports, session, tickets, margin, from, to);
            && (BothReported(reports, session, border, to) ==> first + later == whole + first)
            && (first + later > whole <==> BothReported(reports, session, border, to) && first > 0)
  {
    FoundExact(reports, session, from, to);
    FoundExact(reports, session, border, to);
    FirstPaysNoMore(reports, session, tickets, margin, from, border, to);
    var whole, later := SummaryOf(reports, session, from, to), SummaryOf(reports, session, border, to);
    if later.Found? { LaterIsWhole(reports, session, from, border, to, whole.summary, later.summary); }
  }

  function BothSides(session: string, ticket: string, entry: Node, exit: Node, bytes: nat, at: nat): seq<Report> {
    [Report(session, ticket, entry, Entry, bytes, at), Report(session, ticket, exit, Exit, bytes, at)]
  }

  lemma {:induction false} SeenAsSent(reports: seq<Report>, session: string, ticket: string, entry: Node, exit: Node,
                                      bytes: nat, at: nat, from: nat, to: nat)
    requires from <= at < to
    requires var both := BothSides(session, ticket, entry, exit, bytes, at);
             && both[0] in reports && both[1] in reports
             && forall r :: r in reports && r.session == session && from <= r.receivedAt < to ==> r in both
    ensures SummaryOf(reports, session, from, to) == Found(Summary(session, ticket, entry, exit, bytes, bytes))
  {
    var both := BothSides(session, ticket, entry, exit, bytes, at);
    assert InWindow(both[0], session, Entry, from, to) && InWindow(both[1], session, Exit, from, to);
    SummaryExact(reports, session, from, to, Summary(session, ticket, entry, exit, bytes, bytes));
  }

  /**
   * A session that used up its ticket before the boundary and reports once more
   * after it is paid its full price, less the margin, in both periods.
   */
  lemma {:induction false} BoundaryPaidTwice(s: Summary, tickets: map<string, TicketInfo>, margin: nat, from: nat,
                                             at: nat, border: nat, later: nat, to: nat)
    requires margin <= 100 && from <= at < border <= later < to && Payable(s, tickets)
    requires tickets[s.ticket].bytes == tickets[s.ticket].bytesAllowed
    ensures var t := tickets[s.ticket];
            var reports := BothSides(s.session, s.ticket, s.entryNode, s.exitNode, t.bytes, at)
                           + BothSides(s.session, s.ticket, s.entryNode, s.exitNode, t.bytes, later);
            && PaidFor(reports, s.session, tickets, margin, from, border) == t.amountSats * (100 - margin) / 100
            && PaidFor(reports, s.session, tickets, margin, border, to) == t.amountSats * (100 - margin) / 100
  {
    var t := tickets[s.ticket];
    var early := BothSides(s.session, s.ticket, s.entryNode, s.exitNode, t.bytes, at);
    var late := BothSides(s.session, s.ticket, s.entryNode, s.exitNode, t.bytes, later);
    var reports := early + late;
    assert reports[0] == early[0] && reports[1] == early[1] && reports[2] == late[0] && reports[3] == late[1];
    SeenAsSent(reports, s.session, s.ticket, s.entryNode, s.exitNode, t.bytes, at, from, border);
    SeenAsSent(reports, s.session, s.ticket, s.entryNode, s.exitNode, t.bytes, later, border, to);
    WholeRate(t.bytesAllowed, t.amountSats);
  }

  // ---- What an invoice's sessions earn over all periods ----

  /** The summaries of one period, session by session. */
  function PeriodSummaries(reports: seq<Report>, sessions: seq<string>, from: nat, to: nat): seq<Summary> {
    if sessions == [] then []
    else
      var n := |sessions| - 1;
      var found := SummaryOf(reports, sessions[n], from, to);
      PeriodSummaries(reports, sessions[..n], from, to) + if found.Found? then [found.summary] else []
  }

  /** The summaries of every period between one cut and the next. */
  function AllSummaries(reports: seq<Report>, sessions: seq<string>, cuts: seq<nat>): seq<Summary> {
    if |cuts| < 2 then []
    else
      var n := |cuts| - 1;
      AllSummaries(reports, sessions, cuts[..n]) + PeriodSummaries(reports, sessions, cuts[n - 1], cuts[n])
  }

  predicate Unrepeated(sessions: seq<string>) { forall i, j :: 0 <= i < j < |sessions| ==> sessions[i] != sessions[j] }

  /** No ticket occurs in the reports of two sessions. */
  predicate TicketsOwned(reports: seq<Report>) {
    forall r, q :: r in reports && q in reports && r.ticket == q.ticket ==> r.session == q.session
  }

  /** The session is billed in one of the periods at most. */
  ghost predicate BilledOnce(reports: seq<Report>, session: string, cuts: seq<nat>) {
    forall i, j :: 0 < i < j < |cuts| ==> !(BilledIn(reports, session, cuts, i) && BilledIn(reports, session, cuts, j))
  }

  ghost predicate BilledIn(reports: seq<Report>, session: string, cuts: seq<nat>, i: nat)
    requires 0 < i < |cuts|
  {
    BothReported(reports, session, cuts[i - 1], cuts[i])
  }

  /** The summary is what the period shows of one of the sessions. */
  predicate ShownIn(reports: seq<Report>, sessions: seq<string>, from: nat, to: nat, s: Summary) {
    s.session in sessions && SummaryOf(reports, s.session, from, to) == Found(s)
  }

  predicate SessionEach(all: seq<Summary>) { forall i, j :: 0 <= i < j < |all| ==> all[i].session != all[j].session }

  lemma {:induction false} PeriodShows(reports: seq<Report>, sessions: seq<string>, from: nat, to: nat)
    ensures forall s :: s in PeriodSummaries(reports, sessions, from, to) ==> ShownIn(reports, sessions, from, to, s)
  {
    if sessions != [] {
      var n := |sessions| - 1;
      var init, found := PeriodSummaries(reports, sessions[..n], from, to), SummaryOf(reports, sessions[n], from, to);
      PeriodShows(reports, sessions[..n], from, to);
      if found.Found? { SummaryExact(reports, sessions[n], from, to, found.summary); }
      forall s | s in PeriodSummaries(reports, sessions, from, to) ensures ShownIn(reports, sessions, from, to, s) {
        if s in init { assert ShownIn(reports, sessions[..n], from, to, s); } else { assert s == found.summary; }
      }
    }
  }

  lemma {:induction false} PeriodSessionEach(reports: seq<Report>, sessions: seq<string>, from: nat, to: nat)
    requires Unrepeated(sessions)
    ensures SessionEach(PeriodSummaries(reports, sessions, from, to))
  {
    if sessions != [] {
      var n := |sessions| - 1;
      var init, found := PeriodSummaries(reports, sessions[..n], from, to), SummaryOf(reports, sessions[n], from, to);
      PeriodSessionEach(reports, sessions[..n], from, to);
      PeriodShows(reports, sessions[..n], from, to);
      assert sessions[n] !in sessions[..n];
      if found.Found? {
        SummaryExact(reports, sessions[n], from, to, found.summary);
        OneMoreSession(init, found.summary);
      } else {
        assert PeriodSummaries(reports, sessions, from, to) == init;
      }
    }
  }

  lemma {:induction false} OneMoreSession(all: seq<Summary>, s: Summary)
    requires SessionEach(all) && forall x :: x in all ==> x.session != s.session
    ensures SessionEach(all + [s])
  {
    assert forall i :: 0 <= i < |all| ==> all[i] in all;
  }

  /** Where a summary of all the periods comes from. */
  ghost predicate From(reports: seq<Report>, sessions: seq<string>, cuts: seq<nat>, s: Summary, i: nat) {
    0 < i < |cuts| && ShownIn(reports, sessions, cuts[i - 1], cuts[i], s)
  }

  lemma {:induction false} SomePeriodShows(reports: seq<Report>, sessions: seq<string>, cuts: seq<nat>, s: Summary)
    returns (i: nat)
    requires s in AllSummaries(reports, sessions, cuts)
    ensures From(reports, sessions, cuts, s, i)
  {
    var n := |cuts| - 1;
    PeriodShows(reports, sessions, cuts[n - 1], cuts[n]);
    if s in PeriodSummaries(reports, sessions, cuts[n - 1], cuts[n]) {
      i := n;
    } else {
      i := SomePeriodShows(reports, sessions, cuts[..n], s);
      assert cuts[..n][i - 1] == cuts[i - 1] && cuts[..n][i] == cuts[i];
    }
  }

  lemma {:induction false} TicketTellsSession(reports: seq<Report>, s: Summary, from: nat, to: nat, t: Summary,
                                              from2: nat, to2: nat)
    requires TicketsOwned(reports) && s.ticket == t.ticket
    requires SummaryOf(reports, s.session, from, to) == Found(s)
             && SummaryOf(reports, t.session, from2, to2) == Found(t)
    ensures s.session == t.session
  {
    SummaryExact(reports, s.session, from, to, s);
    SummaryExact(reports, t.session, from2, to2, t);
    var r :| r in reports && InWindow(r, s.session, Entry, from, to) && r.bytes == s.entryBytes;
    var q :| q in reports && InWindow(q, t.session, Entry, from2, to2) && q.bytes == t.entryBytes;
  }

  lemma {:induction false} FewerCuts(reports: seq<Report>, session: string, cuts: seq<nat>)
    requires cuts != [] && BilledOnce(reports, session, cuts)
    ensures BilledOnce(reports, session, cuts[..|cuts| - 1])
  {
    var less := cuts[..|cuts| - 1];
    forall i, j | 0 < i < j < |less|
      ensures !(BilledIn(reports, session, less, i) && BilledIn(reports, session, less, j))
    {
      assert BilledIn(reports, session, less, i) == BilledIn(reports, session, cuts, i);
      assert BilledIn(reports, session, less, j) == BilledIn(reports, session, cuts, j);
    }
  }

  predicate TicketApart(all: seq<Summary>) { forall i, j :: 0 <= i < j < |all| ==> all[i].ticket != all[j].ticket }

  lemma {:induction false} ApartConcat(before: seq<Summary>, last: seq<Summary>)
    requires TicketApart(before) && TicketApart(last)
    requires forall s, t :: s in before && t in last ==> s.ticket != t.ticket
    ensures TicketApart(before + last)
  {
    assert forall i :: 0 <= i < |before| ==> before[i] in before;
    assert forall i :: 0 <= i < |last| ==> last[i] in last;
  }

  lemma {:induction false} PeriodTicketEach(reports: seq<Report>, sessions: seq<string>, from: nat, to: nat)
    requires Unrepeated(sessions) && TicketsOwned(reports)
    ensures TicketApart(PeriodSummaries(reports, sessions, from, to))
  {
    var all := PeriodSummaries(reports, sessions, from, to);
    PeriodShows(reports, sessions, from, to);
    PeriodSessionEach(reports, sessions, from, to);
    forall i, j | 0 <= i < j < |all| ensures all[i].ticket != all[j].ticket {
      assert ShownIn(reports, sessions, from, to, all[i]) && ShownIn(reports, sessions, from, to, all[j]);
      if all[i].ticket == all[j].ticket { TicketTellsSession(reports, all[i], from, to, all[j], from, to); }
    }
  }

  /** A summary of the last period is on another ticket than one of an earlier period. */
  lemma {:induction false} NotBilledAgain(reports: seq<Report>, sessions: seq<string>, cuts: seq<nat>, s: Summary,
                                          i: nat, t: Summary)
    requires |cuts| >= 2 && TicketsOwned(reports)
    requires forall k :: 0 <= k < |sessions| ==> BilledOnce(reports, sessions[k], cuts)
    requires From(reports, sessions, cuts, s, i) && i < |cuts| - 1 && From(reports, sessions, cuts, t, |cuts| - 1)
    ensures s.ticket != t.ticket
  {
    var n := |cuts| - 1;
    if s.ticket == t.ticket {
      TicketTellsSession(reports, s, cuts[i - 1], cuts[i], t, cuts[n - 1], cuts[n]);
      FoundExact(reports, s.session, cuts[i - 1], cuts[i]);
      FoundExact(reports, s.session, cuts[n - 1], cuts[n]);
      assert BilledIn(reports, s.session, cuts, i) && BilledIn(reports, s.session, cuts, n);
    }
  }

  lemma {:induction false} EachOnATicket(reports: seq<Report>, sessions: seq<string>, cuts: seq<nat>)
    requires Unrepeated(sessions) && TicketsOwned(reports)
    requires forall i :: 0 <= i < |sessions| ==> BilledOnce(reports, sessions[i], cuts)
    ensures TicketApart(AllSummaries(reports, sessions, cuts))
  {
    if |cuts| >= 2 {
      var n := |cuts| - 1;
      var fewer := cuts[..n];
      forall i | 0 <= i < |sessions| ensures BilledOnce(reports, sessions[i], fewer) {
        FewerCuts(reports, sessions[i], cuts);
      }
      EachOnATicket(reports, sessions, fewer);
      var before := AllSummaries(reports, sessions, fewer);
      var last := PeriodSummaries(reports, sessions, cuts[n - 1], cuts[n]);
      PeriodTicketEach(reports, sessions, cuts[n - 1], cuts[n]);
      PeriodShows(reports, sessions, cuts[n - 1], cuts[n]);
      forall s, t | s in before && t in last ensures s.ticket != t.ticket {
        var i := SomePeriodShows(reports, sessions, fewer, s);
        assert fewer[i - 1] == cuts[i - 1] && fewer[i] == cuts[i];
        NotBilledAgain(reports, sessions, cuts, s, i, t);
      }
      ApartConcat(before, last);
    }
  }

  /**
   * Over any number of consecutive periods: if no session is billed in two of them
   * and no ticket serves two sessions, the pools of an invoice's sessions in all
   * the periods together stay within its price less the hub's margin.
   */
  lemma {:induction false} InvoiceBoundsAllPeriods(reports: seq<Report>, sessions: seq<string>, cuts: seq<nat>,
                                                   invoice: string, ids: seq<string>, tickets: map<string, TicketInfo>,
                                                   margin: nat, amountSats: nat, bytesAllowed: nat)
    requires Unrepeated(sessions) && TicketsOwned(reports)
    requires forall i :: 0 <= i < |sessions| ==> BilledOnce(reports, sessions[i], cuts)
    requires margin <= 100 && bytesAllowed > 0 && OneInvoice(invoice, tickets, amountSats, bytesAllowed)
    requires forall t :: t in tickets && tickets[t].invoice == invoice ==> t in ids
    requires SumBy(ids, TicketBytes(tickets)) <= bytesAllowed
    ensures SumBy(AllSummaries(reports, sessions, cuts), PoolWithin(invoice, tickets, margin))
            <= amountSats * (100 - margin) / 100
  {
    EachOnATicket(reports, sessions, cuts);
    InvoiceBoundsPools(AllSummaries(reports, sessions, cuts), invoice, ids, tickets, margin, amountSats, bytesAllowed);
  }

  lemma {:induction false} WholeRate(bytes: nat, amount: nat)
    requires bytes > 0
    ensures ComputePayoutSats(bytes, amount, bytes) == amount
  {
    FloorBelow(bytes * amount, bytes);
    FloorMono(amount, bytes * amount, bytes);
    CancelRight(bytes * amount / bytes, amount, bytes);
  }

  // ---- What an invoice can come to, whatever the nodes report ----

  /** The ticket each session runs on, and the nodes that serve it. */
  datatype Use = Use(ticketOf: string -> string, entry: Node, exit: Node)

  /** Every report of the sessions names the session's ticket. */
  predicate Sticks(reports: seq<Report>, sessions: seq<string>, use: Use) {
    forall r :: r in reports && r.session in sessions ==> r.ticket == use.ticketOf(r.session)
  }

  function AllBytes(session: string, use: Use, tickets: map<string, TicketInfo>): nat {
    TicketBytes(tickets)(use.ticketOf(session))
  }

  /** The session with its ticket used up. */
  function FullSummary(session: string, use: Use, tickets: map<string, TicketInfo>): Summary {
    var bytes := AllBytes(session, use, tickets);
    Summary(session, use.ticketOf(session), use.entry, use.exit, bytes, bytes)
  }

  /** What the session's nodes share of the invoice when its ticket is used up. */
  function FullPool(use: Use, invoice: string, tickets: map<string, TicketInfo>, margin: nat): string -> nat
    requires margin <= 100
  {
    session => PoolWithin(invoice, tickets, margin)(FullSummary(session, use, tickets))
  }

  lemma {:induction false} ShownIsWithinFull(reports: seq<Report>, sessions: seq<string>, use: Use, invoice: string,
                                             tickets: map<string, TicketInfo>, margin: nat, from: nat, to: nat,
                                             s: Summary)
    requires margin <= 100 && Sticks(reports, sessions, use) && ShownIn(reports, sessions, from, to, s)
    ensures PoolWithin(invoice, tickets, margin)(s) <= FullPool(use, invoice, tickets, margin)(s.session)
  {
    SummaryExact(reports, s.session, from, to, s);
    var r :| r in reports && InWindow(r, s.session, Entry, from, to) && r.bytes == s.entryBytes;
    assert s.ticket == use.ticketOf(s.session);
    PoolMono(s, FullSummary(s.session, use, tickets), tickets, margin);
  }

  lemma {:induction false} PeriodWithinFull(reports: seq<Report>, sessions: seq<string>, use: Use, invoice: string,
                                            tickets: map<string, TicketInfo>, margin: nat, from: nat, to: nat)
    requires margin <= 100 && Sticks(reports, sessions, use)
    ensures SumBy(PeriodSummaries(reports, sessions, from, to), PoolWithin(invoice, tickets, margin))
            <= SumBy(sessions, FullPool(use, invoice, tickets, margin))
  {
    if sessions != [] {
      var n := |sessions| - 1;
      assert sessions == sessions[..n] + [sessions[n]];
      PeriodWithinFull(reports, sessions[..n], use, invoice, tickets, margin, from, to);
      var found := SummaryOf(reports, sessions[n], from, to);
      if found.Found? {
        var s := found.summary;
        SummaryExact(reports, sessions[n], from, to, s);
        ShownIsWithinFull(reports, sessions, use, invoice, tickets, margin, from, to, s);
        SumByPush(PeriodSummaries(reports, sessions[..n], from, to), s, PoolWithin(invoice, tickets, margin));
      } else {
        assert PeriodSummaries(reports, sessions, from, to) == PeriodSummaries(reports, sessions[..n], from, to);
      }
    }
  }

  function Periods(cuts: seq<nat>): nat { if |cuts| < 2 then 0 else |cuts| - 1 }

  lemma {:induction false} AllWithinFull(reports: seq<Report>, sessions: seq<string>, cuts: seq<nat>, use: Use,
                                         invoice: string, tickets: map<string, TicketInfo>, margin: nat)
    requires margin <= 100 && Sticks(reports, sessions, use)
    ensures SumBy(AllSummaries(reports, sessions, cuts), PoolWithin(invoice, tickets, margin))
            <= Periods(cuts) * SumBy(sessions, FullPool(use, invoice, tickets, margin))
  {
    if |cuts| >= 2 {
      var n := |cuts| - 1;
      var full := SumBy(sessions, FullPool(use, invoice, tickets, margin));
      AllWithinFull(reports, sessions, cuts[..n], use, invoice, tickets, margin);
      PeriodWithinFull(reports, sessions, use, invoice, tickets, margin, cuts[n - 1], cuts[n]);
      SumByConcat(AllSummaries(reports, sessions, cuts[..n]), PeriodSummaries(reports, sessions, cuts[n - 1], cuts[n]),
                  PoolWithin(invoice, tickets, margin));
      Distribute(n - 1, 1, full);
    }
  }

  /** Every session reports its ticket used up, on both sides. */
  function FullReports(sessions: seq<string>, use: Use, tickets: map<string, TicketInfo>, at: nat): seq<Report> {
    if sessions == [] then []
    else
      var n := |sessions| - 1;
      FullReports(sessions[..n], use, tickets, at) + FullSides(sessions[n], use, tickets, at)
  }

  function FullSides(session: string, use: Use, tickets: map<string, TicketInfo>, at: nat): seq<Report> {
    BothSides(session, use.ticketOf(session), use.entry, use.exit, AllBytes(session, use, tickets), at)
  }

  /** ... and does so again in each period. */
  function FullUse(sessions: seq<string>, cuts: seq<nat>, use: Use, tickets: map<string, TicketInfo>): seq<Report> {
    if |cuts| < 2 then []
    else
      var n := |cuts| - 1;
      FullUse(sessions, cuts[..n], use, tickets) + FullReports(sessions, use, tickets, cuts[n - 1])
  }

  lemma {:induction false} FullReportsHold(sessions: seq<string>, use: Use, tickets: map<string, TicketInfo>, at: nat)
    ensures var all := FullReports(sessions, use, tickets, at);
            && (forall r :: r in all ==> r.receivedAt == at && r in FullSides(r.session, use, tickets, at))
            && (forall x :: x in sessions ==> forall r :: r in FullSides(x, use, tickets, at) ==> r in all)
  {
    if sessions != [] {
      var n := |sessions| - 1;
      assert sessions == sessions[..n] + [sessions[n]];
      FullReportsHold(sessions[..n], use, tickets, at);
    }
  }

  predicate Increasing(cuts: seq<nat>) { forall i, j :: 0 <= i < j < |cuts| ==> cuts[i] < cuts[j] }

  ghost predicate AtACut(cuts: seq<nat>, r: Report) { exists p :: 0 <= p < |cuts| - 1 && r.receivedAt == cuts[p] }

  lemma {:induction false} FullUseHolds(sessions: seq<string>, cuts: seq<nat>, use: Use,
                                        tickets: map<string, TicketInfo>)
    ensures var all := FullUse(sessions, cuts, use, tickets);
            && (forall r :: r in all ==> AtACut(cuts, r) && r in FullSides(r.session, use, tickets, r.receivedAt))
            && (forall p, x :: 0 <= p < |cuts| - 1 && x in sessions ==>
                  forall r :: r in FullSides(x, use, tickets, cuts[p]) ==> r in all)
  {
    if |cuts| >= 2 {
      var n := |cuts| - 1;
      var fewer := cuts[..n];
      FullUseHolds(sessions, fewer, use, tickets);
      FullReportsHold(sessions, use, tickets, cuts[n - 1]);
      var all := FullUse(sessions, cuts, use, tickets);
      forall r | r in all ensures AtACut(cuts, r) && r in FullSides(r.session, use, tickets, r.receivedAt) {
        if r in FullUse(sessions, fewer, use, tickets) {
          var p :| 0 <= p < |fewer| - 1 && r.receivedAt == fewer[p];
          assert r.receivedAt == cuts[p];
        }
      }
      forall p, x, r | 0 <= p < n && x in sessions && r in FullSides(x, use, tickets, cuts[p]) ensures r in all {
        if p < n - 1 { assert fewer[p] == cuts[p]; }
      }
    }
  }

  lemma {:induction false} OnlyThatCut(cuts: seq<nat>, p: nat, q: nat)
    requires Increasing(cuts) && p + 1 < |cuts| && q < |cuts| && cuts[p] <= cuts[q] < cuts[p + 1]
    ensures q == p
  {
  }

  lemma {:induction false} FullUseShows(sessions: seq<string>, cuts: seq<nat>, use: Use,
                                        tickets: map<string, TicketInfo>, p: nat, x: string)
    requires Increasing(cuts) && p + 1 < |cuts| && x in sessions
    ensures SummaryOf(FullUse(sessions, cuts, use, tickets), x, cuts[p], cuts[p + 1])
            == Found(FullSummary(x, use, tickets))
  {
    var all, both := FullUse(sessions, cuts, use, tickets), FullSides(x, use, tickets, cuts[p]);
    FullUseHolds(sessions, cuts, use, tickets);
    assert both[0] in both && both[1] in both;
    forall r | r in all && r.session == x && cuts[p] <= r.receivedAt < cuts[p + 1] ensures r in both {
      var q :| 0 <= q < |cuts| - 1 && r.receivedAt == cuts[q];
      OnlyThatCut(cuts, p, q);
    }
    SeenAsSent(all, x, use.ticketOf(x), use.entry, use.exit, AllBytes(x, use, tickets), cuts[p], cuts[p], cuts[p + 1]);
  }

  lemma {:induction false} PeriodAtFull(reports: seq<Report>, sessions: seq<string>, use: Use, invoice: string,
                                        tickets: map<string, TicketInfo>, margin: nat, from: nat, to: nat)
    requires margin <= 100
    requires forall x :: x in sessions ==> SummaryOf(reports, x, from, to) == Found(FullSummary(x, use, tickets))
    ensures SumBy(PeriodSummaries(reports, sessions, from, to), PoolWithin(invoice, tickets, margin))
            == SumBy(sessions, FullPool(use, invoice, tickets, margin))
  {
    if sessions != [] {
      var n := |sessions| - 1;
      assert sessions == sessions[..n] + [sessions[n]];
      PeriodAtFull(reports, sessions[..n], use, invoice, tickets, margin, from, to);
      SumByPush(PeriodSummaries(reports, sessions[..n], from, to), FullSummary(sessions[n], use, tickets),
                PoolWithin(invoice, tickets, margin));
    }
  }

  lemma {:induction false} AllAtFull(reports: seq<Report>, sessions: seq<string>, cuts: seq<nat>, use: Use,
                                     invoice: string, tickets: map<string, TicketInfo>, margin: nat)
    requires margin <= 100
    requires forall p, x :: 0 < p < |cuts| && x in sessions ==>
               SummaryOf(reports, x, cuts[p - 1], cuts[p]) == Found(FullSummary(x, use, tickets))
    ensures SumBy(AllSummaries(reports, sessions, cuts), PoolWithin(invoice, tickets, margin))
            == Periods(cuts) * SumBy(sessions, FullPool(use, invoice, tickets, margin))
  {
    if |cuts| >= 2 {
      var n := |cuts| - 1;
      var fewer := cuts[..n];
      forall p, x | 0 < p < |fewer| && x in sessions
        ensures SummaryOf(reports, x, fewer[p - 1], fewer[p]) == Found(FullSummary(x, use, tickets))
      {
        assert fewer[p - 1] == cuts[p - 1] && fewer[p] == cuts[p];
      }
      AllAtFull(reports, sessions, fewer, use, invoice, tickets, margin);
      PeriodAtFull(reports, sessions, use, invoice, tickets, margin, cuts[n - 1], cuts[n]);
      SumByConcat(AllSummaries(reports, sessions, fewer), PeriodSummaries(reports, sessions, cuts[n - 1], cuts[n]),
                  PoolWithin(invoice, tickets, margin));
      Distribute(n - 1, 1, SumBy(sessions, FullPool(use, invoice, tickets, margin)));
    }
  }

  lemma {:induction false} FullUseSticks(sessions: seq<string>, cuts: seq<nat>, use: Use,
                                         tickets: map<string, TicketInfo>)
    ensures Sticks(FullUse(sessions, cuts, use, tickets), sessions, use)
  {
    FullUseHolds(sessions, cuts, use, tickets);
  }

  /** Pools come to the most when every session uses up its ticket in every period. */
  lemma {:induction false} FullUseIsReached(sessions: seq<string>, cuts: seq<nat>, use: Use, invoice: string,
                                            tickets: map<string, TicketInfo>, margin: nat)
    requires margin <= 100 && Increasing(cuts)
    ensures var all := AllSummaries(FullUse(sessions, cuts, use, tickets), sessions, cuts);
            SumBy(all, PoolWithin(invoice, tickets, margin))
            == Periods(cuts) * SumBy(sessions, FullPool(use, invoice, tickets, margin))
  {
    var all := FullUse(sessions, cuts, use, tickets);
    forall p, x | 0 < p < |cuts| && x in sessions
      ensures SummaryOf(all, x, cuts[p - 1], cuts[p]) == Found(FullSummary(x, use, tickets))
    {
      FullUseShows(sessions, cuts, use, tickets, p - 1, x);
    }
    AllAtFull(all, sessions, cuts, use, invoice, tickets, margin);
  }

  /** What an invoice's sessions are paid in all the periods together. */
  function PaidInAll(reports: seq<Report>, sessions: seq<string>, cuts: seq<nat>, invoice: string,
                     tickets: map<string, TicketInfo>, margin: nat): nat
    requires margin <= 100
  {
    SumBy(AllSummaries(reports, sessions, cuts), PoolWithin(invoice, tickets, margin))
  }

  /**
   * Exactly when an invoice cannot be overpaid: whatever the nodes report, the
   * pools of its sessions over all periods stay within a limit if and only if the
   * pools at full use of every session's ticket do, counted once for each period.
   */
  lemma {:induction false} InvoiceBoundExact(sessions: seq<string>, cuts: seq<nat>, use: Use, invoice: string,
                                             tickets: map<string, TicketInfo>, margin: nat, limit: nat)
    requires margin <= 100 && Increasing(cuts)
    ensures (forall reports :: Sticks(reports, sessions, use) ==>
               PaidInAll(reports, sessions, cuts, invoice, tickets, margin) <= limit)
            <==> Periods(cuts) * SumBy(sessions, FullPool(use, invoice, tickets, margin)) <= limit
  {
    var full := FullUse(sessions, cuts, use, tickets);
    FullUseSticks(sessions, cuts, use, tickets);
    FullUseIsReached(sessions, cuts, use, invoice, tickets, margin);
    assert PaidInAll(full, sessions, cuts, invoice, tickets, margin)
           == Periods(cuts) * SumBy(sessions, FullPool(use, invoice, tickets, margin));
    forall reports | Sticks(reports, sessions, use)
      ensures PaidInAll(reports, sessions, cuts, invoice, tickets, margin)
              <= Periods(cuts) * SumBy(sessions, FullPool(use, invoice, tickets, margin))
    {
      AllWithinFull(reports, sessions, cuts, use, invoice, tickets, margin);
    }
  }

  lemma {:induction false} SameEach(sessions: seq<string>, f: string -> nat, value: nat)
    requires forall x :: x in sessions ==> f(x) == value
    ensures SumBy(sessions, f) == |sessions| * value
  {
    if sessions != [] {
      var n := |sessions| - 1;
      assert sessions == sessions[..n] + [sessions[n]];
      SameEach(sessions[..n], f, value);
      Distribute(n, 1, value);
    }
  }

  /**
   * Any number of sessions can report the same ticket, which nothing refuses. When
   * it carries the invoice's whole allowance, a period in which each of them
   * reports it used up pays the price, less the margin, once for every session.
   */
  lemma {:induction false} SharedTicketPaidForEach(sessions: seq<string>, ticket: string, entry: Node, exit: Node,
                                                   tickets: map<string, TicketInfo>, margin: nat, from: nat, to: nat)
    requires margin <= 100 && from < to && ticket in tickets && Unrepeated(sessions)
    requires var t := tickets[ticket]; t.redeemed && t.settled && t.bytes == t.bytesAllowed != 0
    ensures var t, use := tickets[ticket], Use(_ => ticket, entry, exit);
            PaidInAll(FullUse(sessions, [from, to], use, tickets), sessions, [from, to], t.invoice, tickets, margin)
            == |sessions| * (t.amountSats * (100 - margin) / 100)
  {
    var t, use := tickets[ticket], Use(_ => ticket, entry, exit);
    FullUseIsReached(sessions, [from, to], use, t.invoice, tickets, margin);
    WholeRate(t.bytesAllowed, t.amountSats);
    forall x | x in sessions
      ensures FullPool(use, t.invoice, tickets, margin)(x) == t.amountSats * (100 - margin) / 100
    {
      var full := FullSummary(x, use, tickets);
      assert full.ticket == ticket && OfInvoice(full, t.invoice, tickets) && Billable(full, tickets) == t.bytes;
    }
    SameEach(sessions, FullPool(use, t.invoice, tickets, margin), t.amountSats * (100 - margin) / 100);
  }
}
