/**
 * The budget check in front of the payout table, with any number of settlements
 * at once. Each goes by the totals it read when it began and by the payouts it
 * inserted itself.
 */
module PayoutBudget {
  import opened Sums
  import opened PayoutProtocol
  import Payouts
  import Settlement

  /** A settlement paying out, by what it takes to be purchased and committed and by what is left of its list. */
  datatype Loop =
    | Counted(purchased: nat, committed: nat)
    | Listed(purchased: nat, committed: nat, list: seq<nat>)
    | Over

  datatype Ledger = Ledger(books: Books, purchased: nat, minPayout: nat, loops: seq<Loop>)

  datatype Move =
    | Buy(sats: nat)
    | Begin(read: nat)
    | List(loop: nat)
    | Offer(loop: nat)
    | Stop(loop: nat)
    | Work(step: Step)

  function Opening(minPayout: nat): Ledger { Ledger(START, 0, minPayout, []) }

  function RowCounted(r: Row): nat { Payouts.Counted(r.payout) }

  function Committed(s: Books): nat { SumBy(s.rows, RowCounted) }

  function PayoutsOf(rows: seq<Row>): seq<Payout> {
    seq(|rows|, i requires 0 <= i < |rows| => rows[i].payout)
  }

  function ToPay(l: Ledger): seq<nat> {
    Payouts.UnsettledUpTo(l.books.entries, PayoutsOf(l.books.rows), l.minPayout, |l.books.entries|)
  }

  function WithLoop(l: Ledger, i: nat, loop: Loop): Ledger
    requires i < |l.loops|
  {
    l.(loops := l.loops[i := loop])
  }

  /** The committed total is read after the purchases, which may have grown meanwhile. */
  function DoBegin(l: Ledger, read: nat): Ledger {
    if read > l.purchased then l else l.(loops := l.loops + [Counted(read, Committed(l.books))])
  }

  function DoList(l: Ledger, i: nat): Ledger {
    if i >= |l.loops| || !l.loops[i].Counted? then l
    else WithLoop(l, i, Listed(l.loops[i].purchased, l.loops[i].committed, ToPay(l)))
  }

  predicate CanOffer(l: Ledger, i: nat) {
    i < |l.loops| && l.loops[i].Listed? && l.loops[i].list != [] && l.loops[i].list[0] < |l.books.entries|
  }

  /** An entry that would exceed the budget ends the loop; one that cannot be inserted is passed over uncounted. */
  function DoOffer(l: Ledger, i: nat): Ledger {
    if !CanOffer(l, i) then l
    else
      var loop := l.loops[i];
      var entry, rest := loop.list[0], loop.list[1..];
      var amount, books := l.books.entries[entry].amount, DoAddPayout(l.books, entry);
      if loop.committed + amount > loop.purchased then WithLoop(l, i, Over)
      else if books == l.books then WithLoop(l, i, loop.(list := rest))
      else WithLoop(l.(books := books), i, loop.(committed := loop.committed + amount, list := rest))
  }

  function After(l: Ledger, move: Move): Ledger {
    match move
    case Buy(sats) => l.(purchased := l.purchased + sats)
    case Begin(read) => DoBegin(l, read)
    case List(i) => DoList(l, i)
    case Offer(i) => DoOffer(l, i)
    case Stop(i) => if i < |l.loops| then WithLoop(l, i, Over) else l
    case Work(step) => if step.AddPayout? then l else l.(books := Next(l.books, step))
  }

  function Play(l: Ledger, moves: seq<Move>): Ledger {
    if moves == [] then l else After(Play(l, moves[..|moves| - 1]), moves[|moves| - 1])
  }

  /** What a loop takes to be free, when that is enough for a payout. */
  function Room(minPayout: nat): Loop -> nat {
    (loop: Loop) => if !loop.Over? && loop.committed < loop.purchased && minPayout <= loop.purchased - loop.committed
                    then loop.purchased - loop.committed else 0
  }

  function Rooms(l: Ledger): nat { SumBy(l.loops, Room(l.minPayout)) }

  /** Everything promised and everything the loops under way may still promise. */
  function Exposure(l: Ledger): nat { Committed(l.books) + Rooms(l) }

  predicate Overspent(l: Ledger) { Committed(l.books) > l.purchased }

  // ---- What each move does to the exposure ----

  /** The only step on the books that promises more is a retry. */
  function Promised(s: Books, step: Step): nat {
    if step.Retry? && step.id < |s.rows| && CanRetry(s.rows[step.id].payout) then s.rows[step.id].payout.amount else 0
  }

  lemma {:induction false} RowUpdate(s: Books, id: nat, row: Row)
    requires id < |s.rows|
    ensures SumBy(s.rows[id := row], RowCounted) + RowCounted(s.rows[id]) == Committed(s) + RowCounted(row)
  {
    SumByUpdate(s.rows, id, row, RowCounted);
  }

  lemma {:induction false} WorkPromises(s: Books, step: Step)
    requires !step.AddPayout?
    ensures Committed(Next(s, step)) <= Committed(s) + Promised(s, step)
    ensures step.Retry? ==> Committed(Next(s, step)) == Committed(s) + Promised(s, step)
  {
    match step
    case AddEntry(_) =>
    case Retry(id) => if id < |s.rows| {
      RowUpdate(s, id, s.rows[id].(payout := s.rows[id].payout.(status := Retrying)));
    }
    case Mark(w) => if w in s.workers && s.workers[w].id < |s.rows| {
      var id := s.workers[w].id;
      RowUpdate(s, id, s.rows[id].(payout := Started(s.rows[id].payout)));
    }
    case Call(w, told, reached) => if w in s.workers && s.workers[w].id < |s.rows| {
      var row := s.rows[s.workers[w].id];
      RowUpdate(s, s.workers[w].id,
                row.(calls := row.calls + 1, delivered := row.delivered + if reached then 1 else 0));
    }
    case Record(w, written) => if w in s.workers && s.workers[w].ToRecord? && s.workers[w].id < |s.rows| {
      var id := s.workers[w].id;
      RowUpdate(s, id, s.rows[id].(payout := Recorded(s.rows[id].payout, s.workers[w].told)));
    }
    case Die(_) =>
  }

  lemma {:induction false} AddPromises(s: Books, entry: nat)
    requires DoAddPayout(s, entry) != s
    ensures Committed(DoAddPayout(s, entry)) == Committed(s) + s.entries[entry].amount
  {
    SumByPush(s.rows, Row(Payout(entry, s.entries[entry].amount, Pending, 0), 0, 0), RowCounted);
  }

  lemma {:induction false} LoopUpdate(l: Ledger, i: nat, loop: Loop)
    requires i < |l.loops|
    ensures Rooms(WithLoop(l, i, loop)) + Room(l.minPayout)(l.loops[i]) == Rooms(l) + Room(l.minPayout)(loop)
  {
    SumByUpdate(l.loops, i, loop, Room(l.minPayout));
  }

  /** Whatever a loop still has on its list is an entry worth a payout. */
  predicate ListsOK(l: Ledger) {
    forall i, k :: 0 <= i < |l.loops| && l.loops[i].Listed? && 0 <= k < |l.loops[i].list| ==>
      WorthPaying(l, l.loops[i].list[k])
  }

  predicate WorthPaying(l: Ledger, entry: nat) {
    entry < |l.books.entries| && l.books.entries[entry].amount >= l.minPayout
  }

  /** A loop that inserts a payout turns room into promise; otherwise an offer only ever gives room up. */
  lemma {:induction false} OfferKeepsExposure(l: Ledger, i: nat)
    requires ListsOK(l)
    ensures Exposure(DoOffer(l, i)) <= Exposure(l)
  {
    if CanOffer(l, i) {
      var loop := l.loops[i];
      var entry, rest := loop.list[0], loop.list[1..];
      var amount := l.books.entries[entry].amount;
      assert WorthPaying(l, entry);
      if loop.committed + amount > loop.purchased {
        LoopUpdate(l, i, Over);
      } else if DoAddPayout(l.books, entry) == l.books {
        LoopUpdate(l, i, loop.(list := rest));
      } else {
        AddPromises(l.books, entry);
        LoopUpdate(l, i, loop.(committed := loop.committed + amount, list := rest));
      }
    }
  }

  /** A beginning loop adds what it takes to be free, a retry what it sends again; no other move adds anything. */
  function Added(l: Ledger, move: Move): nat {
    if move.Begin? && move.read <= l.purchased then Room(l.minPayout)(Counted(move.read, Committed(l.books)))
    else if move.Work? then Promised(l.books, move.step)
    else 0
  }

  lemma {:induction false} MoveExposes(l: Ledger, move: Move)
    requires ListsOK(l)
    ensures Exposure(After(l, move)) <= Exposure(l) + Added(l, move)
    ensures Added(l, move) > 0 ==> Exposure(After(l, move)) == Exposure(l) + Added(l, move)
  {
    match move
    case Buy(_) =>
    case Begin(read) => SumByPush(l.loops, Counted(read, Committed(l.books)), Room(l.minPayout));
    case List(i) => if i < |l.loops| && l.loops[i].Counted? {
      LoopUpdate(l, i, Listed(l.loops[i].purchased, l.loops[i].committed, ToPay(l)));
    }
    case Offer(i) => OfferKeepsExposure(l, i);
    case Stop(i) => if i < |l.loops| { LoopUpdate(l, i, Over); }
    case Work(step) => if !step.AddPayout? { WorkPromises(l.books, step); }
  }

  predicate Sound(l: Ledger) { Inv(l.books) && ListsOK(l) }

  /** Entries are never taken away, so lists stay lists of entries. */
  lemma {:induction false} ListsKeep(l: Ledger, m: Ledger)
    requires ListsOK(l) && l.books.entries <= m.books.entries && m.minPayout == l.minPayout
    requires forall i :: 0 <= i < |m.loops| && m.loops[i].Listed? ==> LoopOK(l, m.loops[i], i)
    ensures ListsOK(m)
  {
    forall i, k | 0 <= i < |m.loops| && m.loops[i].Listed? && 0 <= k < |m.loops[i].list|
      ensures WorthPaying(m, m.loops[i].list[k])
    {
      assert LoopOK(l, m.loops[i], i);
      assert WorthPaying(l, m.loops[i].list[k]);
    }
  }

  /** The loop is as it was, has less on its list, or has just read it. */
  predicate LoopOK(l: Ledger, loop: Loop, i: nat)
    requires loop.Listed?
  {
    || loop.list == ToPay(l)
    || (i < |l.loops| && l.loops[i].Listed?
        && (loop.list == l.loops[i].list || (l.loops[i].list != [] && loop.list == l.loops[i].list[1..])))
  }

  lemma {:induction false} SoundKept(l: Ledger, move: Move)
    requires Sound(l)
    ensures Sound(After(l, move))
  {
    match move
    case Buy(_) => ListsKeep(l, After(l, move));
    case Begin(_) => ListsKeep(l, After(l, move));
    case List(_) => ListsKeep(l, After(l, move));
    case Offer(i) => OfferKeepsSound(l, i);
    case Stop(_) => ListsKeep(l, After(l, move));
    case Work(step) =>
      NextKeeps(l.books, step);
      ListsKeep(l, After(l, move));
  }

  lemma {:induction false} OfferKeepsSound(l: Ledger, i: nat)
    requires Sound(l)
    ensures Sound(DoOffer(l, i))
  {
    if CanOffer(l, i) { AddPayoutKeeps(l.books, l.loops[i].list[0]); }
    ListsKeep(l, DoOffer(l, i));
  }

  // ---- When the promises can come to exceed the purchases ----

  /** The loops under way go on and the books are worked on, but no settlement begins and nothing is retried. */
  predicate Closing(move: Move) { !move.Begin? && !(move.Work? && move.step.Retry?) }

  predicate AllClosing(moves: seq<Move>) { forall i :: 0 <= i < |moves| ==> Closing(moves[i]) }

  lemma {:induction false} ClosingStep(l: Ledger, move: Move)
    requires Sound(l) && Closing(move)
    ensures Sound(After(l, move)) && Exposure(After(l, move)) <= Exposure(l)
    ensures After(l, move).purchased >= l.purchased
  {
    assert Added(l, move) == 0;
    MoveExposes(l, move);
    SoundKept(l, move);
  }

  lemma {:induction false} ClosingBounds(l: Ledger, moves: seq<Move>)
    requires Sound(l) && AllClosing(moves)
    ensures Sound(Play(l, moves)) && Exposure(Play(l, moves)) <= Exposure(l)
    ensures Play(l, moves).purchased >= l.purchased
  {
    if moves != [] {
      var last := |moves| - 1;
      var init, move := moves[..last], moves[last];
      assert AllClosing(init) by { assert forall i :: 0 <= i < last ==> init[i] == moves[i]; }
      ClosingBounds(l, init);
      ClosingStep(Play(l, init), move);
    }
  }

  /** A period no entry is of. */
  lemma {:induction false} NewPeriod(entries: seq<SettlementEntry>) returns (period: string)
    ensures forall i :: 0 <= i < |entries| ==> |entries[i].period| < |period|
  {
    if entries == [] {
      period := "x";
    } else {
      var last := |entries| - 1;
      var rest := NewPeriod(entries[..last]);
      assert forall i :: 0 <= i < last ==> entries[..last][i] == entries[i];
      period := if |rest| > |entries[last].period| then rest else entries[last].period + "x";
    }
  }

  /** The settlements under way have read their totals only, and every entry worth a payout has one. */
  predicate JustBegun(l: Ledger) {
    && ToPay(l) == [] && forall i :: 0 <= i < |l.loops| && Room(l.minPayout)(l.loops[i]) > 0 ==> l.loops[i].Counted?
  }

  /** One new entry is all a loop finds, and it is worth the loop's whole room. */
  lemma {:induction false} UseRoom(l: Ledger, i: nat) returns (add: Move, m: Ledger)
    requires Sound(l) && JustBegun(l) && i < |l.loops| && Room(l.minPayout)(l.loops[i]) > 0
    ensures Closing(add) && m == After(After(After(l, add), List(i)), Offer(i))
    ensures Sound(m) && JustBegun(m)
    ensures m.loops == l.loops[i := m.loops[i]] && Room(m.minPayout)(m.loops[i]) == 0
    ensures m.purchased == l.purchased && m.minPayout == l.minPayout
    ensures Committed(m.books) == Committed(l.books) + Room(l.minPayout)(l.loops[i])
  {
    var n, room := |l.books.entries|, Room(l.minPayout)(l.loops[i]);
    var period := NewPeriod(l.books.entries);
    var e := SettlementEntry(period, Settlement.Node(""), room);
    add := Work(AddEntry(e));
    var grown := After(l, add);
    NewEntry(l, e);
    var seen := After(grown, List(i));
    assert seen.loops[i] == Listed(l.loops[i].purchased, l.loops[i].committed, [n]);
    SoundKept(l, add);
    SoundKept(grown, List(i));
    SoundKept(seen, Offer(i));
    AddPromises(seen.books, n);
    m := After(seen, Offer(i));
    NewPaid(l, grown, m, e);
  }

  /** A new entry is all there is to pay. */
  lemma {:induction false} NewEntry(l: Ledger, e: SettlementEntry)
    requires Inv(l.books) && ToPay(l) == [] && e.amount >= l.minPayout
    requires forall i :: 0 <= i < |l.books.entries| ==> |l.books.entries[i].period| < |e.period|
    ensures var n, m := |l.books.entries|, After(l, Work(AddEntry(e)));
            m == l.(books := l.books.(entries := l.books.entries + [e])) && !HasPayout(m.books, n) && ToPay(m) == [n]
  {
    var n, m := |l.books.entries|, After(l, Work(AddEntry(e)));
    assert !HasEntry(l.books, e);
    forall i | 0 <= i < |m.books.rows| ensures m.books.rows[i].payout.entry < n {
      assert PaysEntry(l.books.entries, l.books.rows[i].payout);
    }
    var rows := PayoutsOf(m.books.rows);
    forall entry: nat | entry < n ensures !Payouts.Unsettled(m.books.entries, rows, m.minPayout, entry) {
      assert !Payouts.Unsettled(l.books.entries, rows, l.minPayout, entry);
    }
    NoneUnsettled(m.books.entries, rows, m.minPayout, n);
    assert Payouts.Unsettled(m.books.entries, rows, m.minPayout, n);
  }

  /** Once it has its payout, there is nothing to pay again. */
  lemma {:induction false} NewPaid(l: Ledger, grown: Ledger, m: Ledger, e: SettlementEntry)
    requires ToPay(grown) == [|l.books.entries|] && grown.books.entries == m.books.entries
             && grown.minPayout == m.minPayout
    requires |m.books.rows| == |grown.books.rows| + 1 && m.books.rows[..|grown.books.rows|] == grown.books.rows
    requires m.books.rows[|grown.books.rows|].payout.entry == |l.books.entries|
    ensures ToPay(m) == []
  {
    var n, was, now := |l.books.entries|, PayoutsOf(grown.books.rows), PayoutsOf(m.books.rows);
    assert forall k :: 0 <= k < |was| ==> now[k] == was[k];
    assert now[|was|].entry == n && Payouts.HasPayoutFor(now, n);
    forall entry: nat | entry < |m.books.entries|
      ensures !Payouts.Unsettled(m.books.entries, now, m.minPayout, entry)
    {
      assert entry != n ==> !Payouts.Unsettled(grown.books.entries, was, grown.minPayout, entry);
    }
    NoneUnsettled(m.books.entries, now, m.minPayout, |m.books.entries|);
  }

  lemma {:induction false} NoneUnsettled(entries: seq<SettlementEntry>, payouts: seq<Payout>, minPayout: nat, n: nat)
    requires n <= |entries|
    requires forall entry: nat :: entry < n ==> !Payouts.Unsettled(entries, payouts, minPayout, entry)
    ensures Payouts.UnsettledUpTo(entries, payouts, minPayout, n) == []
  {
    if n > 0 { NoneUnsettled(entries, payouts, minPayout, n - 1); }
  }

  /** Every one of the first n loops uses up its room. */
  lemma {:induction false} UseRooms(l: Ledger, n: nat) returns (moves: seq<Move>)
    requires Sound(l) && JustBegun(l) && n <= |l.loops|
    ensures AllClosing(moves) && Play(l, moves).purchased == l.purchased
    ensures Committed(Play(l, moves).books) == Committed(l.books) + SumBy(l.loops[..n], Room(l.minPayout))
    decreases n
  {
    if n == 0 {
      moves := [];
    } else {
      var i := n - 1;
      SumByPush(l.loops[..i], l.loops[i], Room(l.minPayout));
      assert l.loops[..n] == l.loops[..i] + [l.loops[i]];
      if Room(l.minPayout)(l.loops[i]) == 0 {
        moves := UseRooms(l, i);
      } else {
        var add, m := UseRoom(l, i);
        assert m.loops[..i] == l.loops[..i];
        var rest := UseRooms(m, i);
        moves := UseFirst(l, i, add, m, rest);
      }
    }
  }

  /** What a loop does for its new entry, before everything else. */
  lemma {:induction false} UseFirst(l: Ledger, i: nat, add: Move, m: Ledger, rest: seq<Move>) returns (moves: seq<Move>)
    requires Closing(add) && AllClosing(rest) && m == After(After(After(l, add), List(i)), Offer(i))
    ensures AllClosing(moves) && Play(l, moves) == Play(m, rest)
  {
    var first := [add, List(i), Offer(i)];
    PlayThree(l, add, List(i), Offer(i));
    PlayOn(l, first, rest);
    moves := first + rest;
  }

  lemma {:induction false} PlayThree(l: Ledger, a: Move, b: Move, c: Move)
    ensures Play(l, [a, b, c]) == After(After(After(l, a), b), c)
  {
    PlayPath([l, After(l, a), After(After(l, a), b), After(After(After(l, a), b), c)], [a, b, c]);
  }

  lemma {:induction false} PlayOn(l: Ledger, first: seq<Move>, rest: seq<Move>)
    ensures Play(l, first + rest) == Play(Play(l, first), rest)
  {
    if rest == [] {
      assert first + rest == first;
    } else {
      var last := |rest| - 1;
      assert (first + rest)[..|first + rest| - 1] == first + rest[..last];
      PlayOn(l, first, rest[..last]);
    }
  }

  predicate OverspendsLater(l: Ledger, moves: seq<Move>) { AllClosing(moves) && Overspent(Play(l, moves)) }

  /**
   * As long as no further settlement begins and nothing is retried, the promises
   * stay within the purchases when they cover what is promised already and what
   * every settlement under way takes to be free. For settlements that have read
   * their totals and not yet what there is to pay, that is exact: otherwise they
   * can come to promise more, each within the budget as it sees it.
   */
  lemma {:induction false} OverspendExact(l: Ledger)
    requires Sound(l)
    ensures Exposure(l) <= l.purchased ==> forall moves :: !OverspendsLater(l, moves)
    ensures JustBegun(l) ==> ((exists moves :: OverspendsLater(l, moves)) <==> Exposure(l) > l.purchased)
  {
    if Exposure(l) <= l.purchased {
      forall moves ensures !OverspendsLater(l, moves) {
        if AllClosing(moves) { ClosingBounds(l, moves); }
      }
    } else if JustBegun(l) {
      var moves := UseRooms(l, |l.loops|);
      assert l.loops[..|l.loops|] == l.loops;
      assert OverspendsLater(l, moves);
    }
  }

  /** The purchases cover everything promised and everything the settlements under way take to be free. */
  predicate Solvent(l: Ledger) { Sound(l) && Exposure(l) <= l.purchased }

  /**
   * One move leaves the purchases to cover everything if and only if they cover
   * what the move adds: what a settlement that begins takes to be free beside the
   * ones under way, or what a retry promises again.
   */
  lemma {:induction false} SolventExact(l: Ledger, move: Move)
    requires Solvent(l)
    ensures Solvent(After(l, move)) <==> Exposure(l) + Added(l, move) <= l.purchased
  {
    MoveExposes(l, move);
    SoundKept(l, move);
  }

  predicate Idle(l: Ledger) { forall i :: 0 <= i < |l.loops| ==> l.loops[i].Over? }

  /** No settlement begins while another is under way, and nothing is retried. */
  predicate InTurn(minPayout: nat, moves: seq<Move>) {
    forall i :: 0 <= i < |moves| ==>
      && (moves[i].Begin? ==> Idle(Play(Opening(minPayout), moves[..i])))
      && !(moves[i].Work? && moves[i].step.Retry?)
  }

  lemma {:induction false} IdleHasNoRoom(loops: seq<Loop>, minPayout: nat)
    requires forall i :: 0 <= i < |loops| ==> loops[i].Over?
    ensures SumBy(loops, Room(minPayout)) == 0
  {
    if loops != [] {
      assert loops[|loops| - 1].Over?;
      IdleHasNoRoom(loops[..|loops| - 1], minPayout);
    }
  }

  /**
   * Settlements that follow one another without retries never promise more than
   * was purchased, in any state of any run, whatever payments and crashes do.
   */
  lemma {:induction false} InTurnStaysSolvent(minPayout: nat, moves: seq<Move>)
    requires InTurn(minPayout, moves)
    ensures Solvent(Play(Opening(minPayout), moves)) && !Overspent(Play(Opening(minPayout), moves))
  {
    if moves != [] {
      var last := |moves| - 1;
      var l, move := Play(Opening(minPayout), moves[..last]), moves[last];
      assert forall i :: 0 <= i < last ==> moves[..last][i] == moves[i] && moves[..last][..i] == moves[..i];
      InTurnStaysSolvent(minPayout, moves[..last]);
      if move.Begin? { IdleHasNoRoom(l.loops, l.minPayout); }
      SolventExact(l, move);
    }
  }

  // ---- Two settlements side by side ----

  /**
   * Both see the same two entries. The first pays the one and stops before the
   * other; the second cannot insert the one, so does not count it, and pays the
   * other.
   */
  function SideBySide(e: SettlementEntry, f: SettlementEntry): seq<Move> { BothBegin(e, f) + OFFERS }

  function BothBegin(e: SettlementEntry, f: SettlementEntry): seq<Move> {
    [Buy(e.amount), Work(AddEntry(e)), Work(AddEntry(f)), Begin(e.amount), Begin(e.amount), List(0), List(1)]
  }

  const OFFERS := [Offer(0), Offer(0), Offer(1), Offer(1)]

  function TwoEntries(e: SettlementEntry, f: SettlementEntry): Books { Books([e, f], [], map[], 0) }

  function OnePaid(e: SettlementEntry, f: SettlementEntry): Books {
    Books([e, f], [Row(Payout(0, e.amount, Pending, 0), 0, 0)], map[0 := ToMark(0)], 1)
  }

  function TwoPaid(e: SettlementEntry, f: SettlementEntry): Books {
    Books([e, f], [Row(Payout(0, e.amount, Pending, 0), 0, 0), Row(Payout(1, f.amount, Pending, 0), 0, 0)],
          map[0 := ToMark(0), 1 := ToMark(1)], 2)
  }

  lemma {:induction false} BothEntered(e: SettlementEntry, f: SettlementEntry)
    requires !SameKey(e, f)
    ensures DoAddEntry(START, e) == Books([e], [], map[], 0)
    ensures DoAddEntry(Books([e], [], map[], 0), f) == TwoEntries(e, f)
  {
    var only := [e];
    assert only + [f] == [e, f];
  }

  lemma {:induction false} BothInserted(e: SettlementEntry, f: SettlementEntry)
    requires e.amount > 0 && f.amount > 0
    ensures DoAddPayout(TwoEntries(e, f), 0) == OnePaid(e, f) == DoAddPayout(OnePaid(e, f), 0)
    ensures DoAddPayout(OnePaid(e, f), 1) == TwoPaid(e, f) && Committed(TwoPaid(e, f)) == e.amount + f.amount
  {
    var one, two := Row(Payout(0, e.amount, Pending, 0), 0, 0), Row(Payout(1, f.amount, Pending, 0), 0, 0);
    var none, rows := [], [one];
    assert none + [one] == rows && rows + [two] == [one, two];
    SumByPush(none, one, RowCounted);
    SumByPush(rows, two, RowCounted);
  }

  lemma {:induction false} BothListed(l: Ledger)
    requires |l.books.entries| == 2 && l.books.rows == []
    requires l.books.entries[0].amount >= l.minPayout && l.books.entries[1].amount >= l.minPayout
    ensures ToPay(l) == [0, 1]
  {
    assert PayoutsOf(l.books.rows) == [];
    Payouts.TwoUnsettled(l.books.entries, [], l.minPayout);
  }

  lemma {:induction false} BothBegun(e: SettlementEntry, f: SettlementEntry, minPayout: nat)
    requires e.amount == f.amount >= minPayout && !SameKey(e, f)
    ensures var seen := Listed(e.amount, 0, [0, 1]);
            Play(Opening(minPayout), BothBegin(e, f)) == Ledger(TwoEntries(e, f), e.amount, minPayout, [seen, seen])
  {
    var sats, both := e.amount, TwoEntries(e, f);
    BothEntered(e, f);
    BothListed(Ledger(both, sats, minPayout, []));
    var a, b := Counted(sats, 0), Listed(sats, 0, [0, 1]);
    var at := (s: Books, loops: seq<Loop>) => Ledger(s, sats, minPayout, loops);
    var path := [Opening(minPayout), at(START, []), at(Books([e], [], map[], 0), []), at(both, []), at(both, [a]),
                 at(both, [a, a]), at(both, [b, a]), at(both, [b, b])];
    PlayPath(path, BothBegin(e, f));
  }

  lemma {:induction false} BothOffer(e: SettlementEntry, f: SettlementEntry, minPayout: nat)
    requires e.amount == f.amount > 0
    ensures var seen := Listed(e.amount, 0, [0, 1]);
            Play(Ledger(TwoEntries(e, f), e.amount, minPayout, [seen, seen]), OFFERS)
            == Ledger(TwoPaid(e, f), e.amount, minPayout, [Over, Listed(e.amount, e.amount, [])])
  {
    var sats, first := e.amount, OnePaid(e, f);
    BothInserted(e, f);
    var b, c, d := Listed(sats, 0, [0, 1]), Listed(sats, sats, [1]), Listed(sats, 0, [1]);
    assert b.list[1..] == [1] && d.list[1..] == [];
    var at := (s: Books, loops: seq<Loop>) => Ledger(s, sats, minPayout, loops);
    var path := [at(TwoEntries(e, f), [b, b]), at(first, [c, b]), at(first, [Over, b]), at(first, [Over, d]),
                 at(TwoPaid(e, f), [Over, Listed(sats, sats, [])])];
    PlayPath(path, OFFERS);
  }

  /** Both stay within the budget as they see it, and together promise twice what was purchased. */
  lemma {:induction false} TwoSettlementsOverspend(e: SettlementEntry, f: SettlementEntry, minPayout: nat)
    requires e.amount == f.amount > 0 && e.amount >= minPayout && !SameKey(e, f)
    ensures var l := Play(Opening(minPayout), SideBySide(e, f));
            l.purchased == e.amount && Committed(l.books) == e.amount + e.amount
  {
    BothBegun(e, f, minPayout);
    BothOffer(e, f, minPayout);
    BothInserted(e, f);
    PlayOn(Opening(minPayout), BothBegin(e, f), OFFERS);
  }

  lemma {:induction false} PlayPath(path: seq<Ledger>, moves: seq<Move>)
    requires |path| == |moves| + 1
    requires forall n :: 0 <= n < |moves| ==> path[n + 1] == After(path[n], moves[n])
    ensures Play(path[0], moves) == path[|moves|]
  {
    if moves != [] {
      var last := |moves| - 1;
      PlayPath(path[..|moves|], moves[..last]);
      assert path[last + 1] == After(path[last], moves[last]);
    }
  }
}
