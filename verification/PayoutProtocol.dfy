/**
 * The payout table and the processes working on it, one database statement or one
 * payment call at a time. Any number of settlement and retry loops may run at
 * once, and any of them may die between two steps.
 */
module PayoutProtocol {
  import Settlement

  datatype Status = Pending | InFlight | Paid | Failed | Retrying

  datatype Payout = Payout(entry: nat, amount: nat, status: Status, attempts: nat)

  datatype SettlementEntry = SettlementEntry(period: string, node: Settlement.Node, amount: nat)

  /** What the engine is told about a payment; Unknown is still routing, or cut off by a timeout. */
  datatype Keysend = Succeeded | Unknown | Declined

  const MAX_ATTEMPTS := 3

  predicate CanStart(p: Payout) { p.status == Pending || p.status == Retrying }

  predicate CanRetry(p: Payout) { p.status == Failed && p.attempts < MAX_ATTEMPTS }

  function Started(p: Payout): Payout { if CanStart(p) then p.(status := InFlight) else p }

  function Recorded(p: Payout, k: Keysend): Payout {
    if p.status != InFlight then p
    else match k
      case Succeeded => p.(status := Paid)
      case Declined => p.(status := Failed, attempts := p.attempts + 1)
      case Unknown => p
  }

  /** A process that has claimed a payout, by what it does next. */
  datatype Worker = ToMark(id: nat) | ToCall(id: nat) | ToRecord(id: nat, told: Keysend)

  /** A row of the payout table, with the payment calls made for it and those that reached the node. */
  datatype Row = Row(payout: Payout, calls: nat, delivered: nat)

  datatype Books = Books(entries: seq<SettlementEntry>, rows: seq<Row>, workers: map<nat, Worker>, next: nat)

  datatype Step =
    | AddEntry(line: SettlementEntry)
    | AddPayout(entry: nat)
    | Retry(id: nat)
    | Mark(w: nat)
    | Call(w: nat, told: Keysend, reached: bool)
    | Record(w: nat, written: bool)
    | Die(w: nat)

  const START := Books([], [], map[], 0)

  predicate SameKey(a: SettlementEntry, b: SettlementEntry) { a.period == b.period && a.node == b.node }

  predicate HasEntry(s: Books, e: SettlementEntry) { exists i :: 0 <= i < |s.entries| && SameKey(s.entries[i], e) }

  predicate HasPayout(s: Books, entry: nat) { exists i :: 0 <= i < |s.rows| && s.rows[i].payout.entry == entry }

  function Spawn(s: Books, id: nat): Books { s.(workers := s.workers[s.next := ToMark(id)], next := s.next + 1) }

  function End(s: Books, w: nat): Books { s.(workers := s.workers - {w}) }

  function WithPayout(s: Books, id: nat, p: Payout): Books
    requires id < |s.rows|
  {
    s.(rows := s.rows[id := s.rows[id].(payout := p)])
  }

  /** One row per period and node; a second insert is ignored. */
  function DoAddEntry(s: Books, e: SettlementEntry): Books {
    if HasEntry(s, e) then s else s.(entries := s.entries + [e])
  }

  /** One payout per entry, of its amount; the process that made it goes on to send it. */
  function DoAddPayout(s: Books, entry: nat): Books {
    if entry >= |s.entries| || s.entries[entry].amount == 0 || HasPayout(s, entry) then s
    else Spawn(s.(rows := s.rows + [Row(Payout(entry, s.entries[entry].amount, Pending, 0), 0, 0)]), |s.rows|)
  }

  function DoRetry(s: Books, id: nat): Books {
    if id >= |s.rows| || !CanRetry(s.rows[id].payout) then s
    else Spawn(WithPayout(s, id, s.rows[id].payout.(status := Retrying)), id)
  }

  function DoMark(s: Books, w: nat): Books {
    if w !in s.workers || !s.workers[w].ToMark? || s.workers[w].id >= |s.rows| then s
    else
      var id := s.workers[w].id;
      if !CanStart(s.rows[id].payout) then End(s, w)
      else WithPayout(s, id, Started(s.rows[id].payout)).(workers := s.workers[w := ToCall(id)])
  }

  function DoCall(s: Books, w: nat, told: Keysend, reached: bool): Books {
    if w !in s.workers || !s.workers[w].ToCall? || s.workers[w].id >= |s.rows| then s
    else
      var id := s.workers[w].id;
      var row := s.rows[id];
      s.(rows := s.rows[id := row.(calls := row.calls + 1, delivered := row.delivered + if reached then 1 else 0)],
         workers := s.workers[w := ToRecord(id, told)])
  }

  function DoRecord(s: Books, w: nat, written: bool): Books {
    if w !in s.workers || !s.workers[w].ToRecord? || s.workers[w].id >= |s.rows| then s
    else
      var id := s.workers[w].id;
      End(if written then WithPayout(s, id, Recorded(s.rows[id].payout, s.workers[w].told)) else s, w)
  }

  function Next(s: Books, step: Step): Books {
    match step
    case AddEntry(e) => DoAddEntry(s, e)
    case AddPayout(entry) => DoAddPayout(s, entry)
    case Retry(id) => DoRetry(s, id)
    case Mark(w) => DoMark(s, w)
    case Call(w, told, reached) => DoCall(s, w, told, reached)
    case Record(w, written) => DoRecord(s, w, written)
    case Die(w) => End(s, w)
  }

  function Run(s: Books, steps: seq<Step>): Books {
    if steps == [] then s else Next(Run(s, steps[..|steps| - 1]), steps[|steps| - 1])
  }

  // What every run keeps.

  /** The state of a row says how many payment calls were made for it. */
  predicate RowOK(r: Row) {
    var p := r.payout;
    match p.status
    case Pending => r.calls == 0 && p.attempts == 0
    case Retrying => r.calls == p.attempts && 1 <= p.attempts < MAX_ATTEMPTS
    case InFlight => p.attempts < MAX_ATTEMPTS && p.attempts <= r.calls <= p.attempts + 1
    case Failed => r.calls == p.attempts && 1 <= p.attempts <= MAX_ATTEMPTS
    case Paid => r.calls == p.attempts + 1 && p.attempts < MAX_ATTEMPTS
  }

  predicate WorkerFits(r: Row, w: Worker) {
    match w
    case ToMark(_) => CanStart(r.payout)
    case ToCall(_) => r.payout.status == InFlight && r.calls == r.payout.attempts
    case ToRecord(_, _) => r.payout.status == InFlight && r.calls == r.payout.attempts + 1
  }

  predicate RowsOK(rows: seq<Row>) { forall i :: 0 <= i < |rows| ==> RowOK(rows[i]) }

  predicate WorkersFit(rows: seq<Row>, workers: map<nat, Worker>) {
    forall w :: w in workers ==> workers[w].id < |rows| && WorkerFits(rows[workers[w].id], workers[w])
  }

  predicate OneWorkerEach(workers: map<nat, Worker>, next: nat) {
    && (forall w :: w in workers ==> w < next)
    && (forall v, w :: v in workers && w in workers && v != w ==> workers[v].id != workers[w].id)
  }

  predicate EntriesUnique(entries: seq<SettlementEntry>) {
    forall i, j :: 0 <= i < j < |entries| ==> !SameKey(entries[i], entries[j])
  }

  predicate PayoutsUnique(entries: seq<SettlementEntry>, rows: seq<Row>) {
    && (forall i :: 0 <= i < |rows| ==> PaysEntry(entries, rows[i].payout))
    && (forall i, j :: 0 <= i < j < |rows| ==> rows[i].payout.entry != rows[j].payout.entry)
  }

  predicate PaysEntry(entries: seq<SettlementEntry>, p: Payout) {
    p.entry < |entries| && p.amount == entries[p.entry].amount > 0
  }

  predicate Inv(s: Books) {
    && RowsOK(s.rows) && WorkersFit(s.rows, s.workers) && OneWorkerEach(s.workers, s.next)
    && EntriesUnique(s.entries) && PayoutsUnique(s.entries, s.rows)
  }

  /** A process is about to do something for the payout other than noting that its outcome is unknown. */
  predicate Busy(s: Books, id: nat) { exists w :: w in s.workers && WorksOn(s.workers[w], id) }

  predicate WorksOn(w: Worker, id: nat) { w.id == id && !(w.ToRecord? && w.told == Unknown) }

  lemma {:induction false} EndKeeps(s: Books, w: nat)
    requires Inv(s)
    ensures Inv(End(s, w))
  {
  }

  lemma {:induction false} AddEntryKeeps(s: Books, e: SettlementEntry)
    requires Inv(s)
    ensures Inv(DoAddEntry(s, e))
  {
  }

  lemma {:induction false} AddPayoutKeeps(s: Books, entry: nat)
    requires Inv(s)
    ensures Inv(DoAddPayout(s, entry))
  {
    var t := DoAddPayout(s, entry);
    if t != s {
      var id := |s.rows|;
      assert forall i :: 0 <= i < id ==> t.rows[i] == s.rows[i];
      assert t.workers == s.workers[s.next := ToMark(id)];
      assert RowOK(t.rows[id]) && WorkerFits(t.rows[id], ToMark(id));
    }
  }

  /** Only an idle row is retried, so it gets only one worker. */
  lemma {:induction false} RetryKeeps(s: Books, id: nat)
    requires Inv(s)
    ensures Inv(DoRetry(s, id))
  {
    var t := DoRetry(s, id);
    if t != s {
      forall w | w in s.workers ensures s.workers[w].id != id {
        assert WorkerFits(s.rows[s.workers[w].id], s.workers[w]);
      }
    }
  }

  /** A worker's own row: what it may become, and what may become of the worker. */
  predicate OwnChange(s: Books, w: nat, row: Row, workers: map<nat, Worker>)
    requires w in s.workers && s.workers[w].id < |s.rows|
  {
    var id := s.workers[w].id;
    && RowOK(row) && row.payout.entry == s.rows[id].payout.entry && row.payout.amount == s.rows[id].payout.amount
    && workers.Keys <= s.workers.Keys && (forall v :: v in workers && v != w ==> workers[v] == s.workers[v])
    && (w in workers ==> workers[w].id == id && WorkerFits(row, workers[w]))
  }

  lemma {:induction false} OwnWorkersKeep(s: Books, w: nat, row: Row, workers: map<nat, Worker>)
    requires WorkersFit(s.rows, s.workers) && OneWorkerEach(s.workers, s.next) && w in s.workers
             && OwnChange(s, w, row, workers)
    ensures WorkersFit(s.rows[s.workers[w].id := row], workers) && OneWorkerEach(workers, s.next)
  {
  }

  /** Changing the row of its one worker disturbs no other worker. */
  lemma {:induction false} OwnRowKeeps(s: Books, w: nat, row: Row, workers: map<nat, Worker>)
    requires Inv(s) && w in s.workers && OwnChange(s, w, row, workers)
    ensures Inv(s.(rows := s.rows[s.workers[w].id := row], workers := workers))
  {
    var rows := s.rows[s.workers[w].id := row];
    OwnWorkersKeep(s, w, row, workers);
    assert forall i :: 0 <= i < |rows| ==>
             rows[i].payout.entry == s.rows[i].payout.entry && rows[i].payout.amount == s.rows[i].payout.amount;
  }

  lemma {:induction false} MarkKeeps(s: Books, w: nat)
    requires Inv(s)
    ensures Inv(DoMark(s, w))
  {
    EndKeeps(s, w);
    if w in s.workers && s.workers[w].ToMark? {
      var id := s.workers[w].id;
      assert WorkerFits(s.rows[id], s.workers[w]) && RowOK(s.rows[id]);
      OwnRowKeeps(s, w, s.rows[id].(payout := Started(s.rows[id].payout)), s.workers[w := ToCall(id)]);
    }
  }

  lemma {:induction false} CallKeeps(s: Books, w: nat, told: Keysend, reached: bool)
    requires Inv(s)
    ensures Inv(DoCall(s, w, told, reached))
  {
  }

  lemma {:induction false} RecordKeeps(s: Books, w: nat, written: bool)
    requires Inv(s)
    ensures Inv(DoRecord(s, w, written))
  {
    EndKeeps(s, w);
    if w in s.workers && s.workers[w].ToRecord? {
      var id := s.workers[w].id;
      assert WorkerFits(s.rows[id], s.workers[w]) && RowOK(s.rows[id]);
      OwnRowKeeps(s, w, s.rows[id].(payout := Recorded(s.rows[id].payout, s.workers[w].told)), s.workers - {w});
    }
  }

  lemma {:induction false} NextKeeps(s: Books, step: Step)
    requires Inv(s)
    ensures Inv(Next(s, step))
  {
    match step
    case AddEntry(e) => AddEntryKeeps(s, e);
    case AddPayout(entry) => AddPayoutKeeps(s, entry);
    case Retry(id) => RetryKeeps(s, id);
    case Mark(w) => MarkKeeps(s, w);
    case Call(w, told, reached) => CallKeeps(s, w, told, reached);
    case Record(w, written) => RecordKeeps(s, w, written);
    case Die(w) => EndKeeps(s, w);
  }

  lemma {:induction false} RunKeeps(s: Books, steps: seq<Step>)
    requires Inv(s)
    ensures Inv(Run(s, steps))
  {
    if steps != [] {
      RunKeeps(s, steps[..|steps| - 1]);
      NextKeeps(Run(s, steps[..|steps| - 1]), steps[|steps| - 1]);
    }
  }

  /**
   * In every run: no period and node has two entries, no entry has two payouts,
   * and no payout sees more than three payment calls.
   */
  lemma {:induction false} OnePayoutThreeCalls(steps: seq<Step>)
    ensures var s := Run(START, steps);
            && EntriesUnique(s.entries) && PayoutsUnique(s.entries, s.rows)
            && forall i :: 0 <= i < |s.rows| ==> s.rows[i].calls <= MAX_ATTEMPTS
  {
    RunKeeps(START, steps);
    var s := Run(START, steps);
    forall i | 0 <= i < |s.rows| ensures s.rows[i].calls <= MAX_ATTEMPTS { assert RowOK(s.rows[i]); }
  }

  /** A payment call happens only when every call before it was recorded as failed, on a row marked in flight. */
  lemma {:induction false} CallsFollowFailures(steps: seq<Step>, w: nat, told: Keysend, reached: bool, id: nat)
    requires var s := Run(START, steps);
             id < |s.rows| && Next(s, Call(w, told, reached)).rows[id].calls != s.rows[id].calls
    ensures var row := Run(START, steps).rows[id];
            row.calls == row.payout.attempts < MAX_ATTEMPTS && row.payout.status == InFlight
  {
    RunKeeps(START, steps);
    var s := Run(START, steps);
    assert WorkerFits(s.rows[id], s.workers[w]) && RowOK(s.rows[id]);
  }

  predicate Dormant(s: Books, id: nat) { id < |s.rows| && !Busy(s, id) && !CanRetry(s.rows[id].payout) }

  lemma {:induction false} DormantStays(s: Books, id: nat, step: Step)
    requires Inv(s) && Dormant(s, id)
    ensures var t := Next(s, step); Dormant(t, id) && t.rows[id] == s.rows[id]
  {
  }

  lemma {:induction false} DormantForever(s: Books, id: nat, steps: seq<Step>)
    requires Inv(s) && Dormant(s, id)
    ensures var t := Run(s, steps); Dormant(t, id) && t.rows[id] == s.rows[id]
  {
    if steps != [] {
      DormantForever(s, id, steps[..|steps| - 1]);
      RunKeeps(s, steps[..|steps| - 1]);
      DormantStays(Run(s, steps[..|steps| - 1]), id, steps[|steps| - 1]);
    }
  }

  /**
   * A payout can still change exactly while some process works on it or it is
   * failed with attempts left. In particular a payout left in flight is never
   * sent again, and one left pending or retrying by a process that died is never
   * sent at all.
   */
  lemma {:induction false} CanStillChangeExact(s: Books, id: nat)
    requires Inv(s) && id < |s.rows|
    ensures (exists steps :: Changed(s, id, steps)) <==> Busy(s, id) || CanRetry(s.rows[id].payout)
  {
    if Dormant(s, id) {
      forall steps ensures !Changed(s, id, steps) { DormantForever(s, id, steps); }
    } else {
      var step := Moving(s, id);
      RunOne(s, step);
      assert Changed(s, id, [step]);
    }
  }

  predicate Changed(s: Books, id: nat, steps: seq<Step>)
    requires id < |s.rows|
  {
    id >= |Run(s, steps).rows| || Run(s, steps).rows[id] != s.rows[id]
  }

  lemma {:induction false} RunOne(s: Books, step: Step)
    ensures Run(s, [step]) == Next(s, step)
  {
  }

  /** A step that moves a payout which is not dormant. */
  lemma {:induction false} Moving(s: Books, id: nat) returns (step: Step)
    requires Inv(s) && id < |s.rows| && !Dormant(s, id)
    ensures id < |Next(s, step).rows| && Next(s, step).rows[id] != s.rows[id]
  {
    if CanRetry(s.rows[id].payout) { return Retry(id); }
    var w :| w in s.workers && WorksOn(s.workers[w], id);
    assert WorkerFits(s.rows[id], s.workers[w]);
    match s.workers[w] {
      case ToMark(_) => return Mark(w);
      case ToCall(_) => return Call(w, Succeeded, true);
      case ToRecord(_, _) => return Record(w, true);
    }
  }

  /** Paid is final: nothing about a paid payout ever changes, and it is never called for again. */
  lemma {:induction false} PaidIsFinal(steps: seq<Step>, more: seq<Step>, id: nat)
    requires var s := Run(START, steps); id < |s.rows| && s.rows[id].payout.status == Paid
    ensures var s := Run(START, steps); var t := Run(s, more); id < |t.rows| && t.rows[id] == s.rows[id]
  {
    var s := Run(START, steps);
    RunKeeps(START, steps);
    forall w | w in s.workers ensures !WorksOn(s.workers[w], id) {
      assert WorkerFits(s.rows[s.workers[w].id], s.workers[w]);
    }
    DormantForever(s, id, more);
  }

  lemma {:induction false} RunPush(s: Books, steps: seq<Step>, step: Step)
    ensures Run(s, steps + [step]) == Next(Run(s, steps), step)
  {
  }
}
