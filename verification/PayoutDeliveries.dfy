/** How often a payout can still reach its node, exactly, from any state of the books. */
module PayoutDeliveries {
  import opened PayoutProtocol

  // ---- The payment calls a payout has left ----

  /** A process holds the payout, whatever it is about to do. */
  predicate Taken(s: Books, id: nat) { exists w :: w in s.workers && s.workers[w].id == id }

  /** Calls left while a process holds the payout: until one is not recorded as declined, or attempts run out. */
  function WorkerLeft(p: Payout, w: Worker): int {
    match w
    case ToMark(_) => MAX_ATTEMPTS - p.attempts
    case ToCall(_) => MAX_ATTEMPTS - p.attempts
    case ToRecord(_, told) => if told == Declined then MAX_ATTEMPTS - p.attempts - 1 else 0
  }

  /** Calls left: a payout nobody holds is only called for again if it failed. */
  ghost function CallsLeft(s: Books, id: nat): int
    requires id < |s.rows|
  {
    if Taken(s, id) then
      var w :| w in s.workers && s.workers[w].id == id;
      WorkerLeft(s.rows[id].payout, s.workers[w])
    else if s.rows[id].payout.status == Failed then MAX_ATTEMPTS - s.rows[id].payout.attempts
    else 0
  }

  lemma {:induction false} LeftOfWorker(s: Books, w: nat)
    requires Inv(s) && w in s.workers
    ensures CallsLeft(s, s.workers[w].id) == WorkerLeft(s.rows[s.workers[w].id].payout, s.workers[w])
  {
  }

  lemma {:induction false} LeftIsBounded(s: Books, id: nat)
    requires Inv(s) && id < |s.rows|
    ensures 0 <= CallsLeft(s, id) <= MAX_ATTEMPTS
  {
    assert RowOK(s.rows[id]);
    if Taken(s, id) {
      var w :| w in s.workers && s.workers[w].id == id;
      LeftOfWorker(s, w);
      assert WorkerFits(s.rows[id], s.workers[w]);
    }
  }

  // ---- No step adds to what was delivered and what is left ----

  /** A payment reported as declined did not reach the node. */
  predicate Truthful(step: Step) { step.Call? && step.told == Declined ==> !step.reached }

  predicate AllTruthful(steps: seq<Step>) { forall i :: 0 <= i < |steps| ==> Truthful(steps[i]) }

  /** What the row was delivered and its calls left, after a step on someone else's row. */
  lemma {:induction false} OtherRow(s: Books, t: Books, id: nat)
    requires Inv(s) && Inv(t) && id < |s.rows| && id < |t.rows| && t.rows[id] == s.rows[id]
    requires forall w :: w in s.workers && s.workers[w].id == id ==> w in t.workers && t.workers[w] == s.workers[w]
    requires forall w :: w in t.workers && t.workers[w].id == id ==> w in s.workers && t.workers[w] == s.workers[w]
    ensures CallsLeft(t, id) == CallsLeft(s, id)
  {
    if Taken(s, id) {
      var w :| w in s.workers && s.workers[w].id == id;
      LeftOfWorker(s, w);
      LeftOfWorker(t, w);
    }
  }

  /** Dropping the process leaves nothing to be called: what it held had not failed. */
  lemma {:induction false} Dropped(s: Books, w: nat)
    requires Inv(s) && w in s.workers
    ensures var id := s.workers[w].id; CallsLeft(End(s, w), id) == 0 <= CallsLeft(s, id)
  {
    var id := s.workers[w].id;
    LeftIsBounded(s, id);
    assert WorkerFits(s.rows[id], s.workers[w]);
    assert !Taken(End(s, w), id);
  }

  /** A call spends one call and delivers at most one payment; any answer but a decline spends the rest. */
  lemma {:induction false} CallSpends(s: Books, w: nat, told: Keysend, reached: bool)
    requires Inv(s) && w in s.workers && s.workers[w].ToCall?
    ensures var id, t := s.workers[w].id, DoCall(s, w, told, reached);
            && t.rows[id].delivered == s.rows[id].delivered + (if reached then 1 else 0)
            && CallsLeft(t, id) == (if told == Declined then CallsLeft(s, id) - 1 else 0)
  {
    var t := DoCall(s, w, told, reached);
    CallKeeps(s, w, told, reached);
    LeftOfWorker(s, w);
    LeftOfWorker(t, w);
  }

  /** Recording a decline keeps the calls left, now with the retry loop; nothing else leaves any. */
  lemma {:induction false} RecordLeaves(s: Books, w: nat, written: bool)
    requires Inv(s) && w in s.workers && s.workers[w].ToRecord?
    ensures var id, t := s.workers[w].id, DoRecord(s, w, written);
            && t.rows[id].delivered == s.rows[id].delivered
            && CallsLeft(t, id) == (if written then CallsLeft(s, id) else 0)
  {
    var id := s.workers[w].id;
    assert WorkerFits(s.rows[id], s.workers[w]);
    LeftOfWorker(s, w);
    assert !Taken(DoRecord(s, w, written), id);
  }

  lemma {:induction false} MarkLeaves(s: Books, w: nat)
    requires Inv(s) && w in s.workers && s.workers[w].ToMark?
    ensures var id, t := s.workers[w].id, DoMark(s, w);
            && w in t.workers && t.workers[w] == ToCall(id)
            && t.rows[id].delivered == s.rows[id].delivered && CallsLeft(t, id) == CallsLeft(s, id)
  {
    assert WorkerFits(s.rows[s.workers[w].id], s.workers[w]);
    MarkKeeps(s, w);
    LeftOfWorker(s, w);
    LeftOfWorker(DoMark(s, w), w);
  }

  lemma {:induction false} RetryLeaves(s: Books, id: nat)
    requires Inv(s) && id < |s.rows| && CanRetry(s.rows[id].payout)
    ensures var t := DoRetry(s, id);
            && s.next in t.workers && t.workers[s.next] == ToMark(id)
            && t.rows[id].delivered == s.rows[id].delivered && CallsLeft(t, id) == CallsLeft(s, id)
  {
    forall w | w in s.workers ensures s.workers[w].id != id {
      assert WorkerFits(s.rows[s.workers[w].id], s.workers[w]);
    }
    RetryKeeps(s, id);
    LeftOfWorker(DoRetry(s, id), s.next);
  }

  /** The row a step is about, if any. */
  function Subject(s: Books, step: Step): int {
    match step
    case AddEntry(_) => -1
    case AddPayout(_) => -1
    case Retry(id) => id
    case Mark(w) => if w in s.workers then s.workers[w].id else -1
    case Call(w, _, _) => if w in s.workers then s.workers[w].id else -1
    case Record(w, _) => if w in s.workers then s.workers[w].id else -1
    case Die(w) => if w in s.workers then s.workers[w].id else -1
  }

  ghost predicate Untouched(s: Books, t: Books, id: nat)
    requires id < |s.rows|
  {
    id < |t.rows| && t.rows[id] == s.rows[id] && CallsLeft(t, id) == CallsLeft(s, id)
  }

  lemma {:induction false} OtherEntry(s: Books, e: SettlementEntry, id: nat)
    requires Inv(s) && id < |s.rows|
    ensures Untouched(s, DoAddEntry(s, e), id)
  {
    AddEntryKeeps(s, e);
    OtherRow(s, DoAddEntry(s, e), id);
  }

  lemma {:induction false} OtherPayout(s: Books, entry: nat, id: nat)
    requires Inv(s) && id < |s.rows|
    ensures Untouched(s, DoAddPayout(s, entry), id)
  {
    AddPayoutKeeps(s, entry);
    OtherRow(s, DoAddPayout(s, entry), id);
  }

  lemma {:induction false} OtherRetry(s: Books, other: nat, id: nat)
    requires Inv(s) && id < |s.rows| && other != id
    ensures Untouched(s, DoRetry(s, other), id)
  {
    RetryKeeps(s, other);
    OtherRow(s, DoRetry(s, other), id);
  }

  lemma {:induction false} OtherMark(s: Books, w: nat, id: nat)
    requires Inv(s) && id < |s.rows| && Subject(s, Mark(w)) != id
    ensures Untouched(s, DoMark(s, w), id)
  {
    MarkKeeps(s, w);
    OtherRow(s, DoMark(s, w), id);
  }

  lemma {:induction false} OtherCall(s: Books, w: nat, told: Keysend, reached: bool, id: nat)
    requires Inv(s) && id < |s.rows| && Subject(s, Call(w, told, reached)) != id
    ensures Untouched(s, DoCall(s, w, told, reached), id)
  {
    CallKeeps(s, w, told, reached);
    OtherRow(s, DoCall(s, w, told, reached), id);
  }

  lemma {:induction false} OtherRecord(s: Books, w: nat, written: bool, id: nat)
    requires Inv(s) && id < |s.rows| && Subject(s, Record(w, written)) != id
    ensures Untouched(s, DoRecord(s, w, written), id)
  {
    RecordKeeps(s, w, written);
    OtherRow(s, DoRecord(s, w, written), id);
  }

  lemma {:induction false} OtherDeath(s: Books, w: nat, id: nat)
    requires Inv(s) && id < |s.rows| && Subject(s, Die(w)) != id
    ensures Untouched(s, End(s, w), id)
  {
    EndKeeps(s, w);
    OtherRow(s, End(s, w), id);
  }

  lemma {:induction false} OtherSteps(s: Books, step: Step, id: nat)
    requires Inv(s) && id < |s.rows| && Subject(s, step) != id
    ensures Untouched(s, Next(s, step), id)
  {
    match step
    case AddEntry(e) => OtherEntry(s, e, id);
    case AddPayout(entry) => OtherPayout(s, entry, id);
    case Retry(other) => OtherRetry(s, other, id);
    case Mark(w) => OtherMark(s, w, id);
    case Call(w, told, reached) => OtherCall(s, w, told, reached, id);
    case Record(w, written) => OtherRecord(s, w, written, id);
    case Die(w) => OtherDeath(s, w, id);
  }

  /** What the deliveries and calls left of a row become in one step. */
  ghost predicate Spends(s: Books, step: Step, t: Books, id: nat)
    requires id < |s.rows|
  {
    && id < |t.rows| && 0 <= CallsLeft(t, id) <= CallsLeft(s, id)
    && s.rows[id].delivered <= t.rows[id].delivered
    && t.rows[id].delivered + CallsLeft(t, id) <= s.rows[id].delivered + CallsLeft(s, id)
    && (Truthful(step) && t.rows[id].delivered != s.rows[id].delivered ==>
          CallsLeft(t, id) == 0 && t.rows[id].delivered == s.rows[id].delivered + 1)
  }

  lemma {:induction false} StepSpends(s: Books, step: Step, id: nat)
    requires Inv(s) && id < |s.rows|
    ensures Spends(s, step, Next(s, step), id)
  {
    LeftIsBounded(s, id);
    if Subject(s, step) != id { OtherSteps(s, step, id); } else { OwnSpends(s, step, id); }
  }

  lemma {:induction false} OwnSpends(s: Books, step: Step, id: nat)
    requires Inv(s) && id < |s.rows| && Subject(s, step) == id
    ensures Spends(s, step, Next(s, step), id)
  {
    LeftIsBounded(s, id);
    NextKeeps(s, step);
    match step
    case Retry(_) => if CanRetry(s.rows[id].payout) { RetryLeaves(s, id); }
    case Mark(w) => if s.workers[w].ToMark? { MarkLeaves(s, w); }
    case Call(w, told, reached) =>
      if s.workers[w].ToCall? {
        CallSpends(s, w, told, reached);
        LeftIsBounded(Next(s, step), id);
      }
    case Record(w, written) => if s.workers[w].ToRecord? { RecordLeaves(s, w, written); }
    case Die(w) => Dropped(s, w);
  }

  ghost predicate RunSpends(s: Books, t: Books, id: nat, truthful: bool)
    requires id < |s.rows|
  {
    && id < |t.rows| && 0 <= CallsLeft(t, id) <= CallsLeft(s, id)
    && s.rows[id].delivered <= t.rows[id].delivered <= s.rows[id].delivered + CallsLeft(s, id) - CallsLeft(t, id)
    && (truthful && t.rows[id].delivered != s.rows[id].delivered ==>
          CallsLeft(t, id) == 0 && t.rows[id].delivered == s.rows[id].delivered + 1)
  }

  lemma {:induction false} StepsSpend(s: Books, steps: seq<Step>, id: nat)
    requires Inv(s) && id < |s.rows|
    ensures RunSpends(s, Run(s, steps), id, AllTruthful(steps))
  {
    LeftIsBounded(s, id);
    if steps != [] {
      var last := |steps| - 1;
      var init := steps[..last];
      assert AllTruthful(steps) ==> AllTruthful(init) && Truthful(steps[last]) by {
        assert forall i :: 0 <= i < last ==> init[i] == steps[i];
      }
      StepsSpend(s, init, id);
      RunKeeps(s, init);
      StepSpends(Run(s, init), steps[last], id);
    }
  }

  // ---- Every call left can be made ----

  lemma {:induction false} RunConcat(s: Books, a: seq<Step>, b: seq<Step>)
    ensures Run(s, a + b) == Run(Run(s, a), b)
  {
    if b == [] {
      assert a + b == a;
    } else {
      var last := |b| - 1;
      assert (a + b)[..|a + b| - 1] == a + b[..last];
      RunConcat(s, a, b[..last]);
    }
  }

  lemma {:induction false} RunTwo(s: Books, one: Step, two: Step)
    ensures Run(s, [one, two]) == Next(Next(s, one), two)
  {
    assert [one, two] == [one] + [two];
    RunPush(s, [one], two);
    RunOne(s, one);
  }

  /** The next call of a payout with calls left is about to be made. */
  ghost predicate AboutToCall(s: Books, steps: seq<Step>, id: nat, w: nat)
    requires id < |s.rows|
  {
    var t := Run(s, steps);
    && Inv(t) && id < |t.rows| && w in t.workers && t.workers[w] == ToCall(id)
    && t.rows[id].delivered == s.rows[id].delivered && CallsLeft(t, id) == CallsLeft(s, id)
    && AllTruthful(steps)
  }

  lemma {:induction false} MarkedNext(s: Books, w: nat) returns (steps: seq<Step>)
    requires Inv(s) && w in s.workers && s.workers[w].ToMark?
    ensures AboutToCall(s, steps, s.workers[w].id, w)
  {
    steps := [Mark(w)];
    MarkLeaves(s, w);
    MarkKeeps(s, w);
    RunOne(s, Mark(w));
  }

  lemma {:induction false} RetriedNext(s: Books, id: nat) returns (steps: seq<Step>, w: nat)
    requires Inv(s) && id < |s.rows| && CanRetry(s.rows[id].payout)
    ensures AboutToCall(s, steps, id, w)
  {
    w := s.next;
    RetryLeaves(s, id);
    RetryKeeps(s, id);
    var t := DoRetry(s, id);
    MarkLeaves(t, w);
    MarkKeeps(t, w);
    steps := [Retry(id), Mark(w)];
    RunTwo(s, Retry(id), Mark(w));
  }

  lemma {:induction false} RecordedNext(s: Books, v: nat) returns (steps: seq<Step>, w: nat)
    requires Inv(s) && v in s.workers && s.workers[v].ToRecord? && CallsLeft(s, s.workers[v].id) > 0
    ensures AboutToCall(s, steps, s.workers[v].id, w)
  {
    var id := s.workers[v].id;
    LeftOfWorker(s, v);
    RecordLeaves(s, v, true);
    RecordKeeps(s, v, true);
    var t := DoRecord(s, v, true);
    assert WorkerFits(s.rows[id], s.workers[v]);
    assert CanRetry(t.rows[id].payout);
    var more;
    more, w := RetriedNext(t, id);
    steps := [Record(v, true)] + more;
    RunOne(s, Record(v, true));
    RunConcat(s, [Record(v, true)], more);
  }

  lemma {:induction false} NextCall(s: Books, id: nat) returns (steps: seq<Step>, w: nat)
    requires Inv(s) && id < |s.rows| && CallsLeft(s, id) > 0
    ensures AboutToCall(s, steps, id, w)
  {
    if v :| v in s.workers && s.workers[v].id == id {
      LeftOfWorker(s, v);
      match s.workers[v] {
        case ToMark(_) =>
          steps := MarkedNext(s, v);
          w := v;
        case ToCall(_) => steps, w := [], v;
        case ToRecord(_, _) => steps, w := RecordedNext(s, v);
      }
    } else {
      steps, w := RetriedNext(s, id);
    }
  }

  /** All the calls left can be made, each delivering and each reported as declined. */
  lemma {:induction false} DeliverAll(s: Books, id: nat) returns (steps: seq<Step>)
    requires Inv(s) && id < |s.rows|
    ensures id < |Run(s, steps).rows| && Run(s, steps).rows[id].delivered >= s.rows[id].delivered + CallsLeft(s, id)
    decreases CallsLeft(s, id)
  {
    LeftIsBounded(s, id);
    if CallsLeft(s, id) == 0 { return []; }
    var first, w := NextCall(s, id);
    var t := Run(s, first);
    var call := Call(w, Declined, true);
    CallSpends(t, w, Declined, true);
    CallKeeps(t, w, Declined, true);
    var rest := DeliverAll(Next(t, call), id);
    steps := first + [call] + rest;
    RunPush(s, first, call);
    RunConcat(s, first + [call], rest);
  }

  ghost predicate Delivers(s: Books, steps: seq<Step>, id: nat, k: nat) {
    id < |Run(s, steps).rows| && Run(s, steps).rows[id].delivered >= k
  }

  /**
   * A payout can come to reach its node k times if and only if the times it did
   * and the calls it has left add up to k.
   */
  lemma {:induction false} DeliverableExact(s: Books, id: nat, k: nat)
    requires Inv(s) && id < |s.rows|
    ensures (exists steps :: Delivers(s, steps, id, k)) <==> s.rows[id].delivered + CallsLeft(s, id) >= k
  {
    if s.rows[id].delivered + CallsLeft(s, id) >= k {
      var steps := DeliverAll(s, id);
      assert Delivers(s, steps, id, k);
    } else {
      forall steps ensures !Delivers(s, steps, id, k) { StepsSpend(s, steps, id); }
    }
  }

  lemma {:induction false} DeliverOnce(s: Books, id: nat) returns (steps: seq<Step>)
    requires Inv(s) && id < |s.rows| && CallsLeft(s, id) > 0
    ensures AllTruthful(steps) && Delivers(s, steps, id, s.rows[id].delivered + 1)
  {
    var first, w := NextCall(s, id);
    var call := Call(w, Succeeded, true);
    CallSpends(Run(s, first), w, Succeeded, true);
    RunPush(s, first, call);
    steps := first + [call];
  }

  /**
   * Even if from now on no delivered payment is reported as declined, a payout
   * can reach its node twice if and only if it already did, or it did once and has
   * a call left: it is failed with attempts left, or a process is about to record
   * such a failure, to mark it or to call.
   */
  lemma {:induction false} TwiceExact(s: Books, id: nat)
    requires Inv(s) && id < |s.rows|
    ensures (exists steps :: AllTruthful(steps) && Delivers(s, steps, id, 2))
            <==> s.rows[id].delivered >= 2 || (s.rows[id].delivered == 1 && CallsLeft(s, id) >= 1)
  {
    LeftIsBounded(s, id);
    if s.rows[id].delivered >= 2 {
      assert AllTruthful([]) && Delivers(s, [], id, 2);
    } else if s.rows[id].delivered == 1 && CallsLeft(s, id) >= 1 {
      var steps := DeliverOnce(s, id);
    } else {
      forall steps ensures !(AllTruthful(steps) && Delivers(s, steps, id, 2)) { StepsSpend(s, steps, id); }
    }
  }

  // ---- Runs from the start ----

  /** A payout inserted just now has not reached anyone. */
  lemma {:induction false} NewRowIsUntouched(s: Books, step: Step, id: nat)
    requires |s.rows| <= id < |Next(s, step).rows|
    ensures Next(s, step).rows[id].delivered == 0
  {
  }

  /**
   * If the payment network never reports a delivered payment as declined, each
   * payout reaches its node at most once, and none that did is called for again.
   */
  lemma {:induction false} PaidAtMostOnce(steps: seq<Step>, id: nat)
    requires AllTruthful(steps) && id < |Run(START, steps).rows|
    ensures Run(START, steps).rows[id].delivered <= 1
    ensures Run(START, steps).rows[id].delivered == 1 ==> CallsLeft(Run(START, steps), id) == 0
  {
    if steps != [] {
      var last := |steps| - 1;
      var init := steps[..last];
      var s := Run(START, init);
      assert forall i :: 0 <= i < last ==> init[i] == steps[i];
      assert AllTruthful(init) && Truthful(steps[last]);
      RunKeeps(START, init);
      if id < |s.rows| {
        PaidAtMostOnce(init, id);
        StepSpends(s, steps[last], id);
      } else {
        NewRowIsUntouched(s, steps[last], id);
      }
    }
  }

  /** A run spelled out state by state. */
  lemma {:induction false} RunPath(path: seq<Books>, steps: seq<Step>)
    requires |path| == |steps| + 1
    requires forall n :: 0 <= n < |steps| ==> path[n + 1] == Next(path[n], steps[n])
    ensures Run(path[0], steps) == path[|steps|]
  {
    if steps != [] {
      var last := |steps| - 1;
      RunPath(path[..|steps|], steps[..last]);
      assert path[last + 1] == Next(path[last], steps[last]);
    }
  }

  /** One payout's whole life up to its second call, the first having been reported as declined. */
  function DeclinedOnce(e: SettlementEntry): seq<Step> {
    [AddEntry(e), AddPayout(0), Mark(0), Call(0, Declined, true), Record(0, true),
     Retry(0), Mark(1), Call(1, Succeeded, true)]
  }

  function OneRow(e: SettlementEntry, p: Payout, calls: nat, workers: map<nat, Worker>, next: nat): Books {
    Books([e], [Row(p, calls, calls)], workers, next)
  }

  /** A payment reported as declined that did reach the node is made again. */
  lemma {:induction false} UntruthfulDeclinePaysTwice(e: SettlementEntry)
    requires e.amount > 0
    ensures var s := Run(START, DeclinedOnce(e)); |s.rows| == 1 && s.rows[0].delivered == 2
  {
    var path := [START, Books([e], [], map[], 0),
                 OneRow(e, Payout(0, e.amount, Pending, 0), 0, map[0 := ToMark(0)], 1),
                 OneRow(e, Payout(0, e.amount, InFlight, 0), 0, map[0 := ToCall(0)], 1),
                 OneRow(e, Payout(0, e.amount, InFlight, 0), 1, map[0 := ToRecord(0, Declined)], 1),
                 OneRow(e, Payout(0, e.amount, Failed, 1), 1, map[], 1),
                 OneRow(e, Payout(0, e.amount, Retrying, 1), 1, map[1 := ToMark(0)], 2),
                 OneRow(e, Payout(0, e.amount, InFlight, 1), 1, map[1 := ToCall(0)], 2),
                 OneRow(e, Payout(0, e.amount, InFlight, 1), 2, map[1 := ToRecord(0, Succeeded)], 2)];
    RunPath(path, DeclinedOnce(e));
  }

  // ---- A payout that is never sent ----

  /** A payout inserted by a process that then dies. */
  function DiesEarly(e: SettlementEntry): seq<Step> { [AddEntry(e), AddPayout(0), Die(0)] }

  /** It stays pending, without a single call, whatever settlement and retry processes run afterwards. */
  lemma {:induction false} StrandedPending(e: SettlementEntry, more: seq<Step>)
    requires e.amount > 0
    ensures var s := Run(START, DiesEarly(e));
            && |s.rows| == 1 && s.rows[0] == Row(Payout(0, e.amount, Pending, 0), 0, 0)
            && |Run(s, more).rows| > 0 && Run(s, more).rows[0] == s.rows[0]
  {
    var s := DoAddPayout(DoAddEntry(START, e), 0);
    RunTwo(START, AddEntry(e), AddPayout(0));
    assert DiesEarly(e) == [AddEntry(e), AddPayout(0)] + [Die(0)];
    RunPush(START, [AddEntry(e), AddPayout(0)], Die(0));
    RunKeeps(START, DiesEarly(e));
    DormantForever(Run(START, DiesEarly(e)), 0, more);
  }
}
