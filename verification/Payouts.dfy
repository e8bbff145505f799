/** Paying what is owed, and the budget that payments must stay within. */
module Payouts {
  import opened Sums
  import opened PayoutProtocol

  /** One attempt to pay: called off beforehand, or made with this result. */
  datatype Send = CalledOff | Made(told: Keysend)

  function Counted(p: Payout): nat { if p.status == Failed then 0 else p.amount }

  /** Everything promised to nodes that has not failed. */
  function Committed(payouts: seq<Payout>): nat { SumBy(payouts, Counted) }

  /** What one attempt makes of a payout when the database works. */
  function Attempted(p: Payout, send: Send): Payout {
    if send.CalledOff? || !CanStart(p) then p else Recorded(Started(p), send.told)
  }

  predicate HasPayoutFor(payouts: seq<Payout>, entry: nat) {
    exists i :: 0 <= i < |payouts| && payouts[i].entry == entry
  }

  predicate Unsettled(entries: seq<SettlementEntry>, payouts: seq<Payout>, minPayout: nat, entry: nat) {
    entry < |entries| && entries[entry].amount >= minPayout && !HasPayoutFor(payouts, entry)
  }

  /** A payout of an entry that had none, for what the entry says. */
  predicate Settles(p: Payout, entries: seq<SettlementEntry>, before: seq<Payout>, minPayout: nat) {
    Unsettled(entries, before, minPayout, p.entry) && p.amount == entries[p.entry].amount
  }

  /** The unsettled entries among the first n, oldest first. */
  function UnsettledUpTo(entries: seq<SettlementEntry>, payouts: seq<Payout>, minPayout: nat, n: nat): (list: seq<nat>)
    requires n <= |entries|
    ensures forall i :: 0 <= i < |list| ==> list[i] < n && Unsettled(entries, payouts, minPayout, list[i])
    ensures forall i, j :: 0 <= i < j < |list| ==> list[i] < list[j]
    ensures forall e: nat :: e < n && Unsettled(entries, payouts, minPayout, e) ==> e in list
  {
    if n == 0 then []
    else
      var before := UnsettledUpTo(entries, payouts, minPayout, n - 1);
      if Unsettled(entries, payouts, minPayout, n - 1) then before + [n - 1] else before
  }

  /** The payouts one settlement makes: entry after entry, until one no longer fits the budget. */
  function Paying(entries: seq<SettlementEntry>, list: seq<nat>, payouts: seq<Payout>, committed: nat, purchased: nat,
                  sends: nat -> Send): seq<Payout>
    requires Listed(entries, list)
    decreases |list|
  {
    if list == [] || committed + entries[list[0]].amount > purchased then payouts
    else
      var amount := entries[list[0]].amount;
      if amount == 0 || HasPayoutFor(payouts, list[0])
      then Paying(entries, list[1..], payouts, committed, purchased, sends)
      else
        var p := Attempted(Payout(list[0], amount, Pending, 0), sends(|payouts|));
        Paying(entries, list[1..], payouts + [p], committed + amount, purchased, sends)
  }

  predicate Listed(entries: seq<SettlementEntry>, list: seq<nat>) {
    forall i :: 0 <= i < |list| ==> list[i] < |entries|
  }

  /** What paying from position i on comes to, after the entry there was paid or could not be. */
  lemma {:induction false} PayingStep(entries: seq<SettlementEntry>, list: seq<nat>, i: nat, now: seq<Payout>,
                                      committed: nat, purchased: nat, sends: nat -> Send, inserted: bool,
                                      next: seq<Payout>)
    requires Listed(entries, list) && i < |list|
    requires var amount := entries[list[i]].amount;
             && committed + amount <= purchased
             && (inserted <==> amount > 0 && !HasPayoutFor(now, list[i]))
             && next == if inserted then now + [Attempted(Payout(list[i], amount, Pending, 0), sends(|now|))] else now
    ensures var more := if inserted then entries[list[i]].amount else 0;
            Paying(entries, list[i..], now, committed, purchased, sends)
            == Paying(entries, list[i + 1..], next, committed + more, purchased, sends)
  {
  }

  /** One settlement's payouts when the database works. */
  function Executed(entries: seq<SettlementEntry>, payouts: seq<Payout>, minPayout: nat, purchased: nat,
                    sends: nat -> Send): seq<Payout> {
    var list := UnsettledUpTo(entries, payouts, minPayout, |entries|);
    Paying(entries, list, payouts, Committed(payouts), purchased, sends)
  }

  /** What the entries on a list are worth together. */
  function WorthOf(entries: seq<SettlementEntry>, list: seq<nat>): nat
    requires Listed(entries, list)
  {
    if list == [] then 0 else entries[list[0]].amount + WorthOf(entries, list[1..])
  }

  /** What is listed for payment has no payout and is worth one, and no entry is on the list twice. */
  predicate ToPay(entries: seq<SettlementEntry>, list: seq<nat>, payouts: seq<Payout>) {
    && Listed(entries, list)
    && (forall i :: 0 <= i < |list| ==> entries[list[i]].amount > 0 && !HasPayoutFor(payouts, list[i]))
    && (forall i, j :: 0 <= i < j < |list| ==> list[i] != list[j])
  }

  /** The first n listed entries have a payout each, in their order and of their amounts, after those there were. */
  predicate PaidFirst(entries: seq<SettlementEntry>, list: seq<nat>, before: seq<Payout>, after: seq<Payout>, n: nat)
    requires Listed(entries, list) && n <= |list|
  {
    && |after| == |before| + n && after[..|before|] == before
    && forall k :: 0 <= k < n ==>
         after[|before| + k].entry == list[k] && after[|before| + k].amount == entries[list[k]].amount
  }

  /**
   * Paying goes down the list as far as the budget reaches: the entries paid are
   * the first ones, what they are worth fits on top of what was committed, and the
   * next one, if there is any, would not.
   */
  lemma {:induction false} PayingExact(entries: seq<SettlementEntry>, list: seq<nat>, payouts: seq<Payout>,
                                       committed: nat, purchased: nat, sends: nat -> Send)
    returns (n: nat)
    requires ToPay(entries, list, payouts)
    ensures n <= |list| && Listed(entries, list[..n])
    ensures PaidFirst(entries, list, payouts, Paying(entries, list, payouts, committed, purchased, sends), n)
    ensures n > 0 ==> committed + WorthOf(entries, list[..n]) <= purchased
    ensures n < |list| ==> committed + WorthOf(entries, list[..n]) + entries[list[n]].amount > purchased
    decreases |list|
  {
    if list == [] || committed + entries[list[0]].amount > purchased {
      n := 0;
      assert list[..0] == [] && payouts[..|payouts|] == payouts;
    } else {
      var amount, rest := entries[list[0]].amount, list[1..];
      var p := Attempted(Payout(list[0], amount, Pending, 0), sends(|payouts|));
      var next := payouts + [p];
      NextToPay(entries, list, payouts, p);
      var m := PayingExact(entries, rest, next, committed + amount, purchased, sends);
      n := m + 1;
      assert list[..n][1..] == rest[..m] && list[..n][0] == list[0];
      var after := Paying(entries, list, payouts, committed, purchased, sends);
      assert after == Paying(entries, rest, next, committed + amount, purchased, sends);
      PaidOneMore(entries, list, payouts, p, after, m);
    }
  }

  lemma {:induction false} NextToPay(entries: seq<SettlementEntry>, list: seq<nat>, payouts: seq<Payout>, p: Payout)
    requires ToPay(entries, list, payouts) && list != [] && p.entry == list[0]
    ensures ToPay(entries, list[1..], payouts + [p])
  {
    var rest, next := list[1..], payouts + [p];
    forall i | 0 <= i < |rest| ensures !HasPayoutFor(next, rest[i]) && entries[rest[i]].amount > 0 {
      assert rest[i] == list[i + 1] && list[0] != list[i + 1];
    }
  }

  lemma {:induction false} PaidOneMore(entries: seq<SettlementEntry>, list: seq<nat>, payouts: seq<Payout>, p: Payout,
                                       after: seq<Payout>, m: nat)
    requires Listed(entries, list) && list != [] && m <= |list| - 1
    requires p.entry == list[0] && p.amount == entries[list[0]].amount
    requires PaidFirst(entries, list[1..], payouts + [p], after, m)
    ensures PaidFirst(entries, list, payouts, after, m + 1)
  {
    var was := |payouts|;
    assert after[..was + 1] == payouts + [p];
    assert after[was] == after[..was + 1][was] == p;
    assert after[..was] == after[..was + 1][..was];
    forall k | 0 < k < m + 1
      ensures after[was + k].entry == list[k] && after[was + k].amount == entries[list[k]].amount
    {
      assert after[was + 1 + (k - 1)].entry == list[1..][k - 1];
    }
  }

  /** The entries on a list that are worth something. */
  function Positive(entries: seq<SettlementEntry>, list: seq<nat>): (r: seq<nat>)
    requires Listed(entries, list)
    ensures Listed(entries, r) && forall e :: e in r <==> e in list && entries[e].amount > 0
  {
    if list == [] then []
    else
      var rest := Positive(entries, list[1..]);
      if entries[list[0]].amount > 0 then [list[0]] + rest else rest
  }

  /** An entry worth nothing gets no payout and changes nothing for the others. */
  lemma {:induction false} WorthlessSkipped(entries: seq<SettlementEntry>, list: seq<nat>, payouts: seq<Payout>,
                                            committed: nat, purchased: nat, sends: nat -> Send)
    requires Listed(entries, list)
    ensures Paying(entries, list, payouts, committed, purchased, sends)
            == Paying(entries, Positive(entries, list), payouts, committed, purchased, sends)
    decreases |list|
  {
    if list != [] {
      var amount, rest := entries[list[0]].amount, list[1..];
      var positive := Positive(entries, rest);
      if amount == 0 {
        assert Positive(entries, list) == positive;
        if committed <= purchased {
          PayingHead(entries, list, payouts, committed, purchased, sends);
          WorthlessSkipped(entries, rest, payouts, committed, purchased, sends);
        } else {
          NothingFits(entries, list, payouts, committed, purchased, sends);
          NothingFits(entries, positive, payouts, committed, purchased, sends);
        }
      } else {
        var all := [list[0]] + positive;
        assert Positive(entries, list) == all && all[1..] == positive;
        WorthlessSkipped(entries, rest, payouts, committed, purchased, sends);
        var next := payouts + [Attempted(Payout(list[0], amount, Pending, 0), sends(|payouts|))];
        WorthlessSkipped(entries, rest, next, committed + amount, purchased, sends);
        SameHead(entries, list, all, payouts, committed, purchased, sends);
      }
    }
  }

  /** Two lists with one head come to the same if their rests do. */
  lemma {:induction false} SameHead(entries: seq<SettlementEntry>, a: seq<nat>, b: seq<nat>, payouts: seq<Payout>,
                                    committed: nat, purchased: nat, sends: nat -> Send)
    requires Listed(entries, a) && Listed(entries, b) && a != [] && b != [] && a[0] == b[0]
    requires Paying(entries, a[1..], payouts, committed, purchased, sends)
             == Paying(entries, b[1..], payouts, committed, purchased, sends)
    requires var amount := entries[a[0]].amount;
             var next := payouts + [Attempted(Payout(a[0], amount, Pending, 0), sends(|payouts|))];
             Paying(entries, a[1..], next, committed + amount, purchased, sends)
             == Paying(entries, b[1..], next, committed + amount, purchased, sends)
    ensures Paying(entries, a, payouts, committed, purchased, sends)
            == Paying(entries, b, payouts, committed, purchased, sends)
  {
  }

  lemma {:induction false} PayingHead(entries: seq<SettlementEntry>, list: seq<nat>, payouts: seq<Payout>,
                                      committed: nat, purchased: nat, sends: nat -> Send)
    requires Listed(entries, list) && list != [] && committed + entries[list[0]].amount <= purchased
    ensures var amount, rest := entries[list[0]].amount, list[1..];
            Paying(entries, list, payouts, committed, purchased, sends)
            == if amount == 0 || HasPayoutFor(payouts, list[0])
               then Paying(entries, rest, payouts, committed, purchased, sends)
               else Paying(entries, rest,
                           payouts + [Attempted(Payout(list[0], amount, Pending, 0), sends(|payouts|))],
                           committed + amount, purchased, sends)
  {
  }

  lemma {:induction false} NothingFits(entries: seq<SettlementEntry>, list: seq<nat>, payouts: seq<Payout>,
                                       committed: nat, purchased: nat, sends: nat -> Send)
    requires Listed(entries, list) && committed > purchased
    ensures Paying(entries, list, payouts, committed, purchased, sends) == payouts
  {
  }

  predicate Rising(list: seq<nat>) { forall i, j :: 0 <= i < j < |list| ==> list[i] < list[j] }

  lemma {:induction false} RisingFrom(x: nat, list: seq<nat>)
    requires Rising(list) && forall k :: k in list ==> x < k
    ensures Rising([x] + list)
  {
    var more := [x] + list;
    forall i, j | 0 <= i < j < |more| ensures more[i] < more[j] {
      assert more[j] == list[j - 1] && list[j - 1] in list;
    }
  }

  lemma {:induction false} PositiveRises(entries: seq<SettlementEntry>, list: seq<nat>)
    requires Listed(entries, list) && Rising(list)
    ensures Rising(Positive(entries, list))
  {
    if list != [] {
      var first, rest := list[0], list[1..];
      assert forall i :: 0 <= i < |rest| ==> rest[i] == list[i + 1];
      PositiveRises(entries, rest);
      RisingFrom(first, Positive(entries, rest));
      assert Positive(entries, list)
             == if entries[first].amount > 0 then [first] + Positive(entries, rest) else Positive(entries, rest);
    } else {
      assert Positive(entries, list) == [];
    }
  }

  lemma {:induction false} PositiveToPay(entries: seq<SettlementEntry>, payouts: seq<Payout>, all: seq<nat>)
    requires Listed(entries, all) && forall i :: 0 <= i < |all| ==> !HasPayoutFor(payouts, all[i])
    requires Rising(all)
    ensures ToPay(entries, Positive(entries, all), payouts)
  {
    var list := Positive(entries, all);
    PositiveRises(entries, all);
    forall i | 0 <= i < |list| ensures entries[list[i]].amount > 0 && !HasPayoutFor(payouts, list[i]) {
      assert list[i] in list;
      assert list[i] in all;
    }
  }

  /**
   * One settlement on a sound database pays exactly the oldest unsettled entries
   * from the minimum up that the budget reaches, in order, each its own amount.
   */
  lemma {:induction false} ExecutedExact(entries: seq<SettlementEntry>, payouts: seq<Payout>, minPayout: nat,
                                         purchased: nat, sends: nat -> Send)
    returns (list: seq<nat>, n: nat)
    ensures forall e: nat :: e in list <==>
              e < |entries| && entries[e].amount > 0 && entries[e].amount >= minPayout
              && forall i :: 0 <= i < |payouts| ==> payouts[i].entry != e
    ensures Rising(list) && n <= |list| && Listed(entries, list) && Listed(entries, list[..n])
    ensures PaidFirst(entries, list, payouts, Executed(entries, payouts, minPayout, purchased, sends), n)
    ensures n > 0 ==> Committed(payouts) + WorthOf(entries, list[..n]) <= purchased
    ensures n < |list| ==> Committed(payouts) + WorthOf(entries, list[..n]) + entries[list[n]].amount > purchased
  {
    var all := UnsettledUpTo(entries, payouts, minPayout, |entries|);
    list := Positive(entries, all);
    WorthlessSkipped(entries, all, payouts, Committed(payouts), purchased, sends);
    PositiveRises(entries, all);
    PositiveToPay(entries, payouts, all);
    n := PayingExact(entries, list, payouts, Committed(payouts), purchased, sends);
  }

  /** What holds after every entry: nothing old changed, and whatever was added is owed and covered. */
  predicate Covered(before: seq<Payout>, now: seq<Payout>, entries: seq<SettlementEntry>, minPayout: nat,
                    committed: nat, purchased: nat) {
    && before <= now
    && Committed(now) <= committed
    && (now != before ==> committed <= purchased)
    && forall k :: |before| <= k < |now| ==> Settles(now[k], entries, before, minPayout)
  }

  lemma {:induction false} StaysCovered(before: seq<Payout>, now: seq<Payout>, next: seq<Payout>,
                                        entries: seq<SettlementEntry>, minPayout: nat, committed: nat, purchased: nat,
                                        entry: nat)
    requires Covered(before, now, entries, minPayout, committed, purchased)
    requires Unsettled(entries, before, minPayout, entry) && committed + entries[entry].amount <= purchased
    requires |next| == |now| + 1 && next[..|now|] == now && next[|now|].entry == entry
             && next[|now|].amount == entries[entry].amount
    requires Committed(next) <= Committed(now) + entries[entry].amount
    ensures Covered(before, next, entries, minPayout, committed + entries[entry].amount, purchased)
  {
  }

  /** A payout as the retry loop leaves it when the database works. */
  function Retried(p: Payout, send: Send): Payout {
    if CanRetry(p) then Attempted(p.(status := Retrying), send) else p
  }

  /** What one attempt can make of a payout when statements may fail: nothing, half of it, or all. */
  predicate SendLeaves(p: Payout, send: Send, q: Payout) {
    q == p || (send.Made? && q == Started(p)) || q == Attempted(p, send)
  }

  predicate RetryLeaves(p: Payout, send: Send, q: Payout) {
    if CanRetry(p) then q == p || SendLeaves(p.(status := Retrying), send, q) else q == p
  }

  function RetriedAll(payouts: seq<Payout>, sends: nat -> Send): seq<Payout> {
    seq(|payouts|, i requires 0 <= i < |payouts| => Retried(payouts[i], sends(i)))
  }

  function Retryable(p: Payout): nat { if CanRetry(p) then p.amount else 0 }

  function WithRetries(p: Payout): nat { Counted(p) + Retryable(p) }

  /** No retry promises more than all failed payouts with attempts left, on top of what is committed. */
  lemma {:induction false} RetriesAdd(payouts: seq<Payout>, sends: nat -> Send)
    ensures Committed(RetriedAll(payouts, sends)) <= SumBy(payouts, WithRetries)
    ensures (forall i :: sends(i) == CalledOff) ==> Committed(RetriedAll(payouts, sends)) == SumBy(payouts, WithRetries)
  {
    if payouts != [] {
      var n := |payouts| - 1;
      assert RetriedAll(payouts, sends)[..n] == RetriedAll(payouts[..n], sends);
      RetriesAdd(payouts[..n], sends);
    }
  }

  /**
   * Retrying keeps the promises within what was purchased, whatever the outcomes,
   * exactly when the failed payouts it would send again still fit: a check the
   * retry loop does not make.
   */
  lemma {:induction false} RetryBudgetExact(payouts: seq<Payout>, purchased: nat)
    ensures (forall sends :: Committed(RetriedAll(payouts, sends)) <= purchased)
            <==> Committed(payouts) + SumBy(payouts, Retryable) <= purchased
  {
    SumByAdd(payouts, Counted, Retryable, WithRetries);
    if Committed(payouts) + SumBy(payouts, Retryable) <= purchased {
      forall sends ensures Committed(RetriedAll(payouts, sends)) <= purchased { RetriesAdd(payouts, sends); }
    } else {
      var idle: nat -> Send := _ => CalledOff;
      RetriesAdd(payouts, idle);
      assert Committed(RetriedAll(payouts, idle)) > purchased;
    }
  }

  function Always(told: Keysend): nat -> Send { _ => Made(told) }

  lemma {:induction false} TwoUnsettled(entries: seq<SettlementEntry>, payouts: seq<Payout>, minPayout: nat)
    requires |entries| == 2 && entries[0].amount >= minPayout && entries[1].amount >= minPayout
    ensures payouts == [] ==> UnsettledUpTo(entries, payouts, minPayout, 2) == [0, 1]
    ensures |payouts| == 1 && payouts[0].entry == 0 ==> UnsettledUpTo(entries, payouts, minPayout, 2) == [1]
  {
    var none := UnsettledUpTo(entries, payouts, minPayout, 0);
    var one := UnsettledUpTo(entries, payouts, minPayout, 1);
    assert none == [] && one == if HasPayoutFor(payouts, 0) then none else none + [0];
    assert UnsettledUpTo(entries, payouts, minPayout, 2) == if HasPayoutFor(payouts, 1) then one else one + [1];
    if |payouts| == 1 && payouts[0].entry == 0 { assert HasPayoutFor(payouts, 0) && !HasPayoutFor(payouts, 1); }
  }

  predicate TwoAlike(entries: seq<SettlementEntry>, minPayout: nat, sats: nat) {
    |entries| == 2 && entries[0].amount == sats && entries[1].amount == sats && sats > 0 && sats >= minPayout
  }

  lemma {:induction false} CommittedTwo(p: Payout, q: Payout)
    ensures Committed([p]) == Counted(p) && Committed([p, q]) == Counted(p) + Counted(q)
  {
    SumByPush([], p, Counted);
    SumByPush([p], q, Counted);
    assert [] + [p] == [p] && [p] + [q] == [p, q];
  }

  lemma {:induction false} FirstDeclined(entries: seq<SettlementEntry>, minPayout: nat, sats: nat)
    requires TwoAlike(entries, minPayout, sats)
    ensures Executed(entries, [], minPayout, sats, Always(Declined)) == [Payout(0, sats, Failed, 1)]
  {
    TwoUnsettled(entries, [], minPayout);
    var list: seq<nat> := [0, 1];
    var failed := Payout(0, sats, Failed, 1);
    assert list[0..] == list && [] + [failed] == [failed];
    PayingStep(entries, list, 0, [], 0, sats, Always(Declined), true, [failed]);
    assert list[1..][0] == 1;
  }

  lemma {:induction false} SecondPaid(entries: seq<SettlementEntry>, minPayout: nat, sats: nat)
    requires TwoAlike(entries, minPayout, sats)
    ensures Executed(entries, [Payout(0, sats, Failed, 1)], minPayout, sats, Always(Succeeded))
            == [Payout(0, sats, Failed, 1), Payout(1, sats, Paid, 0)]
  {
    var failed, paid := Payout(0, sats, Failed, 1), Payout(1, sats, Paid, 0);
    TwoUnsettled(entries, [failed], minPayout);
    CommittedTwo(failed, paid);
    var list: seq<nat> := [1];
    assert list[0..] == list && [failed] + [paid] == [failed, paid];
    assert !HasPayoutFor([failed], 1);
    PayingStep(entries, list, 0, [failed], 0, sats, Always(Succeeded), true, [failed, paid]);
    assert list[1..] == [];
  }

  lemma {:induction false} ThirdPaid(sats: nat)
    ensures RetriedAll([Payout(0, sats, Failed, 1), Payout(1, sats, Paid, 0)], Always(Succeeded))
            == [Payout(0, sats, Paid, 1), Payout(1, sats, Paid, 0)]
  {
    var before := [Payout(0, sats, Failed, 1), Payout(1, sats, Paid, 0)];
    var all := RetriedAll(before, Always(Succeeded));
    assert all[0] == Retried(before[0], Made(Succeeded)) && all[1] == Retried(before[1], Made(Succeeded));
  }

  /**
   * Two settlements and a retry that pay out twice what was purchased: the first
   * payment fails and leaves the budget, the second takes its place, and the
   * retry sends the first again.
   */
  lemma {:induction false} RetryOverspends(entries: seq<SettlementEntry>, minPayout: nat, sats: nat)
    requires TwoAlike(entries, minPayout, sats)
    ensures var first := Executed(entries, [], minPayout, sats, Always(Declined));
            var second := Executed(entries, first, minPayout, sats, Always(Succeeded));
            var third := RetriedAll(second, Always(Succeeded));
            && Committed(first) <= sats && Committed(second) <= sats
            && Committed(third) == sats + sats && forall i :: 0 <= i < |third| ==> third[i].status == Paid
  {
    var failed, paid, again := Payout(0, sats, Failed, 1), Payout(1, sats, Paid, 0), Payout(0, sats, Paid, 1);
    FirstDeclined(entries, minPayout, sats);
    SecondPaid(entries, minPayout, sats);
    ThirdPaid(sats);
    CommittedTwo(failed, paid);
    CommittedTwo(again, paid);
  }

  class PayoutStore {
    var entries: seq<SettlementEntry>
    var payouts: seq<Payout>
    var purchased: nat
    /** How many statements have failed so far. */
    ghost var failures: nat

    constructor ()
      ensures entries == [] && payouts == [] && purchased == 0
    {
      entries, payouts, purchased, failures := [], [], 0, 0;
    }

    /** One attempt to run a statement. */
    method Works() returns (ok: bool)
      modifies this`failures
      ensures failures == old(failures) + if ok then 0 else 1
    {
      ok := *;
      if !ok { failures := failures + 1; }
    }

    method TotalCommittedPayoutSats() returns (ok: bool, total: nat)
      modifies this`failures
      ensures ok ==> total == Committed(payouts)
      ensures failures == old(failures) + if ok then 0 else 1
    {
      ok := Works();
      if !ok { return false, 0; }
      total := 0;
      assert payouts[..0] == [];
      for i := 0 to |payouts|
        invariant total == Committed(payouts[..i])
      {
        assert payouts[..i + 1][..i] == payouts[..i];
        if payouts[i].status != Failed { total := total + payouts[i].amount; }
      }
      assert payouts[..|payouts|] == payouts;
    }

    /** Fails on an empty amount and on an entry that has a payout already. */
    method InsertPayout(entry: nat, amount: nat) returns (ok: bool)
      modifies this`payouts, this`failures
      ensures payouts == if ok then old(payouts) + [Payout(entry, amount, Pending, 0)] else old(payouts)
      ensures old(failures) <= failures
              && (ok <==> amount > 0 && !HasPayoutFor(old(payouts), entry) && failures == old(failures))
    {
      ok := Works();
      if !ok || amount == 0 || HasPayoutFor(payouts, entry) { return false; }
      payouts := payouts + [Payout(entry, amount, Pending, 0)];
      return true;
    }

    method MarkPayoutRetrying(id: nat) returns (ok: bool)
      requires id < |payouts|
      modifies this`payouts, this`failures
      ensures payouts == if ok then old(payouts)[id := old(payouts[id]).(status := Retrying)] else old(payouts)
      ensures old(failures) <= failures && (ok <==> CanRetry(old(payouts[id])) && failures == old(failures))
    {
      ok := Works();
      if !ok || !CanRetry(payouts[id]) { return false; }
      payouts := payouts[id := payouts[id].(status := Retrying)];
      return true;
    }

    method MarkPayoutInFlight(id: nat) returns (ok: bool)
      requires id < |payouts|
      modifies this`payouts, this`failures
      ensures payouts == if ok then old(payouts)[id := Started(old(payouts[id]))] else old(payouts)
      ensures old(failures) <= failures && (ok <==> CanStart(old(payouts[id])) && failures == old(failures))
    {
      ok := Works();
      if !ok || !CanStart(payouts[id]) { return false; }
      payouts := payouts[id := payouts[id].(status := InFlight)];
      return true;
    }

    method MarkPayoutPaid(id: nat) returns (ok: bool)
      requires id < |payouts|
      modifies this`payouts, this`failures
      ensures payouts == if ok then old(payouts)[id := Recorded(old(payouts[id]), Succeeded)] else old(payouts)
      ensures old(failures) <= failures && (ok <==> old(payouts[id]).status == InFlight && failures == old(failures))
    {
      ok := Works();
      if !ok || payouts[id].status != InFlight { return false; }
      payouts := payouts[id := payouts[id].(status := Paid)];
      return true;
    }

    method MarkPayoutFailed(id: nat) returns (ok: bool)
      requires id < |payouts|
      modifies this`payouts, this`failures
      ensures payouts == if ok then old(payouts)[id := Recorded(old(payouts[id]), Declined)] else old(payouts)
      ensures old(failures) <= failures && (ok <==> old(payouts[id]).status == InFlight && failures == old(failures))
    {
      ok := Works();
      if !ok || payouts[id].status != InFlight { return false; }
      payouts := payouts[id := payouts[id].(status := Failed, attempts := payouts[id].attempts + 1)];
      return true;
    }
  }

  datatype SendResult = SentPaid | StillInFlight | NotSent

  class PayoutEngine {
    const store: PayoutStore
    var minPayout: nat

    constructor (store: PayoutStore)
      ensures this.store == store && minPayout == 1000
    {
      this.store, minPayout := store, 1000;
    }

    /** Marks the payout in flight before the call; an unknown outcome leaves it there. */
    method SendPayout(id: nat, send: Send) returns (r: SendResult)
      requires id < |store.payouts|
      modifies store`payouts, store`failures
      ensures |store.payouts| == old(|store.payouts|)
      ensures store.payouts == old(store.payouts)[id := store.payouts[id]]
      ensures store.payouts[id].entry == old(store.payouts[id]).entry
              && store.payouts[id].amount == old(store.payouts[id]).amount
      ensures SendLeaves(old(store.payouts[id]), send, store.payouts[id])
      ensures old(store.failures) <= store.failures
      ensures store.failures == old(store.failures) ==> store.payouts[id] == Attempted(old(store.payouts[id]), send)
      ensures r.SentPaid? ==> store.payouts[id].status == Paid && send == Made(Succeeded)
      ensures r.StillInFlight? ==> store.payouts[id].status == InFlight && send == Made(Unknown)
    {
      if send.CalledOff? { return NotSent; }
      var marked := store.MarkPayoutInFlight(id);
      if !marked { return NotSent; }
      match send.told {
        case Succeeded =>
          var recorded := store.MarkPayoutPaid(id);
          return if recorded then SentPaid else NotSent;
        case Unknown => return StillInFlight;
        case Declined =>
          var recorded := store.MarkPayoutFailed(id);
          return NotSent;
      }
    }

    /**
     * Pays unsettled entries, oldest first, until the next one would take the
     * promises above what was purchased. Whatever the payments and the database
     * do, nothing is added that the purchases do not cover.
     */
    method ExecutePayouts(sends: nat -> Send) returns (ok: bool)
      modifies store`payouts, store`failures
      ensures old(store.payouts) <= store.payouts
      ensures store.payouts != old(store.payouts) ==> Committed(store.payouts) <= store.purchased
      ensures forall i :: |old(store.payouts)| <= i < |store.payouts| ==>
                Settles(store.payouts[i], store.entries, old(store.payouts), minPayout)
      ensures old(store.failures) <= store.failures
      ensures store.failures == old(store.failures) ==>
                ok && store.payouts == Executed(store.entries, old(store.payouts), minPayout, store.purchased, sends)
    {
      var committed: nat;
      ok, committed := store.TotalCommittedPayoutSats();
      if !ok { return; }
      ghost var before := store.payouts;
      var entries, list := store.entries, UnsettledUpTo(store.entries, store.payouts, minPayout, |store.entries|);
      assert list[0..] == list;
      for i := 0 to |list|
        invariant Covered(before, store.payouts, entries, minPayout, committed, store.purchased)
        invariant old(store.failures) <= store.failures
        invariant store.failures == old(store.failures) ==>
                    Paying(entries, list[i..], store.payouts, committed, store.purchased, sends)
                    == Executed(entries, before, minPayout, store.purchased, sends)
      {
        if committed + entries[list[i]].amount > store.purchased { break; }
        committed := PayNext(entries, list, i, committed, sends, before);
      }
    }

    method PayNext(entries: seq<SettlementEntry>, list: seq<nat>, i: nat, committed: nat, sends: nat -> Send,
                   ghost before: seq<Payout>)
      returns (next: nat)
      requires entries == store.entries && Listed(entries, list) && i < |list|
               && Unsettled(entries, before, minPayout, list[i])
      requires committed + entries[list[i]].amount <= store.purchased
      requires Covered(before, store.payouts, entries, minPayout, committed, store.purchased)
      modifies store`payouts, store`failures
      ensures Covered(before, store.payouts, entries, minPayout, next, store.purchased)
      ensures old(store.failures) <= store.failures
      ensures store.failures == old(store.failures) ==>
                Paying(entries, list[i + 1..], store.payouts, next, store.purchased, sends)
                == Paying(entries, list[i..], old(store.payouts), committed, store.purchased, sends)
    {
      ghost var now := store.payouts;
      var inserted := PayOne(list[i], sends);
      if store.failures == old(store.failures) {
        assert inserted ==> store.payouts == now + [store.payouts[|now|]];
        PayingStep(entries, list, i, now, committed, store.purchased, sends, inserted, store.payouts);
      }
      if !inserted { return committed; }
      StaysCovered(before, now, store.payouts, entries, minPayout, committed, store.purchased, list[i]);
      return committed + entries[list[i]].amount;
    }

    /** Inserts the payout and sends it; once inserted it counts, however the sending ends. */
    method PayOne(entry: nat, sends: nat -> Send) returns (inserted: bool)
      requires entry < |store.entries|
      modifies store`payouts, store`failures
      ensures var amount, id := store.entries[entry].amount, old(|store.payouts|);
              && (!inserted ==> store.payouts == old(store.payouts))
              && (inserted ==> |store.payouts| == id + 1 && store.payouts[..id] == old(store.payouts)
                               && store.payouts[id].entry == entry && store.payouts[id].amount == amount
                               && Committed(store.payouts) <= Committed(old(store.payouts)) + amount)
              && (store.failures == old(store.failures) ==>
                    (inserted <==> amount > 0 && !HasPayoutFor(old(store.payouts), entry)))
              && (store.failures == old(store.failures) && inserted ==>
                    store.payouts[id] == Attempted(Payout(entry, amount, Pending, 0), sends(id)))
      ensures old(store.failures) <= store.failures
    {
      var amount := store.entries[entry].amount;
      ghost var before := store.payouts;
      inserted := store.InsertPayout(entry, amount);
      if !inserted { return; }
      var id := |store.payouts| - 1;
      var sent := SendPayout(id, sends(id));
      assert store.payouts == before + [store.payouts[id]];
      SumByPush(before, store.payouts[id], Counted);
    }

    /**
     * Sends every failed payout with attempts left once more; the budget is not
     * looked at. Whatever statements fail, no other payout changes, and one that
     * is sent ends as a working database would leave it or stops on the way there.
     */
    method RetryFailedPayouts(sends: nat -> Send)
      modifies store`payouts, store`failures
      ensures |store.payouts| == old(|store.payouts|)
      ensures forall k :: 0 <= k < |store.payouts| ==> RetryLeaves(old(store.payouts)[k], sends(k), store.payouts[k])
      ensures old(store.failures) <= store.failures
      ensures store.failures == old(store.failures) ==> store.payouts == RetriedAll(old(store.payouts), sends)
    {
      var listed := store.Works();
      if !listed { return; }
      var was := store.payouts;
      for id := 0 to |was|
        invariant |store.payouts| == |was|
        invariant forall k :: id <= k < |was| ==> store.payouts[k] == was[k]
        invariant forall k :: 0 <= k < id ==> RetryLeaves(was[k], sends(k), store.payouts[k])
        invariant old(store.failures) <= store.failures
        invariant store.failures == old(store.failures) ==>
                    forall k :: 0 <= k < id ==> store.payouts[k] == Retried(was[k], sends(k))
      {
        RetryOne(id, sends(id));
      }
    }

    method RetryOne(id: nat, send: Send)
      requires id < |store.payouts|
      modifies store`payouts, store`failures
      ensures |store.payouts| == old(|store.payouts|)
      ensures store.payouts == old(store.payouts)[id := store.payouts[id]]
      ensures RetryLeaves(old(store.payouts[id]), send, store.payouts[id])
      ensures old(store.failures) <= store.failures
      ensures store.failures == old(store.failures) ==> store.payouts[id] == Retried(old(store.payouts[id]), send)
    {
      if !CanRetry(store.payouts[id]) { return; }
      var marked := store.MarkPayoutRetrying(id);
      if !marked { return; }
      var sent := SendPayout(id, send);
    }
  }
}
