/** A node's peers over whole sequences of grants, top-ups, removals and reaper rounds. */
module PeerRuns {
  import opened Peers

  datatype Call =
    | CallGrant(p: Peer, bytes: nat, calls: Calls, now: int)
    | CallRemove(p: Peer, removePeer: bool, removeQuota: bool)
    | CallReap(statsOK: bool, round: Round)

  /** What one call makes of the books. */
  ghost predicate Next(b: Books, c: Call, t: Books) {
    match c
    case CallGrant(p, bytes, calls, now) =>
      if CanHold(b.holders, p) then GrantedSome(b, p, bytes, calls, now, t) else t == b
    case CallRemove(p, removePeer, removeQuota) => t == AfterRemove(b, p, removePeer, removeQuota)
    case CallReap(statsOK, r) =>
      b.holders.Keys == b.since.Keys && t == if statsOK then Reaped(b, Doomed(b, r), r.removeQuota) else b
  }

  ghost predicate GrantedSome(b: Books, p: Peer, bytes: nat, calls: Calls, now: int, t: Books) {
    exists ip: nat :: Allocatable(b.holders, p, ip) && t == AfterGrant(b, p, ip, bytes, calls, now)
  }

  ghost predicate IsRun(trace: seq<Books>, calls: seq<Call>) {
    && |trace| == |calls| + 1
    && forall n :: 0 <= n < |calls| ==> Next(trace[n], calls[n], trace[n + 1])
  }

  /** The server makes such a run of whatever it is asked, whatever fails. */
  method Serve(s: Server, calls: seq<Call>) returns (ghost trace: seq<Books>)
    requires s.Sound()
    modifies s, s.pool
    ensures s.Sound()
    ensures IsRun(trace, calls) && trace[0] == old(s.Now()) && trace[|calls|] == s.Now()
  {
    trace := [s.Now()];
    for i := 0 to |calls|
      invariant s.Sound() && |trace| == i + 1 && trace[0] == old(s.Now()) && trace[i] == s.Now()
      invariant forall n :: 0 <= n < i ==> Next(trace[n], calls[n], trace[n + 1])
    {
      Dispatch(s, calls[i]);
      trace := trace + [s.Now()];
    }
  }

  method Dispatch(s: Server, c: Call)
    requires s.Sound()
    modifies s, s.pool
    ensures s.Sound() && Next(old(s.Now()), c, s.Now())
  {
    match c {
      case CallGrant(p, bytes, calls, now) =>
        ghost var ip;
        var g;
        g, ip := s.GrantPeer(p, bytes, calls, now);
      case CallRemove(p, removePeer, removeQuota) => var ok := s.HandleRemovePeer(p, removePeer, removeQuota);
      case CallReap(statsOK, r) => s.ReapIdle(statsOK, r);
    }
  }

  lemma {:induction false} StepKeepsSound(b: Books, c: Call, t: Books)
    requires BooksSound(b) && Next(b, c, t)
    ensures BooksSound(t)
  {
    match c
    case CallGrant(p, bytes, calls, now) =>
      if CanHold(b.holders, p) {
        var ip: nat :| Allocatable(b.holders, p, ip) && t == AfterGrant(b, p, ip, bytes, calls, now);
        GrantKeepsSound(b, p, ip, bytes, calls, now);
      }
    case CallRemove(p, removePeer, removeQuota) => RemoveKeepsSound(b, p, removePeer, removeQuota);
    case CallReap(statsOK, r) => ReapKeepsSound(b, Doomed(b, r), r.removeQuota);
  }

  lemma {:induction false} RunKeepsSound(trace: seq<Books>, calls: seq<Call>, n: nat)
    requires IsRun(trace, calls) && BooksSound(trace[0]) && n < |trace|
    ensures BooksSound(trace[n])
  {
    if n > 0 {
      RunKeepsSound(trace, calls, n - 1);
      StepKeepsSound(trace[n - 1], calls[n - 1], trace[n]);
    }
  }

  // ---- Strays ----

  /** The peer was let in, its quota failed and it could not be taken out again. */
  ghost predicate Stranded(b: Books, c: Call, p: Peer) {
    c.CallGrant? && c.p == p && CanHold(b.holders, p) && c.calls.addPeer && !c.calls.setQuota && !c.calls.removePeer
  }

  /** A grant that went through as far as the tunnel, or a removal: either ends a stray. */
  ghost predicate SetRight(b: Books, c: Call, p: Peer) {
    || (c.CallGrant? && c.p == p && CanHold(b.holders, p) && c.calls.addPeer
        && (c.calls.setQuota || c.calls.removePeer))
    || (c.CallRemove? && c.p == p && c.removePeer)
  }

  /** A call leaves a peer stray exactly when it stranded it, or it was stray before and was not set right. */
  lemma {:induction false} StrayExact(b: Books, c: Call, t: Books, p: Peer)
    requires BooksSound(b) && Next(b, c, t)
    ensures Stray(t, p) <==> Stranded(b, c, p) || (Stray(b, p) && !SetRight(b, c, p))
  {
    match c
    case CallGrant(q, bytes, calls, now) => GrantStrays(b, q, bytes, calls, now, t, p);
    case CallRemove(q, removePeer, removeQuota) => RemoveStrays(b, q, removePeer, removeQuota, p);
    case CallReap(statsOK, r) => if statsOK { ReapStrays(b, r, p); }
  }

  lemma {:induction false} GrantStrays(b: Books, q: Peer, bytes: nat, calls: Calls, now: int, t: Books, p: Peer)
    requires BooksSound(b) && Next(b, CallGrant(q, bytes, calls, now), t)
    ensures var c := CallGrant(q, bytes, calls, now);
            Stray(t, p) <==> Stranded(b, c, p) || (Stray(b, p) && !SetRight(b, c, p))
  {
    if CanHold(b.holders, q) && calls.addPeer {
      var ip: nat :| Allocatable(b.holders, q, ip) && t == AfterGrant(b, q, ip, bytes, calls, now);
      HousedKeepsPool(b.holders, b.since, q, ip, now);
      var housed := Housing(b, q, ip, now);
      assert ip in housed.holders && housed.holders[ip] == q;
      if !calls.setQuota {
        FreedHeld(housed.(granted := t.granted), q, calls.removeQuota, p);
      }
    }
  }

  /** Freeing what one peer held concerns no other. */
  lemma {:induction false} FreedHeld(b: Books, q: Peer, removeQuota: bool, p: Peer)
    ensures Held(Freed(b, q, removeQuota).holders, p) <==> p != q && Held(b.holders, p)
  {
    var t := Freed(b, q, removeQuota);
    if i :| p != q && i in b.holders && b.holders[i] == p { assert i in t.holders && t.holders[i] == p; }
  }

  lemma {:induction false} RemoveStrays(b: Books, q: Peer, removePeer: bool, removeQuota: bool, p: Peer)
    requires BooksSound(b)
    ensures Stray(AfterRemove(b, q, removePeer, removeQuota), p) <==> Stray(b, p) && !(p == q && removePeer)
  {
    if removePeer && q in b.granted { FreedHeld(b.(granted := b.granted - {q}), q, removeQuota, p); }
  }

  lemma {:induction false} ReapStrays(b: Books, r: Round, p: Peer)
    requires BooksSound(b)
    ensures Stray(Reaped(b, Doomed(b, r), r.removeQuota), p) <==> Stray(b, p)
  {
    var t := Reaped(b, Doomed(b, r), r.removeQuota);
    if p in t.granted && Held(b.holders, p) {
      var i :| i in b.holders && b.holders[i] == p;
      assert i !in Doomed(b, r);
      assert i in t.holders && t.holders[i] == p;
    }
  }

  /** Without a failed roll-back a run that starts without strays never has one. */
  lemma {:induction false} NoStrays(trace: seq<Books>, calls: seq<Call>, n: nat, p: Peer)
    requires IsRun(trace, calls) && BooksSound(trace[0]) && n < |trace| && !Stray(trace[0], p)
    requires forall k :: 0 <= k < n ==> !Stranded(trace[k], calls[k], p)
    ensures !Stray(trace[n], p)
  {
    if n > 0 {
      NoStrays(trace, calls, n - 1, p);
      RunKeepsSound(trace, calls, n - 1);
      StrayExact(trace[n - 1], calls[n - 1], trace[n], p);
    }
  }

  /**
   * Over every sequence of grants, top-ups, removals and reaper rounds, two peers
   * in the tunnel have different addresses as long as the roll-back of a grant to
   * either of them never failed.
   */
  lemma {:induction false} AddressesStayApart(trace: seq<Books>, calls: seq<Call>, n: nat, p: Peer, q: Peer)
    requires IsRun(trace, calls) && trace[0] == NOBODY && n < |trace|
    requires forall k :: 0 <= k < n ==> !Stranded(trace[k], calls[k], p) && !Stranded(trace[k], calls[k], q)
    requires p in trace[n].granted && q in trace[n].granted && p != q
    ensures trace[n].granted[p] != trace[n].granted[q]
    ensures Housed(trace[n], p) && Housed(trace[n], q)
  {
    RunKeepsSound(trace, calls, n);
    NoStrays(trace, calls, n, p);
    NoStrays(trace, calls, n, q);
    AddressesAreOwn(trace[n], p, q);
  }

  /** One failed roll-back, and the next peer is let in under the same address. */
  lemma {:induction false} TwoPeersOneAddress(a: Peer, b: Peer, bytes: nat, now: int)
    returns (trace: seq<Books>, calls: seq<Call>)
    requires a != b
    ensures IsRun(trace, calls) && trace[0] == NOBODY && |calls| == 2
    ensures a in trace[2].granted && b in trace[2].granted && trace[2].granted[a] == trace[2].granted[b]
  {
    var fails, works := Calls(true, false, false, true), Calls(true, true, true, true);
    calls := [CallGrant(a, bytes, fails, now), CallGrant(b, bytes, works, now)];
    var one := AfterGrant(NOBODY, a, FIRST, bytes, fails, now);
    assert Allocatable(NOBODY.holders, a, FIRST);
    assert one.holders == map[] && one.granted == map[a := FIRST];
    var two := AfterGrant(one, b, FIRST, bytes, works, now);
    assert Allocatable(one.holders, b, FIRST);
    assert GrantedSome(NOBODY, a, bytes, fails, now, one) && GrantedSome(one, b, bytes, works, now, two);
    trace := [NOBODY, one, two];
  }

  // ---- When two peers can come to share an address ----

  ghost predicate Shared(b: Books) {
    exists p, q :: p in b.granted && q in b.granted && p != q && b.granted[p] == b.granted[q]
  }

  /** The call takes a peer out again if it let it in and its quota failed. */
  predicate RollsBack(c: Call) {
    !(c.CallGrant? && c.calls.addPeer && !c.calls.setQuota && !c.calls.removePeer)
  }

  predicate AllRollBack(calls: seq<Call>) { forall k :: 0 <= k < |calls| ==> RollsBack(calls[k]) }

  /** A run from the books in which every roll-back works, and at the end two peers share an address. */
  ghost predicate SharesLater(b: Books, trace: seq<Books>, calls: seq<Call>) {
    IsRun(trace, calls) && trace[0] == b && AllRollBack(calls) && Shared(trace[|calls|])
  }

  lemma {:induction false} CallFirst(b: Books, c: Call, trace: seq<Books>, calls: seq<Call>)
    requires IsRun(trace, calls) && Next(b, c, trace[0]) && RollsBack(c) && AllRollBack(calls) && Shared(trace[|calls|])
    ensures SharesLater(b, [b] + trace, [c] + calls)
  {
    var longer, more := [b] + trace, [c] + calls;
    forall n | 0 <= n < |more| ensures Next(longer[n], more[n], longer[n + 1]) {
      if n > 0 { assert longer[n] == trace[n - 1] && longer[n + 1] == trace[n] && more[n] == calls[n - 1]; }
    }
  }

  /** There is always a peer nobody has heard of. */
  lemma {:induction false} NewPeer(known: set<Peer>) returns (p: Peer)
    ensures forall q :: q in known ==> |q.pubkey| < |p.pubkey|
  {
    if known == {} {
      p := Peer("");
    } else {
      var q :| q in known;
      var rest := known - {q};
      var other := NewPeer(rest);
      p := if |other.pubkey| > |q.pubkey| then other else Peer(q.pubkey + "x");
      forall x | x in known ensures |x.pubkey| < |p.pubkey| {
        if x != q { assert x in rest; }
      }
    }
  }

  const WORKS := Calls(true, true, true, true)

  /** A new peer is let in under the lowest free address, beside a stray. */
  lemma {:induction false} NewcomerBeside(b: Books, p: Peer, f: nat) returns (q: Peer, t: Books)
    requires BooksSound(b) && Stray(b, p) && FIRST <= f <= LAST && f !in b.holders
    requires forall k: nat :: FIRST <= k < f ==> k in b.holders
    ensures Next(b, CallGrant(q, 0, WORKS, 0), t) && BooksSound(t) && Stray(t, p) && p != q
    ensures t.holders == b.holders[f := q] && t.granted == b.granted[q := f]
  {
    q := NewPeer(b.granted.Keys);
    assert q !in b.granted && !Held(b.holders, q);
    assert Allocatable(b.holders, q, f);
    t := AfterGrant(b, q, f, 0, WORKS, 0);
    assert GrantedSome(b, q, 0, WORKS, 0, t);
    HousedKeepsPool(b.holders, b.since, q, f, 0);
    GrantKeepsSound(b, q, f, 0, WORKS, 0);
  }

  /** Newcomers take the free addresses from below, until one of them takes the stray's. */
  lemma {:induction false} StrayIsJoined(b: Books, p: Peer, f: nat) returns (trace: seq<Books>, calls: seq<Call>)
    requires BooksSound(b) && Stray(b, p) && b.granted[p] !in b.holders && FIRST <= f <= b.granted[p]
    requires forall k: nat :: FIRST <= k < f ==> k in b.holders
    ensures SharesLater(b, trace, calls)
    decreases b.granted[p] - f
  {
    if f in b.holders {
      trace, calls := StrayIsJoined(b, p, f + 1);
    } else {
      var q, t := NewcomerBeside(b, p, f);
      var call := CallGrant(q, 0, WORKS, 0);
      if f == b.granted[p] {
        assert t.granted[p] == t.granted[q];
        CallFirst(b, call, [t], []);
        trace, calls := [b] + [t], [call] + [];
      } else {
        trace, calls := StrayIsJoined(t, p, f + 1);
        CallFirst(b, call, trace, calls);
        trace, calls := [b] + trace, [call] + calls;
      }
    }
  }

  /** A stray's address that is held makes it shared already. */
  lemma {:induction false} HeldIsShared(b: Books, p: Peer)
    requires BooksSound(b) && Stray(b, p) && b.granted[p] in b.holders
    ensures Shared(b)
  {
    var q := b.holders[b.granted[p]];
    assert q in b.granted && q != p && Held(b.holders, q);
    assert b.granted[q] == b.granted[p];
  }

  /**
   * From any sound books, calls whose roll-backs all work can come to two peers on
   * one address if and only if some peer holds none already, left behind by an
   * earlier roll-back that failed.
   */
  lemma {:induction false} SharingExact(b: Books)
    requires BooksSound(b)
    ensures (exists trace, calls :: SharesLater(b, trace, calls)) <==> exists p :: Stray(b, p)
  {
    if p :| Stray(b, p) {
      if b.granted[p] in b.holders {
        HeldIsShared(b, p);
        assert SharesLater(b, [b], []);
      } else {
        var trace, calls := StrayIsJoined(b, p, FIRST);
      }
    } else {
      forall trace, calls ensures !SharesLater(b, trace, calls) {
        if SharesLater(b, trace, calls) { NoneShared(trace, calls); }
      }
    }
  }

  lemma {:induction false} NoneShared(trace: seq<Books>, calls: seq<Call>)
    requires IsRun(trace, calls) && BooksSound(trace[0]) && AllRollBack(calls) && forall p :: !Stray(trace[0], p)
    ensures !Shared(trace[|calls|])
  {
    var last := trace[|calls|];
    RunKeepsSound(trace, calls, |calls|);
    forall p, q | p in last.granted && q in last.granted && p != q ensures last.granted[p] != last.granted[q] {
      NoStrays(trace, calls, |calls|, p);
      NoStrays(trace, calls, |calls|, q);
      AddressesAreOwn(last, p, q);
    }
  }

  // ---- A peer that stays keeps its address ----

  ghost predicate Settled(b: Books, p: Peer) { p in b.granted && !Stray(b, p) }

  lemma {:induction false} StepKeepsAddress(b: Books, c: Call, t: Books, p: Peer)
    requires BooksSound(b) && Next(b, c, t) && Settled(b, p) && Settled(t, p)
    ensures t.granted[p] == b.granted[p]
  {
    assert Housed(b, p);
  }

  /** As long as a peer stays in the tunnel, grants, top-ups and rounds leave it its address. */
  lemma {:induction false} KeepsAddress(trace: seq<Books>, calls: seq<Call>, m: nat, n: nat, p: Peer)
    requires IsRun(trace, calls) && BooksSound(trace[0]) && m <= n < |trace|
    requires forall k :: m <= k <= n ==> Settled(trace[k], p)
    ensures p in trace[m].granted && p in trace[n].granted && trace[n].granted[p] == trace[m].granted[p]
  {
    assert Settled(trace[m], p) && Settled(trace[n], p);
    if m < n {
      var last := n - 1;
      KeepsAddress(trace, calls, m, last, p);
      RunKeepsSound(trace, calls, last);
      assert Settled(trace[last], p) && Next(trace[last], calls[last], trace[last + 1]);
      StepKeepsAddress(trace[last], calls[last], trace[last + 1], p);
    }
  }

  // ---- The reaper spares whoever was granted or heard of lately ----

  /** Grants are made on a clock that does not go back. */
  ghost predicate ClockRuns(calls: seq<Call>) {
    forall i, j :: 0 <= i < j < |calls| && calls[i].CallGrant? && calls[j].CallGrant? ==> calls[i].now <= calls[j].now
  }

  /** The peer's entry is no older than the given time. */
  ghost predicate SinceAtLeast(b: Books, p: Peer, time: int) {
    forall i :: i in b.holders && b.holders[i] == p ==> i in b.since && b.since[i] >= time
  }

  lemma {:induction false} StepKeepsSince(b: Books, c: Call, t: Books, p: Peer, time: int)
    requires BooksSound(b) && Next(b, c, t) && SinceAtLeast(b, p, time)
    requires c.CallGrant? && c.p == p ==> c.now >= time
    ensures SinceAtLeast(t, p, time)
  {
    if c.CallGrant? && CanHold(b.holders, c.p) { GrantKeepsSince(b, c, t, p, time); }
  }

  lemma {:induction false} GrantKeepsSince(b: Books, c: Call, t: Books, p: Peer, time: int)
    requires BooksSound(b) && c.CallGrant? && Next(b, c, t) && CanHold(b.holders, c.p) && SinceAtLeast(b, p, time)
    requires c.p == p ==> c.now >= time
    ensures SinceAtLeast(t, p, time)
  {
    var ip: nat :| Allocatable(b.holders, c.p, ip) && t == AfterGrant(b, c.p, ip, c.bytes, c.calls, c.now);
    HousingKeepsSince(b, c.p, ip, c.now, p, time);
  }

  lemma {:induction false} HousingKeepsSince(b: Books, q: Peer, ip: nat, now: int, p: Peer, time: int)
    requires SinceAtLeast(b, p, time) && Allocatable(b.holders, q, ip) && (q == p ==> now >= time)
    ensures SinceAtLeast(Housing(b, q, ip, now), p, time)
  {
  }

  ghost predicate GrantsAt(b: Books, c: Call, p: Peer) {
    c.CallGrant? && c.p == p && CanHold(b.holders, p) && c.calls.addPeer && c.calls.setQuota
  }

  lemma {:induction false} SinceGrant(trace: seq<Books>, calls: seq<Call>, m: nat, n: nat, p: Peer)
    requires IsRun(trace, calls) && BooksSound(trace[0]) && ClockRuns(calls) && m < n < |trace|
    requires GrantsAt(trace[m], calls[m], p)
    ensures SinceAtLeast(trace[n], p, calls[m].now)
  {
    var last := n - 1;
    var b, c, t := trace[last], calls[last], trace[n];
    RunKeepsSound(trace, calls, last);
    assert Next(b, c, t);
    if last == m {
      JustGranted(b, c, t);
    } else {
      SinceGrant(trace, calls, m, last, p);
      StepKeepsSince(b, c, t, p, calls[m].now);
    }
  }

  lemma {:induction false} JustGranted(b: Books, c: Call, t: Books)
    requires BooksSound(b) && c.CallGrant? && GrantsAt(b, c, c.p) && Next(b, c, t)
    ensures SinceAtLeast(t, c.p, c.now) && c.p in t.granted && Housed(t, c.p)
  {
    var ip: nat :| Allocatable(b.holders, c.p, ip) && t == AfterGrant(b, c.p, ip, c.bytes, c.calls, c.now);
  }

  /**
   * A round takes a peer out exactly when it holds an address, can be removed, and
   * was neither granted that address nor heard of within the idle limit.
   */
  lemma {:induction false} ReapedExact(b: Books, statsOK: bool, r: Round, t: Books, p: Peer)
    requires BooksSound(b) && Next(b, CallReap(statsOK, r), t) && p in b.granted
    ensures p !in t.granted <==>
            statsOK && !Stray(b, p) && r.removable(p) && r.now - b.since[b.granted[p]] >= r.idle
            && (p in r.handshakes ==> r.now - r.handshakes[p] >= r.idle)
    ensures p in t.granted ==> t.granted[p] == b.granted[p]
  {
  }

  /**
   * Over every sequence of calls, a round of the reaper never takes out a peer
   * that was granted, topped up or heard of within the idle limit.
   */
  lemma {:induction false} RecentIsSpared(trace: seq<Books>, calls: seq<Call>, m: nat, n: nat, p: Peer)
    requires IsRun(trace, calls) && BooksSound(trace[0]) && ClockRuns(calls) && m < n < |calls|
    requires GrantsAt(trace[m], calls[m], p) && calls[n].CallReap? && p in trace[n].granted
    requires var r := calls[n].round;
             r.now - calls[m].now < r.idle || (p in r.handshakes && r.now - r.handshakes[p] < r.idle)
    ensures p in trace[n + 1].granted && trace[n + 1].granted[p] == trace[n].granted[p]
  {
    RunKeepsSound(trace, calls, n);
    SinceGrant(trace, calls, m, n, p);
    ReapedExact(trace[n], calls[n].statsOK, calls[n].round, trace[n + 1], p);
  }
}
