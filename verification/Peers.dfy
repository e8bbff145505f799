/** Tunnel addresses, WireGuard peers and quotas of a node, granted and reaped together. */
module Peers {

  datatype Peer = Peer(pubkey: string)

  const FIRST: nat := 2
  const LAST: nat := 254

  datatype Allocation = Exhausted | At(ip: nat)

  datatype Grant = Granted(ip: nat) | Unavailable | Failed

  /** Which of the calls outside this process succeed during one grant. */
  datatype Calls = Calls(addPeer: bool, setQuota: bool, removePeer: bool, removeQuota: bool)

  /**
   * What a node has on its books: who holds which address since when, the peers
   * its interface knows with the address each was let in with, and the quotas.
   */
  datatype Books = Books(holders: map<nat, Peer>, since: map<nat, int>, granted: map<Peer, nat>, quotas: map<nat, nat>)

  ghost predicate Held(holders: map<nat, Peer>, p: Peer) { exists i :: i in holders && holders[i] == p }

  /** A peer holds at most one address, and only usable ones are handed out. */
  ghost predicate PoolSound(holders: map<nat, Peer>, since: map<nat, int>) {
    && holders.Keys == since.Keys
    && (forall i :: i in holders ==> FIRST <= i <= LAST)
    && (forall i, j :: i in holders && j in holders && i != j ==> holders[i] != holders[j])
  }

  /** The peer holds the address it was let in with, and there is a quota on it. */
  predicate Housed(b: Books, p: Peer)
    requires p in b.granted
  {
    b.granted[p] in b.holders && b.holders[b.granted[p]] == p && b.granted[p] in b.quotas
  }

  /** Let in, but holding no address. */
  ghost predicate Stray(b: Books, p: Peer) { p in b.granted && !Held(b.holders, p) }

  /** Addresses are held by peers that were let in, and a peer let in that holds one is housed. */
  ghost predicate BooksSound(b: Books) {
    && PoolSound(b.holders, b.since)
    && (forall p :: p in b.granted ==> FIRST <= b.granted[p] <= LAST)
    && (forall i :: i in b.holders ==> b.holders[i] in b.granted)
    && (forall p :: p in b.granted ==> Housed(b, p) || Stray(b, p))
  }

  const NOBODY := Books(map[], map[], map[], map[])

  ghost predicate CanHold(holders: map<nat, Peer>, p: Peer) {
    Held(holders, p) || exists i: nat :: FIRST <= i <= LAST && i !in holders
  }

  /** The address a peer is given: its own, or else the lowest free one. */
  ghost predicate Allocatable(holders: map<nat, Peer>, p: Peer, ip: nat) {
    && FIRST <= ip <= LAST
    && if Held(holders, p) then ip in holders && holders[ip] == p
       else ip !in holders && forall k: nat :: FIRST <= k < ip ==> k in holders
  }

  function HeldBy(holders: map<nat, Peer>, p: Peer): set<nat> { set i | i in holders && holders[i] == p }

  /** The books once what a peer held is free; a quota that cannot be removed stays. */
  function Freed(b: Books, p: Peer, removeQuota: bool): Books {
    var ips := HeldBy(b.holders, p);
    b.(holders := b.holders - ips, since := b.since - ips, quotas := if removeQuota then b.quotas - ips else b.quotas)
  }

  /** The books with the peer let in under an address of its own, before its quota is set. */
  function Housing(b: Books, p: Peer, ip: nat, now: int): Books {
    b.(holders := b.holders[ip := p], since := b.since[ip := now], granted := b.granted[p := ip])
  }

  /** The books after an address was allocated to a peer and the calls of the grant were made. */
  ghost function AfterGrant(b: Books, p: Peer, ip: nat, bytes: nat, calls: Calls, now: int): Books {
    if !calls.addPeer then if Held(b.holders, p) then b.(since := b.since[ip := now]) else b
    else if calls.setQuota then Housing(b, p, ip, now).(quotas := b.quotas[ip := bytes])
    else
      var left := if calls.removePeer then b.granted - {p} else b.granted[p := ip];
      Freed(Housing(b, p, ip, now).(granted := left), p, calls.removeQuota)
  }

  /** An address newly allocated and released again leaves no trace; an old one only its time. */
  lemma {:induction false} GivenBack(b: Books, p: Peer, ip: nat, now: int)
    requires BooksSound(b) && Allocatable(b.holders, p, ip)
    ensures !Held(b.holders, p) ==> b.holders[ip := p] - {ip} == b.holders && b.since[ip := now] - {ip} == b.since
    ensures Held(b.holders, p) ==> b.holders[ip := p] == b.holders
  {
  }

  function AfterRemove(b: Books, p: Peer, removePeer: bool, removeQuota: bool): Books {
    if removePeer && p in b.granted then Freed(b.(granted := b.granted - {p}), p, removeQuota) else b
  }

  /** When a peer was last heard of or paid for. */
  function LastActive(since: int, handshakes: map<Peer, int>, p: Peer): int {
    if p in handshakes && handshakes[p] > since then handshakes[p] else since
  }

  predicate Idle(p: Peer, since: int, handshakes: map<Peer, int>, now: int, idle: nat) {
    now - LastActive(since, handshakes, p) >= idle
  }

  /** One look at the clock, the tunnel's statistics and what it will let go of. */
  datatype Round = Round(idle: nat, handshakes: map<Peer, int>, removable: Peer -> bool, removeQuota: bool, now: int)

  /** The entries whose peer is idle, can be removed and is in the tunnel. */
  ghost function Doomed(b: Books, r: Round): set<nat>
    requires b.holders.Keys == b.since.Keys
  {
    set i | i in b.holders && Idle(b.holders[i], b.since[i], r.handshakes, r.now, r.idle) && r.removable(b.holders[i])
            && b.holders[i] in b.granted
  }

  ghost function HoldersOf(holders: map<nat, Peer>, entries: set<nat>): set<Peer> {
    set i | i in entries && i in holders :: holders[i]
  }

  /** The books without the given entries and the peers holding them. */
  ghost function Reaped(b: Books, gone: set<nat>, removeQuota: bool): Books {
    Books(b.holders - gone, b.since - gone, b.granted - HoldersOf(b.holders, gone),
          if removeQuota then b.quotas - gone else b.quotas)
  }

  lemma {:induction false} OneHolder(holders: map<nat, Peer>, since: map<nat, int>, p: Peer, ip: nat)
    requires PoolSound(holders, since) && ip in holders && holders[ip] == p
    ensures HeldBy(holders, p) == {ip}
  {
  }

  lemma {:induction false} NoHolder(holders: map<nat, Peer>, p: Peer)
    requires !Held(holders, p)
    ensures HeldBy(holders, p) == {}
  {
  }

  // ---- What a grant, a removal and the reaper keep ----

  lemma {:induction false} FreedKeepsSound(b: Books, p: Peer, removeQuota: bool)
    requires PoolSound(b.holders, b.since)
    requires forall i :: i in b.holders && b.holders[i] != p ==> b.holders[i] in b.granted
    requires forall q :: q in b.granted && q != p ==> Housed(b, q) || Stray(b, q)
    requires forall q :: q in b.granted ==> FIRST <= b.granted[q] <= LAST
    ensures BooksSound(Freed(b, p, removeQuota)) && !Held(Freed(b, p, removeQuota).holders, p)
  {
    var t := Freed(b, p, removeQuota);
    forall q | q in t.granted ensures Housed(t, q) || Stray(t, q) {
      if q != p && Housed(b, q) { assert b.granted[q] in t.holders; }
    }
  }

  lemma {:induction false} HousedKeepsPool(holders: map<nat, Peer>, since: map<nat, int>, p: Peer, ip: nat, now: int)
    requires PoolSound(holders, since) && Allocatable(holders, p, ip)
    ensures PoolSound(holders[ip := p], since[ip := now])
    ensures forall q :: q != p ==> (Held(holders[ip := p], q) <==> Held(holders, q))
  {
    var more := holders[ip := p];
    forall i, j | i in more && j in more && i != j ensures more[i] != more[j] {
      if i == ip { assert j in holders && (holders[j] == p ==> Held(holders, p)); }
      if j == ip { assert i in holders && (holders[i] == p ==> Held(holders, p)); }
    }
    forall q | q != p ensures Held(more, q) <==> Held(holders, q) {
      if i :| i in holders && holders[i] == q { assert i in more && more[i] == q; }
    }
  }

  lemma {:induction false} HousedKeepsSound(b: Books, p: Peer, ip: nat, bytes: nat, now: int)
    requires BooksSound(b) && Allocatable(b.holders, p, ip)
    ensures BooksSound(Housing(b, p, ip, now).(quotas := b.quotas[ip := bytes]))
  {
    HousedKeepsPool(b.holders, b.since, p, ip, now);
    var t := Housing(b, p, ip, now).(quotas := b.quotas[ip := bytes]);
    assert t.holders == b.holders[ip := p] && t.granted == b.granted[p := ip];
    forall q | q in t.granted && q != p ensures Housed(t, q) || Stray(t, q) {
      assert q in b.granted && t.granted[q] == b.granted[q];
      assert Held(t.holders, q) <==> Held(b.holders, q);
    }
  }

  lemma {:induction false} TakenBackKeepsSound(b: Books, p: Peer, ip: nat, left: map<Peer, nat>, removeQuota: bool,
                                               now: int)
    requires BooksSound(b) && Allocatable(b.holders, p, ip)
    requires left == b.granted - {p} || left == b.granted[p := ip]
    ensures BooksSound(Freed(Housing(b, p, ip, now).(granted := left), p, removeQuota))
  {
    var housing := Housing(b, p, ip, now).(granted := left);
    HousedKeepsPool(b.holders, b.since, p, ip, now);
    assert housing.holders == b.holders[ip := p] && housing.since == b.since[ip := now] && housing.quotas == b.quotas;
    forall q | q in housing.granted && q != p ensures Housed(housing, q) || Stray(housing, q) {
      assert q in b.granted && housing.granted[q] == b.granted[q];
      assert Held(housing.holders, q) <==> Held(b.holders, q);
    }
    FreedKeepsSound(housing, p, removeQuota);
  }

  lemma {:induction false} GrantKeepsSound(b: Books, p: Peer, ip: nat, bytes: nat, calls: Calls, now: int)
    requires BooksSound(b) && Allocatable(b.holders, p, ip)
    ensures BooksSound(AfterGrant(b, p, ip, bytes, calls, now))
  {
    if !calls.addPeer {
      if Held(b.holders, p) { SinceIsFree(b, b.(since := b.since[ip := now])); }
    } else if calls.setQuota {
      HousedKeepsSound(b, p, ip, bytes, now);
    } else {
      var left := if calls.removePeer then b.granted - {p} else b.granted[p := ip];
      TakenBackKeepsSound(b, p, ip, left, calls.removeQuota, now);
    }
  }

  /** When an address was given out has no bearing on who holds it. */
  lemma {:induction false} SinceIsFree(b: Books, t: Books)
    requires BooksSound(b) && t == b.(since := t.since) && t.since.Keys == b.since.Keys
    ensures BooksSound(t)
  {
    assert forall p :: p in b.granted ==> (Housed(t, p) <==> Housed(b, p)) && (Stray(t, p) <==> Stray(b, p));
  }

  lemma {:induction false} RemoveKeepsSound(b: Books, p: Peer, removePeer: bool, removeQuota: bool)
    requires BooksSound(b)
    ensures BooksSound(AfterRemove(b, p, removePeer, removeQuota))
  {
    if removePeer && p in b.granted {
      var less := b.(granted := b.granted - {p});
      assert forall q :: q in less.granted ==> (Housed(b, q) ==> Housed(less, q)) && (Stray(b, q) ==> Stray(less, q));
      FreedKeepsSound(less, p, removeQuota);
    }
  }

  lemma {:induction false} ReapKeepsSound(b: Books, gone: set<nat>, removeQuota: bool)
    requires BooksSound(b)
    ensures BooksSound(Reaped(b, gone, removeQuota))
  {
    var t := Reaped(b, gone, removeQuota);
    forall p | p in t.granted ensures Housed(t, p) || Stray(t, p) {
      if Stray(b, p) {
        assert !Held(t.holders, p);
      } else {
        assert b.granted[p] !in gone;
      }
    }
  }

  /** Two peers that hold an address hold different ones; only a stray can share its with another peer. */
  lemma {:induction false} AddressesAreOwn(b: Books, p: Peer, q: Peer)
    requires BooksSound(b) && p in b.granted && q in b.granted && p != q
    ensures b.granted[p] == b.granted[q] ==> Stray(b, p) || Stray(b, q)
  {
  }

  /** A peer the tunnel did not let in leaves nothing new on the books but the time of an address it holds. */
  lemma {:induction false} NotLetInExact(b: Books, p: Peer, ip: nat, bytes: nat, calls: Calls, now: int)
    requires !calls.addPeer
    ensures var t := AfterGrant(b, p, ip, bytes, calls, now);
            t.holders == b.holders && t.granted == b.granted && t.quotas == b.quotas
            && forall i :: i in b.since && i != ip ==> i in t.since && t.since[i] == b.since[i]
  {
  }

  /**
   * A peer whose quota failed is left without an address, and in the tunnel exactly
   * if it could not be taken out again; no other peer is touched.
   */
  lemma {:induction false} QuotaFailedExact(b: Books, p: Peer, ip: nat, bytes: nat, calls: Calls, now: int)
    requires BooksSound(b) && Allocatable(b.holders, p, ip) && calls.addPeer && !calls.setQuota
    ensures var t := AfterGrant(b, p, ip, bytes, calls, now);
            && !Held(t.holders, p) && (p in t.granted <==> !calls.removePeer) && t.granted - {p} == b.granted - {p}
            && t.holders == b.holders - {ip} && t.since == b.since - {ip}
            && t.quotas == if calls.removeQuota then b.quotas - {ip} else b.quotas
    ensures ip in b.holders ==> b.holders[ip] == p
  {
    var left := if calls.removePeer then b.granted - {p} else b.granted[p := ip];
    var housing := Housing(b, p, ip, now).(granted := left);
    TakenBackIs(b, p, ip, left, calls.removeQuota, now);
    var t := Freed(housing, p, calls.removeQuota);
    assert AfterGrant(b, p, ip, bytes, calls, now) == t;
    NotBack(b.holders, ip, p);
    NotBack(b.since, ip, now);
    assert t.holders == b.holders - {ip};
    assert forall i :: i in t.holders ==> i in b.holders && i != ip && t.holders[i] == b.holders[i];
  }

  lemma {:induction false} NotBack<V>(m: map<nat, V>, k: nat, v: V)
    ensures m[k := v] - {k} == m - {k}
  {
  }

  /** A grant taken back frees exactly the address that was allocated for it. */
  lemma {:induction false} TakenBackIs(b: Books, p: Peer, ip: nat, left: map<Peer, nat>, removeQuota: bool, now: int)
    requires BooksSound(b) && Allocatable(b.holders, p, ip)
    ensures Freed(Housing(b, p, ip, now).(granted := left), p, removeQuota)
            == Books(b.holders[ip := p] - {ip}, b.since[ip := now] - {ip}, left,
                     if removeQuota then b.quotas - {ip} else b.quotas)
  {
    HousedKeepsPool(b.holders, b.since, p, ip, now);
    OneHolder(b.holders[ip := p], b.since[ip := now], p, ip);
  }

  /** A removal that works takes the peer, its address and its quota off the books, and nothing of anyone else's. */
  lemma {:induction false} RemovedExact(b: Books, p: Peer, removeQuota: bool, i: nat)
    requires BooksSound(b) && p in b.granted
    ensures var t := AfterRemove(b, p, true, removeQuota);
            && t.granted == b.granted - {p} && !Held(t.holders, p)
            && (i in b.holders && b.holders[i] != p ==>
                  i in t.holders && t.holders[i] == b.holders[i] && t.since[i] == b.since[i])
            && (i in b.quotas && !(removeQuota && i in b.holders && b.holders[i] == p) ==>
                  i in t.quotas && t.quotas[i] == b.quotas[i])
            && (i in t.quotas ==> i in b.quotas && !(removeQuota && i in b.holders && b.holders[i] == p))
  {
    RemoveKeepsSound(b, p, true, removeQuota);
  }

  // ---- The pool ----

  function Slots(lo: nat, hi: nat): (s: set<nat>)
    requires lo <= hi
    ensures |s| == hi - lo && forall i: nat :: i in s <==> lo <= i < hi
  {
    if lo == hi then {} else Slots(lo, hi - 1) + {(hi - 1) as nat}
  }

  lemma {:induction false} FullRange(holders: map<nat, Peer>, lo: nat, hi: nat)
    requires lo <= hi && forall i: nat :: i in holders <==> lo <= i < hi
    ensures |holders| == hi - lo
  {
    var slots := Slots(lo, hi);
    assert holders.Keys == slots;
  }

  /** When every usable address is held, 253 peers hold one. */
  lemma {:induction false} FullPool(holders: map<nat, Peer>)
    requires forall i :: i in holders ==> FIRST <= i <= LAST
    requires forall i: nat :: FIRST <= i <= LAST ==> i in holders
    ensures |holders| == 253
  {
    FullRange(holders, FIRST, LAST + 1);
  }

  class TunnelIPPool {
    var holders: map<nat, Peer>
    var since: map<nat, int>

    constructor ()
      ensures Sound() && holders == map[] && since == map[]
    {
      holders, since := map[], map[];
    }

    ghost predicate Sound()
      reads this
    {
      PoolSound(holders, since)
    }

    method AllocationForPubkey(p: Peer) returns (a: Allocation)
      ensures a.At? <==> Held(holders, p)
      ensures a.At? ==> a.ip in holders && holders[a.ip] == p
    {
      var keys := holders.Keys;
      while keys != {}
        invariant keys <= holders.Keys && forall i :: i in holders && holders[i] == p ==> i in keys
        decreases |keys|
      {
        var i :| i in keys;
        if holders[i] == p { return At(i); }
        keys := keys - {i};
      }
      return Exhausted;
    }

    /**
     * A peer keeps the address it holds; a new one gets the lowest free one; none
     * is left only when 253 others hold them all.
     */
    method Allocate(p: Peer, now: int) returns (a: Allocation)
      requires Sound()
      modifies this
      ensures Sound()
      ensures a.Exhausted? <==> !CanHold(old(holders), p)
      ensures a.Exhausted? ==> holders == old(holders) && since == old(since) && |holders| == 253
      ensures a.At? ==> Allocatable(old(holders), p, a.ip)
      ensures a.At? ==> holders == old(holders)[a.ip := p] && since == old(since)[a.ip := now]
    {
      a := AllocationForPubkey(p);
      if a.At? {
        since := since[a.ip := now];
        assert holders == holders[a.ip := p];
        return;
      }
      for i := FIRST to LAST + 1
        invariant forall k: nat :: FIRST <= k < i ==> k in holders
        invariant holders == old(holders) && since == old(since)
      {
        if i !in holders {
          holders, since := holders[i := p], since[i := now];
          return At(i);
        }
      }
      FullPool(holders);
      return Exhausted;
    }

    method Release(ip: nat)
      requires Sound()
      modifies this
      ensures Sound() && holders == old(holders) - {ip} && since == old(since) - {ip}
    {
      holders, since := holders - {ip}, since - {ip};
    }

    method ReleasePubkey(p: Peer) returns (a: Allocation)
      requires Sound()
      modifies this
      ensures Sound() && (a.At? <==> Held(old(holders), p))
      ensures a.At? ==> a.ip in old(holders) && old(holders)[a.ip] == p
                        && holders == old(holders) - {a.ip} && since == old(since) - {a.ip}
      ensures a.Exhausted? ==> holders == old(holders) && since == old(since)
    {
      a := AllocationForPubkey(p);
      if a.At? { Release(a.ip); }
    }
  }

  // ---- The server ----

  class Server {
    const pool: TunnelIPPool
    /** The peers the tunnel interface knows, each under the address it was let in with. */
    var granted: map<Peer, nat>
    var quotas: map<nat, nat>

    constructor ()
      ensures fresh(pool) && Now() == NOBODY && Sound()
    {
      granted, quotas := map[], map[];
      pool := new TunnelIPPool();
    }

    function Now(): Books
      reads this, pool
    {
      Books(pool.holders, pool.since, granted, quotas)
    }

    ghost predicate Sound()
      reads this, pool
    {
      BooksSound(Now())
    }

    /** Letting a peer in again replaces what was known about it. */
    method AddPeer(p: Peer, ip: nat, ok: bool)
      modifies this`granted
      ensures granted == if ok then old(granted)[p := ip] else old(granted)
    {
      if ok { granted := granted[p := ip]; }
    }

    method RemovePeer(p: Peer, works: bool) returns (ok: bool)
      modifies this`granted
      ensures ok <==> works && p in old(granted)
      ensures granted == if ok then old(granted) - {p} else old(granted)
    {
      ok := works && p in granted;
      if ok { granted := granted - {p}; }
    }

    method SetQuota(ip: nat, bytes: nat, ok: bool)
      modifies this`quotas
      ensures quotas == if ok then old(quotas)[ip := bytes] else old(quotas)
    {
      if ok { quotas := quotas[ip := bytes]; }
    }

    /** Frees what a peer held; a quota that cannot be removed stays on a free address. */
    method ReleasePeerResources(p: Peer, removeQuota: bool)
      requires pool.Sound()
      modifies pool, this`quotas
      ensures Now() == Freed(old(Now()), p, removeQuota)
    {
      var a := pool.ReleasePubkey(p);
      if a.Exhausted? {
        NoHolder(pool.holders, p);
        return;
      }
      OneHolder(old(pool.holders), old(pool.since), p, a.ip);
      if removeQuota { quotas := quotas - {a.ip}; }
    }

    /**
     * Lets a paid peer in: its address, then the tunnel, then its quota, undoing
     * what was done when a later step fails. It leaves a stray behind exactly when
     * the quota failed and the peer could not be taken out again, and it never
     * touches what another peer has.
     */
    method GrantPeer(p: Peer, bytes: nat, calls: Calls, now: int) returns (g: Grant, ghost ip: nat)
      requires Sound()
      modifies this, pool
      ensures Sound()
      ensures g.Unavailable? <==> !CanHold(old(pool.holders), p)
      ensures g.Unavailable? ==> Now() == old(Now())
      ensures !g.Unavailable? ==> Allocatable(old(pool.holders), p, ip)
                                  && Now() == AfterGrant(old(Now()), p, ip, bytes, calls, now)
      ensures g.Granted? <==> CanHold(old(pool.holders), p) && calls.addPeer && calls.setQuota
      ensures g.Granted? ==> g.ip == ip && granted == old(granted)[p := ip] && quotas == old(quotas)[ip := bytes]
                             && pool.holders == old(pool.holders)[ip := p] && pool.since == old(pool.since)[ip := now]
      ensures g.Failed? && calls.addPeer ==> (Stray(Now(), p) <==> !calls.removePeer)
    {
      ghost var before := Now();
      var had := pool.AllocationForPubkey(p);
      var a := pool.Allocate(p, now);
      if a.Exhausted? { return Unavailable, FIRST; }
      GrantKeepsSound(before, p, a.ip, bytes, calls, now);
      g := Admit(p, a.ip, bytes, calls, now, had.At?, before);
      return g, a.ip;
    }

    /** Everything after the allocation of an address. */
    method Admit(p: Peer, ip: nat, bytes: nat, calls: Calls, now: int, had: bool, ghost before: Books)
      returns (g: Grant)
      requires BooksSound(before) && Allocatable(before.holders, p, ip) && (had <==> Held(before.holders, p))
      requires pool.Sound() && Now() == Housing(before, p, ip, now).(granted := before.granted)
      modifies this, pool
      ensures Now() == AfterGrant(before, p, ip, bytes, calls, now)
      ensures g == if calls.addPeer && calls.setQuota then Granted(ip) else Failed
      ensures g.Failed? && calls.addPeer ==> (Stray(Now(), p) <==> !calls.removePeer)
    {
      AddPeer(p, ip, calls.addPeer);
      if !calls.addPeer {
        GivenBack(before, p, ip, now);
        if !had { pool.Release(ip); }
        return Failed;
      }
      SetQuota(ip, bytes, calls.setQuota);
      if !calls.setQuota {
        TakeBack(p, calls, before, ip, now);
        return Failed;
      }
      return Granted(ip);
    }

    /** Fails closed: a peer without a quota is taken out again and everything it held is freed. */
    method TakeBack(p: Peer, calls: Calls, ghost before: Books, ghost ip: nat, ghost now: int)
      requires pool.Sound() && Now() == Housing(before, p, ip, now)
      modifies this, pool
      ensures var left := if calls.removePeer then before.granted - {p} else before.granted[p := ip];
              Now() == Freed(Housing(before, p, ip, now).(granted := left), p, calls.removeQuota)
      ensures Stray(Now(), p) <==> !calls.removePeer
    {
      var removed := RemovePeer(p, calls.removePeer);
      assert before.granted[p := ip] - {p} == before.granted - {p};
      ReleasePeerResources(p, calls.removeQuota);
    }

    /** Removes a peer with everything it held, or changes nothing. */
    method HandleRemovePeer(p: Peer, removePeer: bool, removeQuota: bool) returns (ok: bool)
      requires Sound()
      modifies this, pool
      ensures Sound() && Now() == AfterRemove(old(Now()), p, removePeer, removeQuota)
      ensures ok <==> p in old(granted) && removePeer
      ensures ok ==> p !in granted && !Held(pool.holders, p)
    {
      RemoveKeepsSound(Now(), p, removePeer, removeQuota);
      ok := RemovePeer(p, removePeer);
      if !ok { return; }
      ReleasePeerResources(p, removeQuota);
    }

    /**
     * Takes out exactly the peers that have been quiet for long enough and can be
     * removed; every other entry and every other peer stays as it was.
     */
    method ReapIdle(statsOK: bool, r: Round)
      requires Sound()
      modifies this, pool
      ensures Sound()
      ensures Now() == if statsOK then Reaped(old(Now()), Doomed(old(Now()), r), r.removeQuota) else old(Now())
    {
      if !statsOK { return; }
      ReapEntries(r);
    }

    method ReapEntries(r: Round)
      requires Sound()
      modifies this, pool
      ensures Sound() && Now() == Reaped(old(Now()), Doomed(old(Now()), r), r.removeQuota)
    {
      ghost var before := Now();
      var entries := pool.holders.Keys;
      ghost var gone := {};
      ReapedNone(before, r.removeQuota);
      while entries != {}
        invariant Sweeping(before, r, entries, gone)
        invariant Sound() && Now() == Reaped(before, gone, r.removeQuota)
        decreases |entries|
      {
        var i :| i in entries;
        ghost var next := if i in Doomed(before, r) then gone + {i} else gone;
        SweepOn(before, r, entries, gone, i);
        ReapNext(i, r, before, gone);
        gone := next;
        entries := entries - {i};
      }
      SweepEnds(before, r, gone);
    }

    method ReapNext(i: nat, r: Round, ghost before: Books, ghost gone: set<nat>)
      requires BooksSound(before) && i in before.holders && i !in gone && gone <= before.holders.Keys
      requires Sound() && Now() == Reaped(before, gone, r.removeQuota)
      modifies this, pool
      ensures Sound()
      ensures Now() == Reaped(before, if i in Doomed(before, r) then gone + {i} else gone, r.removeQuota)
    {
      StillDoomed(before, r, gone, i);
      ReapedOneMore(before, gone, i, r.removeQuota);
      ReapOne(i, r);
    }

    /** One entry of the reaper's round. */
    method ReapOne(i: nat, r: Round)
      requires Sound() && i in pool.holders
      modifies this, pool
      ensures Sound()
      ensures Now() == if i in Doomed(old(Now()), r) then Reaped(old(Now()), {i}, r.removeQuota) else old(Now())
    {
      var p := pool.holders[i];
      OneHolder(pool.holders, pool.since, p, i);
      var lastActive := pool.since[i];
      if p in r.handshakes && r.handshakes[p] > lastActive { lastActive := r.handshakes[p]; }
      if r.now - lastActive < r.idle { return; }
      assert HoldersOf(pool.holders, {i}) == {p};
      var removed := HandleRemovePeer(p, r.removable(p), r.removeQuota);
    }
  }

  lemma {:induction false} ReapedNone(b: Books, removeQuota: bool)
    ensures Reaped(b, {}, removeQuota) == b
  {
    assert HoldersOf(b.holders, {}) == {};
    assert b.granted - {} == b.granted && b.holders - {} == b.holders && b.since - {} == b.since
           && b.quotas - {} == b.quotas;
  }

  /** Some entries are still to be looked at; of the others the doomed ones are gone. */
  ghost predicate Sweeping(b: Books, r: Round, entries: set<nat>, gone: set<nat>) {
    BooksSound(b) && entries <= b.holders.Keys && gone == Doomed(b, r) - entries
  }

  lemma {:induction false} SweepOn(b: Books, r: Round, entries: set<nat>, gone: set<nat>, i: nat)
    requires Sweeping(b, r, entries, gone) && i in entries
    ensures i in b.holders && i !in gone && gone <= b.holders.Keys
    ensures Sweeping(b, r, entries - {i}, if i in Doomed(b, r) then gone + {i} else gone)
  {
  }

  lemma {:induction false} SweepEnds(b: Books, r: Round, gone: set<nat>)
    requires Sweeping(b, r, {}, gone)
    ensures gone == Doomed(b, r)
  {
    assert Doomed(b, r) - {} == Doomed(b, r);
  }

  /** Whether an entry is doomed does not depend on the others that are gone. */
  lemma {:induction false} StillDoomed(b: Books, r: Round, gone: set<nat>, i: nat)
    requires BooksSound(b) && i in b.holders && i !in gone
    ensures i in Reaped(b, gone, r.removeQuota).holders
    ensures i in Doomed(Reaped(b, gone, r.removeQuota), r) <==> i in Doomed(b, r)
  {
  }

  lemma {:induction false} ReapedOneMore(b: Books, gone: set<nat>, i: nat, removeQuota: bool)
    requires i in b.holders && i !in gone
    ensures Reaped(Reaped(b, gone, removeQuota), {i}, removeQuota) == Reaped(b, gone + {i}, removeQuota)
  {
    var one, more := Reaped(Reaped(b, gone, removeQuota), {i}, removeQuota), Reaped(b, gone + {i}, removeQuota);
    assert HoldersOf(b.holders - gone, {i}) == {b.holders[i]};
    assert HoldersOf(b.holders, gone + {i}) == HoldersOf(b.holders, gone) + {b.holders[i]};
    assert one.holders == more.holders && one.since == more.since;
    assert one.granted == more.granted && one.quotas == more.quotas;
  }
}
