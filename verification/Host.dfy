/** The parts of the machine a tunnel changes, behind operations that may fail. */
module Hosts {
  import opened Routing

  /** A logical interface name; others are the machine's own. */
  datatype Iface = Outer | Inner | Other(name: string)

  /** Outbound IPv6: untouched, half blocked by an operation that failed midway, or blocked. */
  datatype Ipv6 = Open | Partly | Blocked

  /** One attempt to undo a change. */
  datatype Undo = UndoDNS | UndoIPv6 | UndoRoute(route: Route) | UndoInterface(iface: Iface)

  /** The changes made for one session, as the tunnel remembers them. */
  datatype Ledger = Ledger(routes: seq<Route>, interfaces: seq<Iface>, dns: bool, ipv6: bool)

  const EMPTY := Ledger([], [], false, false)

  /** What is there now is what was there before and the added things. */
  ghost predicate Adds<T>(own: multiset<T>, added: seq<T>, now: multiset<T>) { now == own + multiset(added) }

  lemma {:induction false} OneMore<T>(own: multiset<T>, added: seq<T>, now: multiset<T>, x: T)
    requires Adds(own, added, now)
    ensures Adds(own, added + [x], now + multiset{x})
  {
  }

  /** Midway through undoing xs from its end: the first i changes and those that could not be undone are still there. */
  ghost predicate Undoing<T>(own: multiset<T>, xs: seq<T>, i: nat, stuck: seq<T>, now: multiset<T>)
    requires i <= |xs|
  {
    Adds(own, xs[..i] + stuck, now) && multiset(xs[..i] + stuck) <= multiset(xs)
  }

  lemma {:induction false} UndoStarts<T>(own: multiset<T>, xs: seq<T>, now: multiset<T>)
    requires Adds(own, xs, now)
    ensures Undoing(own, xs, |xs|, [], now)
  {
    assert xs[..|xs|] + [] == xs;
  }

  lemma {:induction false} UndoGoesOn<T>(own: multiset<T>, xs: seq<T>, i: nat, stuck: seq<T>, before: multiset<T>,
                                         gone: bool, now: multiset<T>)
    requires i < |xs| && Undoing(own, xs, i + 1, stuck, before)
    requires now == if gone then before - multiset{xs[i]} else before
    ensures Undoing(own, xs, i, if gone then stuck else stuck + [xs[i]], now)
  {
    assert xs[..i + 1] == xs[..i] + [xs[i]];
  }

  lemma {:induction false} UndoEnds<T>(own: multiset<T>, xs: seq<T>, stuck: seq<T>, now: multiset<T>)
    requires Undoing(own, xs, 0, stuck, now)
    ensures Adds(own, stuck, now) && multiset(stuck) <= multiset(xs)
  {
  }

  class Host {
    var routes: multiset<Route>
    var interfaces: multiset<Iface>
    var resolverSet: bool
    var ipv6: Ipv6
    /** How often IPv6 was blocked in full. */
    var blocks: nat
    /** Every undo attempted so far, successful or not. */
    var undos: seq<Undo>
    /** What was there before any tunnel. */
    const ownRoutes: multiset<Route>
    const ownInterfaces: multiset<Iface>
    /** How many operations have failed so far. */
    ghost var failures: nat
    /** The name the system gives an interface. */
    const osName: Iface -> string

    constructor (ownRoutes: multiset<Route>, ownInterfaces: multiset<Iface>, osName: Iface -> string)
      ensures Changed(EMPTY)
    {
      this.ownRoutes, this.ownInterfaces, this.osName := ownRoutes, ownInterfaces, osName;
      routes, interfaces, resolverSet, ipv6, blocks, undos, failures := ownRoutes, ownInterfaces, false, Open, 0, [], 0;
    }

    /** The machine differs from its original state by exactly the ledger; a recorded IPv6 change may be partial. */
    ghost predicate Changed(l: Ledger)
      reads this
    {
      && Adds(ownRoutes, l.routes, routes)
      && Adds(ownInterfaces, l.interfaces, interfaces)
      && resolverSet == l.dns
      && (ipv6 != Open ==> l.ipv6)
    }

    /** Nothing may be routed into a tunnel before IPv6 is blocked. */
    method AddRoute(r: Route) returns (ok: bool)
      requires ipv6 == Blocked
      modifies this`routes, this`failures
      ensures routes == if ok then old(routes) + multiset{r} else old(routes)
      ensures failures == old(failures) + if ok then 0 else 1
    {
      var failed := *;
      if failed {
        failures := failures + 1;
        return false;
      }
      routes := routes + multiset{r};
      return true;
    }

    method DeleteRoute(r: Route) returns (ok: bool)
      modifies this`routes, this`undos, this`failures
      ensures routes == if ok then old(routes) - multiset{r} else old(routes)
      ensures undos == old(undos) + [UndoRoute(r)]
      ensures failures == old(failures) + if ok then 0 else 1
    {
      undos := undos + [UndoRoute(r)];
      var failed := *;
      if failed {
        failures := failures + 1;
        return false;
      }
      routes := routes - multiset{r};
      return true;
    }

    method CreateInterface(iface: Iface) returns (ok: bool)
      requires ipv6 == Blocked
      modifies this`interfaces, this`failures
      ensures interfaces == if ok then old(interfaces) + multiset{iface} else old(interfaces)
      ensures failures == old(failures) + if ok then 0 else 1
    {
      var failed := *;
      if failed {
        failures := failures + 1;
        return false;
      }
      interfaces := interfaces + multiset{iface};
      return true;
    }

    method DeleteInterface(iface: Iface) returns (ok: bool)
      modifies this`interfaces, this`undos, this`failures
      ensures interfaces == if ok then old(interfaces) - multiset{iface} else old(interfaces)
      ensures undos == old(undos) + [UndoInterface(iface)]
      ensures failures == old(failures) + if ok then 0 else 1
    {
      undos := undos + [UndoInterface(iface)];
      var failed := *;
      if failed {
        failures := failures + 1;
        return false;
      }
      interfaces := interfaces - multiset{iface};
      return true;
    }

    /** A peer lives and dies with its interface. */
    method AddPeer(iface: Iface) returns (ok: bool)
      modifies this`failures
      ensures failures == old(failures) + if ok then 0 else 1
    {
      var failed := *;
      if failed { failures := failures + 1; }
      return !failed;
    }

    method SetDNS() returns (ok: bool)
      modifies this`resolverSet, this`failures
      ensures resolverSet == (ok || old(resolverSet))
      ensures failures == old(failures) + if ok then 0 else 1
    {
      var failed := *;
      if failed {
        failures := failures + 1;
        return false;
      }
      resolverSet := true;
      return true;
    }

    method RestoreDNS() returns (ok: bool)
      modifies this`resolverSet, this`undos, this`failures
      ensures resolverSet == (!ok && old(resolverSet))
      ensures undos == old(undos) + [UndoDNS]
      ensures failures == old(failures) + if ok then 0 else 1
    {
      undos := undos + [UndoDNS];
      var failed := *;
      if failed {
        failures := failures + 1;
        return false;
      }
      resolverSet := false;
      return true;
    }

    /** A failed block may leave any part of it behind. */
    method DisableIPv6() returns (ok: bool)
      modifies this`ipv6, this`blocks, this`failures
      ensures ok ==> ipv6 == Blocked
      ensures blocks == if ok then old(blocks) + 1 else old(blocks)
      ensures failures == old(failures) + if ok then 0 else 1
    {
      var failed := *;
      if failed {
        ipv6, failures := *, failures + 1;
        return false;
      }
      ipv6, blocks := Blocked, blocks + 1;
      return true;
    }

    method RestoreIPv6() returns (ok: bool)
      modifies this`ipv6, this`undos, this`failures
      ensures ipv6 == if ok then Open else old(ipv6)
      ensures undos == old(undos) + [UndoIPv6]
      ensures failures == old(failures) + if ok then 0 else 1
    {
      undos := undos + [UndoIPv6];
      var failed := *;
      if failed {
        failures := failures + 1;
        return false;
      }
      ipv6 := Open;
      return true;
    }
  }
}
