/** The nested two-hop tunnel: bring-up, roll-back, teardown and retry. */
module Tunnels {
  import opened Endpoints
  import opened Hosts
  import opened Routing

  /** A hop's tunnel address, as parsed. */
  datatype Cidr = Missing | NotCidr | V6 | V4(a: nat, b: nat, c: nat, d: nat, ones: nat)

  datatype Hop = Hop(endpoint: string, key: string, tunnelIP: Cidr)
  datatype Config = Config(entry: Hop, exit: Hop, pinned: seq<string>)

  datatype Uplink = NoUplink | Uplink(gateway: string, iface: string)

  datatype KeyPair = NoKeys | KeyPair(id: nat)

  predicate Private(a: nat, b: nat) { a == 10 || (a == 172 && 16 <= b < 32) || (a == 192 && b == 168) }

  predicate ValidTunnelIP(t: Cidr) { t.V4? && t.ones >= 8 && Private(t.a, t.b) }

  /** Exactly the private blocks 10.0.0.0/8, 172.16.0.0/12 and 192.168.0.0/16. */
  lemma {:induction false} PrivateExact(a: nat, b: nat, c: nat, d: nat)
    requires a < 256 && b < 256 && c < 256 && d < 256
    ensures var ip := a * 0x100_0000 + b * 0x1_0000 + c * 0x100 + d;
            Private(a, b) <==> Covers(Prefix(10 * 0x100_0000, 8), ip)
                               || Covers(Prefix(172 * 0x100_0000 + 16 * 0x1_0000, 12), ip)
                               || Covers(Prefix(192 * 0x100_0000 + 168 * 0x1_0000, 16), ip)
  {
    assert Block(24) == 0x100;
    assert Block(16) == 0x1_0000;
    assert Block(12) == 0x10_0000;
    assert Block(8) == 0x100_0000;
  }

  predicate ValidHop(h: Hop) { h.endpoint != "" && h.key != "" && ValidTunnelIP(h.tunnelIP) }

  predicate ValidOuter(cfg: Config) {
    && ValidHop(cfg.entry) && cfg.exit.endpoint != ""
    && !(cfg.exit.key != "" && cfg.entry.key == cfg.exit.key)
    && cfg.entry.endpoint != cfg.exit.endpoint
  }

  predicate Validated(cfg: Config) {
    && ValidHop(cfg.entry) && ValidHop(cfg.exit)
    && cfg.entry.key != cfg.exit.key
    && cfg.entry.endpoint != cfg.exit.endpoint
  }

  /** What the outer hop accepts is completed exactly by a valid exit: no connect is refused halfway for its entry. */
  lemma {:induction false} ValidatedExact(cfg: Config)
    ensures Validated(cfg) <==> ValidOuter(cfg) && ValidHop(cfg.exit)
    ensures Validated(cfg) ==>
              && cfg.entry.endpoint != "" && cfg.exit.endpoint != "" && cfg.entry.endpoint != cfg.exit.endpoint
              && cfg.entry.key != "" && cfg.exit.key != "" && cfg.entry.key != cfg.exit.key
  {
  }

  /** Whether an outer hop can be set up for these endpoints at all. */
  predicate Reachable(cfg: Config, dns: string -> Lookup) {
    && Apart(dns(cfg.entry.endpoint), dns(cfg.exit.endpoint))
    && PinsApart(dns(cfg.entry.endpoint), cfg.pinned, dns)
  }

  /** The entry's addresses stay on the real gateway. */
  function Direct(ips: seq<Ip>, up: Uplink): seq<Route>
    requires up.Uplink?
  {
    seq(|ips|, i requires 0 <= i < |ips| => Route(Prefix(ips[i], 32), up.gateway, up.iface))
  }

  /** The exit's addresses go out through the outer interface. */
  function Through(ips: seq<Ip>, iface: string): seq<Route> {
    seq(|ips|, i requires 0 <= i < |ips| => Route(Prefix(ips[i], 32), "", iface))
  }

  /** All other traffic, as two halves that outrank the default route without replacing it. */
  function Halves(iface: string): seq<Route> {
    [Route(Prefix(0, 1), "", iface), Route(Prefix(0x8000_0000, 1), "", iface)]
  }

  /** The routes of the outer hop, in the order made. */
  function OuterRoutes(entryIPs: seq<Ip>, outerIPs: seq<Ip>, up: Uplink, outer: string): seq<Route>
    requires up.Uplink?
  {
    Direct(entryIPs, up) + Through(outerIPs, outer)
  }

  /** The hosts of the entry on one list, those of the exit and the pinned ones on the other, none twice. */
  predicate Lists(entryIPs: seq<Ip>, outerIPs: seq<Ip>) {
    NoRepeats(entryIPs) && NoRepeats(outerIPs) && Elements(entryIPs) !! Elements(outerIPs)
  }

  /**
   * No destination is routed twice, so which way a packet to either node goes
   * never depends on the order the routes were made in.
   */
  lemma {:induction false} OneRouteEach(entryIPs: seq<Ip>, outerIPs: seq<Ip>, up: Uplink, outer: string, inner: string)
    requires up.Uplink? && Lists(entryIPs, outerIPs)
    ensures var all := OuterRoutes(entryIPs, outerIPs, up, outer) + Halves(inner);
            forall i, j :: 0 <= i < j < |all| ==> all[i].prefix != all[j].prefix
  {
    var all := OuterRoutes(entryIPs, outerIPs, up, outer) + Halves(inner);
    var ips, n := entryIPs + outerIPs, |entryIPs| + |outerIPs|;
    assert forall i :: 0 <= i < n ==> all[i].prefix == Prefix(ips[i], 32);
    assert all[n].prefix == Prefix(0, 1) && all[n + 1].prefix == Prefix(0x8000_0000, 1);
    forall i, j | 0 <= i < j < n ensures ips[i] != ips[j] {
      assert ips[i] in Elements(entryIPs) || ips[i] in Elements(outerIPs);
      assert ips[j] in Elements(entryIPs) || ips[j] in Elements(outerIPs);
    }
  }

  /** What the outer hop's routes make of a table: one host each, to the real gateway or into the outer interface. */
  ghost predicate CarriesOuter(own: multiset<Route>, table: multiset<Route>, direct: set<Ip>, through: set<Ip>,
                               up: Uplink, outer: string)
    requires up.Uplink?
  {
    && (forall x :: x in direct && Uncontested(own, x, 32) ==> Sends(table, x, up.gateway, up.iface))
    && (forall x :: x in through && Uncontested(own, x, 32) ==> Sends(table, x, "", outer))
  }

  /**
   * Everything else goes into the inner interface, except where the machine has a
   * route of its own for less than everything.
   */
  ghost predicate CarriesInner(own: multiset<Route>, table: multiset<Route>, direct: set<Ip>, through: set<Ip>,
                               inner: string) {
    && (forall x: Ip :: x !in direct && x !in through && Uncontested(own, x, 1) ==> Sends(table, x, "", inner))
    && ((forall r :: r in own ==> r.iface != inner) ==>
          forall x: Ip :: Sends(table, x, "", inner) && x !in direct && x !in through ==> Uncontested(own, x, 1))
  }

  /** Only its own route, and the half it lies in, covers a host with a route. */
  lemma {:induction false} HostRouted(entryIPs: seq<Ip>, outerIPs: seq<Ip>, up: Uplink, outer: string,
                                      halves: seq<Route>, x: Ip)
    requires up.Uplink? && Lists(entryIPs, outerIPs)
    requires forall r :: r in halves ==> r.prefix.bits == 1
    ensures var added := OuterRoutes(entryIPs, outerIPs, up, outer) + halves;
            (x in Elements(entryIPs) ==>
               Alone(added, x, Route(Prefix(x, 32), up.gateway, up.iface)))
            && (x in Elements(outerIPs) ==> Alone(added, x, Route(Prefix(x, 32), "", outer)))
            && (x !in Elements(entryIPs) && x !in Elements(outerIPs) ==>
                  forall r :: r in added && Covers(r.prefix, x) ==> r in halves)
  {
    var direct, through := Direct(entryIPs, up), Through(outerIPs, outer);
    var added := OuterRoutes(entryIPs, outerIPs, up, outer) + halves;
    forall r | r in added && Covers(r.prefix, x)
      ensures r in halves || (r == Route(Prefix(x, 32), up.gateway, up.iface) && x in Elements(entryIPs))
              || (r == Route(Prefix(x, 32), "", outer) && x in Elements(outerIPs))
    {
      if r in direct {
        var i :| 0 <= i < |direct| && direct[i] == r;
        HostCoversOne(entryIPs[i], x);
      } else if r in through {
        var i :| 0 <= i < |through| && through[i] == r;
        HostCoversOne(outerIPs[i], x);
      }
    }
    HostCoversOne(x, x);
    if x in Elements(entryIPs) {
      var i :| 0 <= i < |entryIPs| && entryIPs[i] == x;
      assert added[i] == direct[i];
    }
    if x in Elements(outerIPs) {
      var i :| 0 <= i < |outerIPs| && outerIPs[i] == x;
      assert added[|direct| + i] == through[i];
    }
  }

  /** The route covers the address, and every other of them that does is shorter. */
  ghost predicate Alone(added: seq<Route>, x: Ip, r: Route) {
    && r in added && Covers(r.prefix, x)
    && forall q :: q in added && Covers(q.prefix, x) && q != r ==> q.prefix.bits < r.prefix.bits
  }

  lemma {:induction false} OuterCarried(own: multiset<Route>, entryIPs: seq<Ip>, outerIPs: seq<Ip>, up: Uplink,
                                        outer: string, halves: seq<Route>)
    requires up.Uplink? && Lists(entryIPs, outerIPs)
    requires forall r :: r in halves ==> r.prefix.bits == 1
    ensures CarriesOuter(own, own + multiset(OuterRoutes(entryIPs, outerIPs, up, outer) + halves), Elements(entryIPs),
                         Elements(outerIPs), up, outer)
  {
    var added := OuterRoutes(entryIPs, outerIPs, up, outer) + halves;
    forall x | x in Elements(entryIPs) && Uncontested(own, x, 32)
      ensures Sends(own + multiset(added), x, up.gateway, up.iface)
    {
      HostRouted(entryIPs, outerIPs, up, outer, halves, x);
      TakesOver(own, added, x, Route(Prefix(x, 32), up.gateway, up.iface));
    }
    forall x | x in Elements(outerIPs) && Uncontested(own, x, 32) ensures Sends(own + multiset(added), x, "", outer) {
      HostRouted(entryIPs, outerIPs, up, outer, halves, x);
      TakesOver(own, added, x, Route(Prefix(x, 32), "", outer));
    }
  }

  /** Of the two halves exactly one covers an address. */
  lemma {:induction false} HalfAlone(added: seq<Route>, x: Ip, inner: string)
    requires forall r :: r in added && Covers(r.prefix, x) ==> r in Halves(inner)
    requires forall r :: r in Halves(inner) ==> r in added
    ensures var r := Halves(inner)[if x < 0x8000_0000 then 0 else 1]; Alone(added, x, r) && r.prefix.bits == 1
  {
    HalfCovers(0, x);
    HalfCovers(0x8000_0000, x);
  }

  lemma {:induction false} InnerCarried(own: multiset<Route>, entryIPs: seq<Ip>, outerIPs: seq<Ip>, up: Uplink,
                                        outer: string, inner: string)
    requires up.Uplink? && Lists(entryIPs, outerIPs)
    ensures CarriesInner(own, own + multiset(OuterRoutes(entryIPs, outerIPs, up, outer) + Halves(inner)),
                         Elements(entryIPs), Elements(outerIPs), inner)
  {
    var added := OuterRoutes(entryIPs, outerIPs, up, outer) + Halves(inner);
    forall x: Ip | x !in Elements(entryIPs) && x !in Elements(outerIPs)
      ensures Uncontested(own, x, 1) ==> Sends(own + multiset(added), x, "", inner)
      ensures (forall r :: r in own ==> r.iface != inner) ==>
                (Sends(own + multiset(added), x, "", inner) ==> Uncontested(own, x, 1))
    {
      HostRouted(entryIPs, outerIPs, up, outer, Halves(inner), x);
      HalfAlone(added, x, inner);
      TakesOver(own, added, x, Halves(inner)[if x < 0x8000_0000 then 0 else 1]);
    }
  }

  function SystemUndos(dns: bool, ipv6: bool): seq<Undo> {
    (if dns then [UndoDNS] else []) + (if ipv6 then [UndoIPv6] else [])
  }

  /** Undoing the changes from position n on, the last recorded first. */
  function UndoRoutes(routes: seq<Route>, n: nat): seq<Undo>
    requires n <= |routes|
    decreases |routes| - n
  {
    if n == |routes| then [] else UndoRoutes(routes, n + 1) + [UndoRoute(routes[n])]
  }

  function UndoInterfaces(names: seq<Iface>, n: nat): seq<Undo>
    requires n <= |names|
    decreases |names| - n
  {
    if n == |names| then [] else UndoInterfaces(names, n + 1) + [UndoInterface(names[n])]
  }

  /** Some of the routes from position n on, the last recorded first: what undoing them can leave. */
  predicate LeftOver(routes: seq<Route>, n: nat, remaining: seq<Route>)
    requires n <= |routes|
    decreases |routes| - n
  {
    if n == |routes| then remaining == []
    else
      || LeftOver(routes, n + 1, remaining)
      || (remaining != [] && remaining[|remaining| - 1] == routes[n]
          && LeftOver(routes, n + 1, remaining[..|remaining| - 1]))
  }

  lemma {:induction false} LeftOverStep(routes: seq<Route>, n: nat, remaining: seq<Route>)
    requires n < |routes| && LeftOver(routes, n + 1, remaining)
    ensures LeftOver(routes, n, remaining) && LeftOver(routes, n, remaining + [routes[n]])
  {
    assert (remaining + [routes[n]])[..|remaining|] == remaining;
  }

  lemma {:induction false} UndoRoutesStep(start: seq<Undo>, routes: seq<Route>, n: nat)
    requires n < |routes|
    ensures (start + UndoRoutes(routes, n + 1)) + [UndoRoute(routes[n])] == start + UndoRoutes(routes, n)
  {
  }

  lemma {:induction false} UndoInterfacesStep(start: seq<Undo>, names: seq<Iface>, n: nat)
    requires n < |names|
    ensures (start + UndoInterfaces(names, n + 1)) + [UndoInterface(names[n])] == start + UndoInterfaces(names, n)
  {
  }

  /**
   * What one teardown attempts, whatever fails: every change, within its kind from
   * the end of the record. A first teardown so undoes the newest first; what would
   * not go is recorded in the order it was tried, so a retry goes the other way.
   */
  function Attempts(l: Ledger): seq<Undo> {
    SystemUndos(l.dns, l.ipv6) + UndoRoutes(l.routes, 0) + UndoInterfaces(l.interfaces, 0)
  }

  /**
   * One attempt for every change on record and no other: first DNS, then IPv6, then
   * the routes and after all of them the interfaces, each kind from the end of its
   * record.
   */
  lemma {:induction false} AttemptsExact(l: Ledger, k: nat)
    ensures var first := (if l.dns then 1 else 0) + if l.ipv6 then 1 else 0;
            var a, routes, interfaces := Attempts(l), |l.routes|, |l.interfaces|;
            && |a| == first + routes + interfaces
            && (l.dns ==> a[0] == UndoDNS) && (l.ipv6 ==> a[first - 1] == UndoIPv6)
            && (k < routes ==> a[first + k] == UndoRoute(l.routes[routes - 1 - k]))
            && (k < interfaces ==> a[first + routes + k] == UndoInterface(l.interfaces[interfaces - 1 - k]))
  {
    UndoRoutesAt(l.routes, 0, k);
    UndoInterfacesAt(l.interfaces, 0, k);
  }

  lemma {:induction false} UndoRoutesAt(routes: seq<Route>, n: nat, k: nat)
    requires n <= |routes|
    ensures |UndoRoutes(routes, n)| == |routes| - n
    ensures k < |routes| - n ==> UndoRoutes(routes, n)[k] == UndoRoute(routes[|routes| - 1 - k])
    decreases |routes| - n
  {
    if n < |routes| { UndoRoutesAt(routes, n + 1, k); }
  }

  lemma {:induction false} UndoInterfacesAt(names: seq<Iface>, n: nat, k: nat)
    requires n <= |names|
    ensures |UndoInterfaces(names, n)| == |names| - n
    ensures k < |names| - n ==> UndoInterfaces(names, n)[k] == UndoInterface(names[|names| - 1 - k])
    decreases |names| - n
  {
    if n < |names| { UndoInterfacesAt(names, n + 1, k); }
  }

  lemma {:induction false} AttemptsInOrder(undos: seq<Undo>, l: Ledger)
    ensures ((undos + SystemUndos(l.dns, l.ipv6)) + UndoRoutes(l.routes, 0)) + UndoInterfaces(l.interfaces, 0)
            == undos + Attempts(l)
  {
  }

  predicate Within(small: Ledger, big: Ledger) {
    && multiset(small.routes) <= multiset(big.routes)
    && multiset(small.interfaces) <= multiset(big.interfaces)
    && (small.dns ==> big.dns) && (small.ipv6 ==> big.ipv6)
  }

  lemma {:induction false} NothingAfter(routes: seq<Route>)
    ensures routes + [] == routes
  {
  }

  lemma {:induction false} NothingBefore(name: Iface, routes: seq<Route>)
    ensures [] + [name] == [name] && [] + routes == routes
  {
  }

  class ActiveState {
    var routes: seq<Route>
    var dnsChanged: bool
    var ipv6Changed: bool
    var interfaces: seq<Iface>
    var outerReady: bool
    var innerReady: bool
    const exitEndpoint: string
    const exitIP: Ip
    /** Where the session's routes came from. */
    ghost const entryIPs: seq<Ip>
    ghost const outerIPs: seq<Ip>
    ghost const up: Uplink

    constructor (exitEndpoint: string, exitIP: Ip, ghost entryIPs: seq<Ip>, ghost outerIPs: seq<Ip>, ghost up: Uplink)
      ensures Changes() == Ledger([], [], false, true) && !outerReady && !innerReady
      ensures this.exitEndpoint == exitEndpoint && this.exitIP == exitIP
      ensures this.entryIPs == entryIPs && this.outerIPs == outerIPs && this.up == up
    {
      routes, dnsChanged, ipv6Changed, interfaces, outerReady, innerReady := [], false, true, [], false, false;
      this.exitEndpoint, this.exitIP, this.entryIPs, this.outerIPs, this.up := exitEndpoint, exitIP, entryIPs, outerIPs,
                                                                              up;
    }

    /** Not an address with a host route in this session. */
    ghost predicate Unlisted(x: Ip) { x !in entryIPs && x !in outerIPs }

    function Changes(): Ledger
      reads this
    {
      Ledger(routes, interfaces, dnsChanged, ipv6Changed)
    }
  }

  class Tunnel {
    const host: Host
    var entryKeys: KeyPair
    var exitKeys: KeyPair
    var active: ActiveState?
    var pending: ActiveState?

    constructor (host: Host)
      requires host.Changed(EMPTY)
      ensures Valid() && active == null && pending == null && this.host == host
    {
      this.host := host;
      entryKeys, exitKeys, active, pending := NoKeys, NoKeys, null, null;
    }

    ghost function States(): set<object>
      reads this
    {
      (if active != null then {active} else {}) + (if pending != null then {pending} else {})
    }

    /** Everything is on record, and an active session has the routes planned for it. */
    ghost predicate Valid()
      reads this, host, States()
    {
      Recorded() && (active != null ==> Planned(active))
    }

    /** The routes of the outer hop, and the two halves once the inner hop is up. */
    ghost predicate Planned(state: ActiveState)
      reads state
    {
      && state.up.Uplink? && Lists(state.entryIPs, state.outerIPs)
      && state.routes == OuterRoutes(state.entryIPs, state.outerIPs, state.up, host.osName(Outer))
                         + if state.innerReady then Halves(host.osName(Inner)) else []
    }

    /**
     * The machine differs from its original state by exactly what is recorded, in
     * an active session or in a cleanup still owed, never both; while a session is
     * active, IPv6 is blocked.
     */
    ghost predicate Recorded()
      reads this, host, States()
    {
      && (active == null || pending == null)
      && (active == null && pending == null ==> host.Changed(EMPTY))
      && (active != null ==> host.Changed(active.Changes()) && active.ipv6Changed && host.ipv6 == Blocked
                             && active.outerReady && active.innerReady == active.dnsChanged)
      && (pending != null ==> host.Changed(pending.Changes()) && pending.Changes() != EMPTY)
    }

    /** Off, with the machine as it was before any tunnel. */
    ghost predicate Restored()
      reads this, host
    {
      active == null && pending == null && host.Changed(EMPTY)
    }

    /**
     * In every state a session is active in, the machine's table, by longest match,
     * sends packets for the entry's addresses to the real gateway, those for the
     * exit and the pinned hosts into the outer interface and, once the inner hop is
     * up, all others into the inner interface. The only exceptions are addresses
     * for which the machine has a route of its own that is as long.
     */
    lemma {:induction false} SessionRoutes()
      requires Valid() && active != null
      ensures active.up.Uplink?
      ensures forall x :: x in Elements(active.entryIPs) && Uncontested(host.ownRoutes, x, 32) ==>
                Sends(host.routes, x, active.up.gateway, active.up.iface)
      ensures forall x :: x in Elements(active.outerIPs) && Uncontested(host.ownRoutes, x, 32) ==>
                Sends(host.routes, x, "", host.osName(Outer))
      ensures active.innerReady ==>
                forall x: Ip :: active.Unlisted(x) && Uncontested(host.ownRoutes, x, 1) ==>
                  Sends(host.routes, x, "", host.osName(Inner))
      ensures active.innerReady && (forall r :: r in host.ownRoutes ==> r.iface != host.osName(Inner)) ==>
                forall x: Ip :: active.Unlisted(x) ==>
                  (Sends(host.routes, x, "", host.osName(Inner)) ==> Uncontested(host.ownRoutes, x, 1))
    {
      var own, outer, inner := host.ownRoutes, host.osName(Outer), host.osName(Inner);
      var halves := if active.innerReady then Halves(inner) else [];
      OuterCarried(own, active.entryIPs, active.outerIPs, active.up, outer, halves);
      if active.innerReady { InnerCarried(own, active.entryIPs, active.outerIPs, active.up, outer, inner); }
    }

    /** A new pair for each attempt; an active session keeps its own. */
    method PrepareHopKeys(entry: KeyPair, exit: KeyPair) returns (ok: bool)
      requires Valid() && entry.KeyPair? && exit.KeyPair?
      modifies this`entryKeys, this`exitKeys
      ensures Valid()
      ensures old(active) == null ==> ok && entryKeys == entry && exitKeys == exit
      ensures old(active) != null ==> entryKeys == old(entryKeys) && exitKeys == old(exitKeys)
                                      && (ok <==> entryKeys.KeyPair? && exitKeys.KeyPair?)
    {
      if active != null { return !(entryKeys.NoKeys? || exitKeys.NoKeys?); }
      entryKeys, exitKeys := entry, exit;
      return true;
    }

    method ResetHopKeys()
      requires Valid()
      modifies this`entryKeys, this`exitKeys
      ensures Valid()
      ensures active != null ==> entryKeys == old(entryKeys) && exitKeys == old(exitKeys)
      ensures active == null ==> entryKeys == NoKeys && exitKeys == NoKeys
    {
      if active != null { return; }
      entryKeys, exitKeys := NoKeys, NoKeys;
    }

    /** Undoes as much as it can; what could not be undone stays recorded. */
    method Teardown(state: ActiveState) returns (ok: bool)
      requires host.Changed(state.Changes())
      modifies host, state
      ensures host.blocks == old(host.blocks)
      ensures host.Changed(state.Changes())
      ensures host.undos == old(host.undos) + Attempts(old(state.Changes()))
      ensures Within(state.Changes(), old(state.Changes()))
      ensures ok <==> state.Changes() == EMPTY
      ensures old(host.failures) <= host.failures
      ensures ok <==> host.failures == old(host.failures)
    {
      AttemptsInOrder(host.undos, state.Changes());
      ok := UndoEach(state);
    }

    /** Every step is tried, past any failure. */
    method UndoEach(state: ActiveState) returns (ok: bool)
      requires Adds(host.ownRoutes, state.routes, host.routes)
               && Adds(host.ownInterfaces, state.interfaces, host.interfaces)
      requires host.resolverSet == state.dnsChanged && (host.ipv6 != Open ==> state.ipv6Changed)
      modifies host, state
      ensures host.blocks == old(host.blocks)
      ensures Adds(host.ownRoutes, state.routes, host.routes)
              && Adds(host.ownInterfaces, state.interfaces, host.interfaces)
      ensures host.resolverSet == state.dnsChanged && (host.ipv6 != Open ==> state.ipv6Changed)
      ensures host.undos == ((old(host.undos) + SystemUndos(old(state.dnsChanged), old(state.ipv6Changed)))
                             + UndoRoutes(old(state.routes), 0)) + UndoInterfaces(old(state.interfaces), 0)
      ensures multiset(state.routes) <= multiset(old(state.routes))
              && multiset(state.interfaces) <= multiset(old(state.interfaces))
      ensures (state.dnsChanged ==> old(state.dnsChanged)) && (state.ipv6Changed ==> old(state.ipv6Changed))
      ensures ok <==> state.routes == [] && state.interfaces == [] && !state.dnsChanged && !state.ipv6Changed
      ensures old(host.failures) <= host.failures
      ensures ok <==> host.failures == old(host.failures)
    {
      var resolved := RestoreSystem(state);
      var gone := DeleteRoutes(state);
      var deleted := DeleteInterfaces(state);
      return resolved && gone && deleted;
    }

    method RestoreSystem(state: ActiveState) returns (ok: bool)
      requires host.resolverSet == state.dnsChanged && (host.ipv6 != Open ==> state.ipv6Changed)
      modifies host`resolverSet, host`ipv6, host`undos, host`failures, state`dnsChanged, state`ipv6Changed
      ensures host.resolverSet == state.dnsChanged && (host.ipv6 != Open ==> state.ipv6Changed)
      ensures host.undos == old(host.undos) + SystemUndos(old(state.dnsChanged), old(state.ipv6Changed))
      ensures (state.dnsChanged ==> old(state.dnsChanged)) && (state.ipv6Changed ==> old(state.ipv6Changed))
      ensures ok <==> !state.dnsChanged && !state.ipv6Changed
      ensures old(host.failures) <= host.failures
      ensures ok <==> host.failures == old(host.failures)
    {
      ok := true;
      if state.dnsChanged {
        var restored := host.RestoreDNS();
        if restored { state.dnsChanged := false; } else { ok := false; }
      }
      if state.ipv6Changed {
        var restored := host.RestoreIPv6();
        if restored { state.ipv6Changed := false; } else { ok := false; }
      }
    }

    method DeleteRoutes(state: ActiveState) returns (ok: bool)
      requires Adds(host.ownRoutes, state.routes, host.routes)
      modifies host`routes, host`undos, host`failures, state`routes
      ensures Adds(host.ownRoutes, state.routes, host.routes)
      ensures host.undos == old(host.undos) + UndoRoutes(old(state.routes), 0)
      ensures LeftOver(old(state.routes), 0, state.routes)
      ensures multiset(state.routes) <= multiset(old(state.routes))
      ensures ok <==> state.routes == []
      ensures old(host.failures) <= host.failures
      ensures ok <==> host.failures == old(host.failures)
    {
      var routes := state.routes;
      var remaining: seq<Route> := [];
      UndoStarts(host.ownRoutes, routes, host.routes);
      for i := |routes| downto 0
        invariant Undoing(host.ownRoutes, routes, i, remaining, host.routes)
        invariant host.undos == old(host.undos) + UndoRoutes(routes, i) && LeftOver(routes, i, remaining)
        invariant old(host.failures) <= host.failures
        invariant remaining == [] <==> host.failures == old(host.failures)
      {
        UndoRoutesStep(old(host.undos), routes, i);
        LeftOverStep(routes, i, remaining);
        remaining := TryRoute(routes, i, remaining);
      }
      UndoEnds(host.ownRoutes, routes, remaining, host.routes);
      state.routes := remaining;
      ok := remaining == [];
    }

    method TryRoute(routes: seq<Route>, i: nat, remaining: seq<Route>) returns (stuck: seq<Route>)
      requires i < |routes| && Undoing(host.ownRoutes, routes, i + 1, remaining, host.routes)
      modifies host`routes, host`undos, host`failures
      ensures Undoing(host.ownRoutes, routes, i, stuck, host.routes)
      ensures host.undos == old(host.undos) + [UndoRoute(routes[i])]
      ensures old(host.failures) <= host.failures
      ensures stuck == if host.failures == old(host.failures) then remaining else remaining + [routes[i]]
    {
      ghost var before := host.routes;
      var deleted := host.DeleteRoute(routes[i]);
      UndoGoesOn(host.ownRoutes, routes, i, remaining, before, deleted, host.routes);
      return if deleted then remaining else remaining + [routes[i]];
    }

    method DeleteInterfaces(state: ActiveState) returns (ok: bool)
      requires Adds(host.ownInterfaces, state.interfaces, host.interfaces)
      modifies host`interfaces, host`undos, host`failures, state`interfaces
      ensures Adds(host.ownInterfaces, state.interfaces, host.interfaces)
      ensures host.undos == old(host.undos) + UndoInterfaces(old(state.interfaces), 0)
      ensures multiset(state.interfaces) <= multiset(old(state.interfaces))
      ensures ok <==> state.interfaces == []
      ensures old(host.failures) <= host.failures
      ensures ok <==> host.failures == old(host.failures)
    {
      var names := state.interfaces;
      var remaining: seq<Iface> := [];
      UndoStarts(host.ownInterfaces, names, host.interfaces);
      for i := |names| downto 0
        invariant Undoing(host.ownInterfaces, names, i, remaining, host.interfaces)
        invariant host.undos == old(host.undos) + UndoInterfaces(names, i)
        invariant old(host.failures) <= host.failures
        invariant remaining == [] <==> host.failures == old(host.failures)
      {
        UndoInterfacesStep(old(host.undos), names, i);
        remaining := TryInterface(names, i, remaining);
      }
      UndoEnds(host.ownInterfaces, names, remaining, host.interfaces);
      state.interfaces := remaining;
      ok := remaining == [];
    }

    method TryInterface(names: seq<Iface>, i: nat, remaining: seq<Iface>) returns (stuck: seq<Iface>)
      requires i < |names| && Undoing(host.ownInterfaces, names, i + 1, remaining, host.interfaces)
      modifies host`interfaces, host`undos, host`failures
      ensures Undoing(host.ownInterfaces, names, i, stuck, host.interfaces)
      ensures host.undos == old(host.undos) + [UndoInterface(names[i])]
      ensures old(host.failures) <= host.failures
      ensures stuck == if host.failures == old(host.failures) then remaining else remaining + [names[i]]
    {
      ghost var before := host.interfaces;
      var deleted := host.DeleteInterface(names[i]);
      UndoGoesOn(host.ownInterfaces, names, i, remaining, before, deleted, host.interfaces);
      return if deleted then remaining else remaining + [names[i]];
    }

    /** Ends the session, or retries the cleanup still owed. */
    method DisconnectLocked() returns (ok: bool)
      requires Recorded()
      modifies this`active, this`pending, host, States()
      ensures host.blocks == old(host.blocks)
      ensures fresh(States() - old(States()))
      ensures Valid() && active == null
      ensures ok <==> Restored()
      ensures pending != null ==> old(States()) == {pending} && Within(pending.Changes(), old(Owed()))
      ensures old(host.failures) <= host.failures
      ensures ok <==> host.failures == old(host.failures)
    {
      if active != null { pending, active := active, null; }
      if pending == null { return true; }
      ok := Teardown(pending);
      if ok { pending := null; }
    }

    /** What is recorded as changed, by a session or by a cleanup still owed. */
    function Owed(): Ledger
      reads this, States()
    {
      if active != null then active.Changes() else if pending != null then pending.Changes() else EMPTY
    }

    /** Tears the tunnel down and forgets the session's identity. */
    method Down() returns (ok: bool)
      requires Valid()
      modifies this, host, States()
      ensures fresh(States() - old(States()))
      ensures Valid() && active == null
      ensures ok <==> Restored()
      ensures pending != null ==> Within(pending.Changes(), old(Owed()))
      ensures old(active) != null || old(pending) != null ==> entryKeys == NoKeys && exitKeys == NoKeys
      ensures old(host.failures) <= host.failures
      ensures ok <==> host.failures == old(host.failures)
    {
      if active == null && pending == null { return true; }
      ok := DisconnectLocked();
      entryKeys, exitKeys := NoKeys, NoKeys;
    }

    /** Tries the IPv6 block and takes it off again, before any money is spent. */
    method Preflight(privileged: bool, dataPlane: bool) returns (ok: bool)
      requires Valid()
      modifies this`active, this`pending, host, States()
      ensures fresh(States() - old(States()))
      ensures Valid() && active == old(active)
      ensures ok ==> Restored() && host.blocks > old(host.blocks)
      ensures old(host.failures) <= host.failures
      ensures ok <==> privileged && dataPlane && old(active) == null && host.failures == old(host.failures)
      ensures !(privileged && dataPlane) || old(active) != null ==> pending == old(pending) && Owed() == old(Owed())
    {
      if !privileged { return false; }
      if !dataPlane { return false; }
      if active != null { return false; }
      if pending != null {
        ok := DisconnectLocked();
        if !ok { return false; }
      }
      ok := Probe();
    }

    /** Always undone, since a failed block may have left part of itself behind. */
    method Probe() returns (ok: bool)
      requires Restored()
      modifies this`pending, host`ipv6, host`blocks, host`undos, host`failures
      ensures Valid() && (pending != null ==> fresh(pending))
      ensures ok ==> pending == null && host.blocks == old(host.blocks) + 1
      ensures host.undos == old(host.undos) + [UndoIPv6]
      ensures old(host.failures) <= host.failures
      ensures ok <==> host.failures == old(host.failures)
    {
      var installed := host.DisableIPv6();
      var cleaned := host.RestoreIPv6();
      if !cleaned {
        pending := new ActiveState("", 0, [], [], NoUplink);
        return false;
      }
      return installed;
    }

    method AddRoute(route: Route, state: ActiveState) returns (ok: bool)
      requires host.ipv6 == Blocked && Adds(host.ownRoutes, state.routes, host.routes)
      modifies host`routes, state`routes, host`failures
      ensures Adds(host.ownRoutes, state.routes, host.routes)
      ensures state.routes == if ok then old(state.routes) + [route] else old(state.routes)
      ensures host.failures == old(host.failures) + if ok then 0 else 1
    {
      OneMore(host.ownRoutes, state.routes, host.routes, route);
      ok := host.AddRoute(route);
      if ok { state.routes := state.routes + [route]; }
    }

    method AddRoutes(routes: seq<Route>, state: ActiveState) returns (ok: bool)
      requires host.ipv6 == Blocked && Adds(host.ownRoutes, state.routes, host.routes)
      modifies host`routes, state`routes, host`failures
      ensures Adds(host.ownRoutes, state.routes, host.routes)
      ensures ok ==> state.routes == old(state.routes) + routes
      ensures old(host.failures) <= host.failures
      ensures ok <==> host.failures == old(host.failures)
    {
      for i := 0 to |routes|
        invariant Adds(host.ownRoutes, state.routes, host.routes)
        invariant state.routes == old(state.routes) + routes[..i]
        invariant host.failures == old(host.failures)
      {
        var added := AddRoute(routes[i], state);
        if !added { return false; }
        assert routes[..i + 1] == routes[..i] + [routes[i]];
      }
      assert routes[..|routes|] == routes;
      return true;
    }

    method CreateInterface(name: Iface, state: ActiveState) returns (ok: bool)
      requires host.ipv6 == Blocked && Adds(host.ownInterfaces, state.interfaces, host.interfaces)
      modifies host`interfaces, state`interfaces, host`failures
      ensures Adds(host.ownInterfaces, state.interfaces, host.interfaces)
      ensures state.interfaces == if ok then old(state.interfaces) + [name] else old(state.interfaces)
      ensures old(host.failures) <= host.failures
      ensures ok <==> host.failures == old(host.failures)
    {
      OneMore(host.ownInterfaces, state.interfaces, host.interfaces, name);
      ok := host.CreateInterface(name);
      if ok { state.interfaces := state.interfaces + [name]; }
    }

    method CreatePeered(name: Iface, state: ActiveState) returns (ok: bool)
      requires host.ipv6 == Blocked && Adds(host.ownInterfaces, state.interfaces, host.interfaces)
      modifies host`interfaces, state`interfaces, host`failures
      ensures Adds(host.ownInterfaces, state.interfaces, host.interfaces)
      ensures ok ==> state.interfaces == old(state.interfaces) + [name]
      ensures old(host.failures) <= host.failures
      ensures ok <==> host.failures == old(host.failures)
    {
      ok := CreateInterface(name, state);
      if ok { ok := host.AddPeer(name); }
    }

    method BringUpOuter(entryIPs: seq<Ip>, outerIPs: seq<Ip>, up: Uplink, state: ActiveState) returns (ok: bool)
      requires up.Uplink? && host.ipv6 == Blocked && state.routes == [] && state.interfaces == []
      requires Adds(host.ownRoutes, state.routes, host.routes)
               && Adds(host.ownInterfaces, state.interfaces, host.interfaces)
      modifies host`routes, host`interfaces, state`routes, state`interfaces, host`failures
      ensures Adds(host.ownRoutes, state.routes, host.routes)
              && Adds(host.ownInterfaces, state.interfaces, host.interfaces)
      ensures ok ==>
                state.interfaces == [Outer] && state.routes == OuterRoutes(entryIPs, outerIPs, up, host.osName(Outer))
      ensures old(host.failures) <= host.failures
      ensures ok <==> host.failures == old(host.failures)
    {
      var direct, through := Direct(entryIPs, up), Through(outerIPs, host.osName(Outer));
      NothingBefore(Outer, direct);
      ok := CreatePeered(Outer, state);
      if !ok { return; }
      ok := AddRoutes(direct, state);
      if !ok { return; }
      ok := AddRoutes(through, state);
    }

    method BringUpInner(state: ActiveState) returns (ok: bool)
      requires host.ipv6 == Blocked && !state.dnsChanged && !host.resolverSet
      requires Adds(host.ownRoutes, state.routes, host.routes)
               && Adds(host.ownInterfaces, state.interfaces, host.interfaces)
      modifies host`routes, host`interfaces, host`resolverSet, host`failures
      modifies state`routes, state`interfaces, state`dnsChanged
      ensures Adds(host.ownRoutes, state.routes, host.routes)
              && Adds(host.ownInterfaces, state.interfaces, host.interfaces)
      ensures host.resolverSet == state.dnsChanged
      ensures ok ==> state.interfaces == old(state.interfaces) + [Inner]
                     && state.routes == old(state.routes) + Halves(host.osName(Inner)) && state.dnsChanged
      ensures !ok ==> !state.dnsChanged
      ensures old(host.failures) <= host.failures
      ensures ok <==> (exitKeys.KeyPair? || entryKeys.KeyPair?) && host.failures == old(host.failures)
    {
      var innerKeys := if exitKeys.NoKeys? then entryKeys else exitKeys;
      if innerKeys.NoKeys? { return false; }
      ok := CreatePeered(Inner, state);
      if !ok { return; }
      var halves := Halves(host.osName(Inner));
      ok := AddRoutes(halves, state);
      if !ok { return; }
      ok := PointDNS(state);
    }

    method PointDNS(state: ActiveState) returns (ok: bool)
      requires !state.dnsChanged && !host.resolverSet
      modifies host`resolverSet, state`dnsChanged, host`failures
      ensures host.resolverSet == state.dnsChanged == ok
      ensures old(host.failures) <= host.failures
      ensures ok <==> host.failures == old(host.failures)
    {
      ok := host.SetDNS();
      if ok { state.dnsChanged := true; }
    }

    /** A session for this configuration: the entry's addresses, and with the exit's all those pinned. */
    ghost predicate Meant(state: ActiveState, cfg: Config, dns: string -> Lookup, up: Uplink) {
      && state.up == up && state.exitEndpoint == cfg.exit.endpoint
      && Elements(state.entryIPs) == Addresses(dns(cfg.entry.endpoint))
      && Elements(state.outerIPs) == Addresses(dns(cfg.exit.endpoint)) + PinnedTo(cfg.pinned, dns)
    }

    /**
     * Brings up the outer hop, or leaves nothing behind but a recorded cleanup.
     * On success packets to the entry leave by the real gateway and packets to the
     * exit or a pinned host through the outer interface, wherever the machine has
     * no host route of its own; no address is meant to go both ways.
     */
    method UpOuterLocked(cfg: Config, dns: string -> Lookup, up: Uplink) returns (ok: bool)
      requires Valid()
      modifies this`active, this`pending, host
      ensures fresh(States() - old(States()))
      ensures Valid()
      ensures ok ==>
                && old(active) == null && old(pending) == null && entryKeys.KeyPair? && ValidOuter(cfg)
                && Reachable(cfg, dns) && up.Uplink?
                && active != null && fresh(active) && active.interfaces == [Outer] && !active.innerReady
                && Meant(active, cfg, dns, up) && active.exitIP in Addresses(dns(cfg.exit.endpoint))
      ensures !ok ==> active == old(active)
      ensures !ok && pending != null && old(pending) == null ==> fresh(pending)
      ensures old(active) != null || old(pending) != null ==> !ok && pending == old(pending) && Owed() == old(Owed())
      ensures old(host.failures) <= host.failures
      ensures !ok && old(active) == null && old(pending) == null && host.failures == old(host.failures) ==> Restored()
      ensures ok <==> old(active) == null && old(pending) == null && entryKeys.KeyPair? && ValidOuter(cfg)
                      && Reachable(cfg, dns) && up.Uplink? && host.failures == old(host.failures)
    {
      if active != null { return false; }
      if pending != null { return false; }
      if entryKeys.NoKeys? { return false; }
      if !ValidOuter(cfg) { return false; }
      var pins := ResolveOuterRouteIPs(dns(cfg.entry.endpoint), dns(cfg.exit.endpoint), cfg.pinned, dns);
      if pins.Rejected? { return false; }
      if up.NoUplink? { return false; }
      ok := RaiseOuter(cfg.exit.endpoint, pins.entry, pins.outer, up);
    }

    /** Blocks IPv6, then makes the changes; whatever fails is rolled back or stays recorded. */
    method RaiseOuter(exitEndpoint: string, entryIPs: seq<Ip>, outerIPs: seq<Ip>, up: Uplink) returns (ok: bool)
      requires Valid() && active == null && pending == null
      requires up.Uplink? && outerIPs != [] && Lists(entryIPs, outerIPs)
      modifies this`active, this`pending, host
      ensures Valid()
      ensures ok <==> active != null
      ensures ok ==>
                && fresh(active) && active.interfaces == [Outer] && !active.innerReady
                && active.entryIPs == entryIPs && active.outerIPs == outerIPs && active.up == up
                && active.exitEndpoint == exitEndpoint && active.exitIP == outerIPs[0]
      ensures pending != null ==> fresh(pending)
      ensures old(host.failures) <= host.failures
      ensures ok <==> host.failures == old(host.failures)
    {
      var state := new ActiveState(exitEndpoint, outerIPs[0], entryIPs, outerIPs, up);
      ok := host.DisableIPv6();
      if !ok {
        Unblock(state);
        return;
      }
      ok := BringUpOuter(entryIPs, outerIPs, up, state);
      NothingAfter(OuterRoutes(entryIPs, outerIPs, up, host.osName(Outer)));
      Conclude(state, ok);
    }

    method Unblock(state: ActiveState)
      requires active == null && pending == null && host.Changed(state.Changes())
               && state.Changes() == Ledger([], [], false, true)
      modifies this`pending, host`ipv6, host`undos, host`failures
      ensures Valid() && (pending == null || pending == state)
      ensures old(host.failures) <= host.failures && (pending == null <==> host.failures == old(host.failures))
    {
      var rolledBack := host.RestoreIPv6();
      if !rolledBack { pending := state; }
    }

    /** A finished bring-up becomes the session; a failed one is rolled back, and what that cannot undo is owed. */
    method Conclude(state: ActiveState, raised: bool)
      requires active == null && pending == null && host.Changed(state.Changes())
      requires state.ipv6Changed && host.ipv6 == Blocked && !state.innerReady && !state.dnsChanged
      requires raised ==> Planned(state)
      modifies this`active, this`pending, host, state
      ensures Valid()
      ensures raised ==> active == state && state.Changes() == old(state.Changes()) && !state.innerReady
      ensures !raised ==> active == null && (pending == null || pending == state)
      ensures old(host.failures) <= host.failures && (pending == null <==> host.failures == old(host.failures))
    {
      if !raised {
        var rolledBack := Teardown(state);
        if !rolledBack { pending := state; }
        return;
      }
      state.outerReady := true;
      active := state;
    }

    /** Completes a staged bring-up; any failure past the first two checks ends the session. */
    method UpInnerLocked(cfg: Config, endpointParses: bool) returns (ok: bool)
      requires Valid()
      modifies this`active, this`pending, host, States()
      ensures fresh(States() - old(States()))
      ensures Valid()
      ensures ok ==>
                old(active) != null && active == old(active) && !old(active.innerReady) && active.innerReady
                && Validated(cfg) && cfg.exit.endpoint == active.exitEndpoint
                && active.interfaces == old(active.interfaces) + [Inner] && host.resolverSet
      ensures !ok && (old(active) == null || old(active.innerReady)) ==>
                active == old(active) && pending == old(pending) && Owed() == old(Owed())
      ensures !ok && old(active) != null && !old(active.innerReady) ==>
                active == null && (pending == null || pending == old(active))
      ensures old(host.failures) <= host.failures
      ensures !ok && old(active) != null && !old(active.innerReady) && host.failures == old(host.failures) ==>
                Restored()
      ensures ok <==> old(active) != null && !old(active.innerReady) && cfg.exit.endpoint == old(active).exitEndpoint
                      && Validated(cfg) && endpointParses && (exitKeys.KeyPair? || entryKeys.KeyPair?)
                      && host.failures == old(host.failures)
    {
      if active == null || !active.outerReady { return false; }
      if active.innerReady { return false; }
      ok := cfg.exit.endpoint == active.exitEndpoint && Validated(cfg) && endpointParses;
      if ok { ok := CompleteInner(); }
      if !ok { var torn := DisconnectLocked(); }
    }

    /** Brings up the inner hop of the active session; it is ready only if everything worked. */
    method CompleteInner() returns (ok: bool)
      requires Valid() && active != null && !active.innerReady
      modifies host, active
      ensures Recorded() && active.innerReady == ok
      ensures ok ==> Planned(active) && host.resolverSet && active.interfaces == old(active.interfaces) + [Inner]
      ensures old(host.failures) <= host.failures
      ensures ok <==> (exitKeys.KeyPair? || entryKeys.KeyPair?) && host.failures == old(host.failures)
    {
      NothingAfter(OuterRoutes(active.entryIPs, active.outerIPs, active.up, host.osName(Outer)));
      ok := BringUpInner(active);
      if ok { active.innerReady := true; }
    }

    /** Both hops in one call. */
    method Up(cfg: Config, dns: string -> Lookup, up: Uplink, endpointParses: bool) returns (ok: bool)
      requires Valid()
      modifies this`active, this`pending, host, States()
      ensures fresh(States() - old(States()))
      ensures Valid()
      ensures ok ==> old(active) == null && old(pending) == null && active != null && active.innerReady
                     && Validated(cfg) && Reachable(cfg, dns) && active.interfaces == [Outer, Inner]
                     && Meant(active, cfg, dns, up) && host.resolverSet
      ensures !ok && (old(active) != null || old(pending) != null) ==>
                active == old(active) && pending == old(pending) && Owed() == old(Owed())
      ensures !ok && old(active) == null ==> active == null
      ensures old(host.failures) <= host.failures
      ensures !ok && old(active) == null && old(pending) == null && host.failures == old(host.failures) ==> Restored()
      ensures ok <==> old(active) == null && old(pending) == null && entryKeys.KeyPair? && Validated(cfg)
                      && Reachable(cfg, dns) && up.Uplink? && endpointParses && host.failures == old(host.failures)
    {
      if !Validated(cfg) { return false; }
      ok := UpOuterLocked(cfg, dns, up);
      if !ok { return; }
      ok := UpInnerLocked(cfg, endpointParses);
    }
  }

  /** One call of the application on its tunnel. */
  datatype Call =
    | CallKeys(entry: nat, exit: nat)
    | CallReset
    | CallPreflight(privileged: bool, dataPlane: bool)
    | CallUp(cfg: Config, dns: string -> Lookup, up: Uplink, endpointParses: bool)
    | CallUpOuter(cfg: Config, dns: string -> Lookup, up: Uplink)
    | CallUpInner(cfg: Config, endpointParses: bool)
    | CallDown

  /**
   * Whatever the application calls and whatever fails on the way, the machine
   * always differs from its original state by exactly what the tunnel has on
   * record, and the first teardown in which nothing fails puts everything back:
   * it restores the machine if and only if no operation failed since it began.
   */
  method Lifetime(t: Tunnel, calls: seq<Call>) returns (restored: bool, ghost before: nat)
    requires t.Valid()
    modifies t, t.host, t.States()
    ensures t.Valid() && t.active == null
    ensures old(t.host.failures) <= before <= t.host.failures
    ensures restored <==> t.Restored()
    ensures restored <==> t.host.failures == before
  {
    for i := 0 to |calls|
      invariant t.Valid() && fresh(t.States() - old(t.States()))
      invariant old(t.host.failures) <= t.host.failures
    {
      Dispatch(t, calls[i]);
    }
    before := t.host.failures;
    restored := t.Down();
  }

  method Dispatch(t: Tunnel, call: Call)
    requires t.Valid()
    modifies t, t.host, t.States()
    ensures t.Valid() && fresh(t.States() - old(t.States()))
    ensures old(t.host.failures) <= t.host.failures
  {
    match call {
      case CallKeys(entry, exit) => var ok := t.PrepareHopKeys(KeyPair(entry), KeyPair(exit));
      case CallReset => t.ResetHopKeys();
      case CallPreflight(privileged, dataPlane) => var ok := t.Preflight(privileged, dataPlane);
      case CallUp(cfg, dns, up, parses) => var ok := t.Up(cfg, dns, up, parses);
      case CallUpOuter(cfg, dns, up) => var ok := t.UpOuterLocked(cfg, dns, up);
      case CallUpInner(cfg, parses) => var ok := t.UpInnerLocked(cfg, parses);
      case CallDown => var ok := t.Down();
    }
  }
}
