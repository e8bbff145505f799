/** Turning node endpoints into addresses, without letting one host serve both hops. */
module Endpoints {
  import opened Routing

  /** An address as a lookup returns it; only IPv4 ones count. */
  datatype Address = IPv4(ip: Ip, routable: bool) | Other

  /** What an endpoint says once its host is looked up; none of these can be told from the string alone. */
  datatype Lookup = Malformed | Unresolved | Literal(address: Address) | Named(addresses: seq<Address>)

  datatype Hosts = Unusable | Usable(ips: seq<Ip>)

  datatype Pinned = Rejected | Routes(entry: seq<Ip>, outer: seq<Ip>)

  predicate NoRepeats(xs: seq<Ip>) {
    forall i, j :: 0 <= i < j < |xs| ==> xs[i] != xs[j]
  }

  function Elements(xs: seq<Ip>): set<Ip> { set x | x in xs }

  /** The IPv4 addresses among those found. */
  function Ipv4(addresses: seq<Address>): set<Ip> {
    set i | 0 <= i < |addresses| && addresses[i].IPv4? :: addresses[i].ip
  }

  predicate AllRoutable(addresses: seq<Address>) {
    forall i :: 0 <= i < |addresses| && addresses[i].IPv4? ==> addresses[i].routable
  }

  /** An endpoint is usable when it names at least one IPv4 address and only routable ones. */
  predicate CanUse(l: Lookup) {
    match l
    case Malformed => false
    case Unresolved => false
    case Literal(a) => a.IPv4? && a.routable
    case Named(found) => AllRoutable(found) && Ipv4(found) != {}
  }

  function Addresses(l: Lookup): set<Ip> {
    match l
    case Literal(a) => if a.IPv4? then {a.ip} else {}
    case Named(found) => Ipv4(found)
    case _ => {}
  }

  lemma {:induction false} ElementsPush(xs: seq<Ip>, x: Ip)
    ensures Elements(xs + [x]) == Elements(xs) + {x}
    ensures NoRepeats(xs) && x !in Elements(xs) ==> NoRepeats(xs + [x])
  {
  }

  lemma {:induction false} Ipv4Push(addresses: seq<Address>, n: nat)
    requires n < |addresses|
    ensures Ipv4(addresses[..n + 1]) == Ipv4(addresses[..n]) + if addresses[n].IPv4? then {addresses[n].ip} else {}
    ensures AllRoutable(addresses[..n + 1])
            <==> AllRoutable(addresses[..n]) && (addresses[n].IPv4? ==> addresses[n].routable)
  {
  }

  /** The distinct usable addresses of an endpoint, in the order found. */
  method HostsOf(l: Lookup) returns (r: Hosts)
    ensures r.Usable? <==> CanUse(l)
    ensures r.Usable? ==> r.ips != [] && NoRepeats(r.ips) && Elements(r.ips) == Addresses(l)
  {
    match l {
      case Malformed => return Unusable;
      case Unresolved => return Unusable;
      case Literal(a) =>
        if a.Other? || !a.routable { return Unusable; }
        return Usable([a.ip]);
      case Named(addresses) =>
        var out := [];
        for n := 0 to |addresses|
          invariant AllRoutable(addresses[..n])
          invariant NoRepeats(out) && Elements(out) == Ipv4(addresses[..n])
        {
          var a := addresses[n];
          Ipv4Push(addresses, n);
          if a.Other? { continue; }
          if !a.routable { return Unusable; }
          if a.ip in out { continue; }
          ElementsPush(out, a.ip);
          out := out + [a.ip];
        }
        assert addresses[..|addresses|] == addresses;
        if |out| == 0 {
          assert Ipv4(addresses) == {};
          return Unusable;
        }
        assert out[0] in Elements(out);
        return Usable(out);
    }
  }

  /** Both endpoints are usable and no address belongs to both. */
  predicate Apart(entry: Lookup, exit: Lookup) {
    CanUse(entry) && CanUse(exit) && Addresses(entry) !! Addresses(exit)
  }

  method ResolveEndpointIPs(entry: Lookup, exit: Lookup) returns (ok: bool, entryIPs: seq<Ip>, exitIPs: seq<Ip>)
    ensures ok <==> Apart(entry, exit)
    ensures ok ==> entryIPs != [] && NoRepeats(entryIPs) && Elements(entryIPs) == Addresses(entry)
    ensures ok ==> exitIPs != [] && NoRepeats(exitIPs) && Elements(exitIPs) == Addresses(exit)
  {
    entryIPs, exitIPs := [], [];
    var atEntry := HostsOf(entry);
    if atEntry.Unusable? { return false, [], []; }
    var atExit := HostsOf(exit);
    if atExit.Unusable? { return false, [], []; }
    var exitSet := Elements(atExit.ips);
    for n := 0 to |atEntry.ips|
      invariant forall k :: 0 <= k < n ==> atEntry.ips[k] !in exitSet
    {
      if atEntry.ips[n] in exitSet {
        assert atEntry.ips[n] in Elements(atEntry.ips);
        return false, [], [];
      }
    }
    return true, atEntry.ips, atExit.ips;
  }

  /** Every control-plane endpoint to pin is blank, or usable and not on the entry's host. */
  predicate PinsApart(entry: Lookup, pinned: seq<string>, dns: string -> Lookup) {
    forall i :: 0 <= i < |pinned| ==> PinApart(entry, pinned[i], dns)
  }

  predicate PinApart(entry: Lookup, endpoint: string, dns: string -> Lookup) {
    endpoint == "" || (CanUse(dns(endpoint)) && Addresses(dns(endpoint)) !! Addresses(entry))
  }

  function PinnedTo(pinned: seq<string>, dns: string -> Lookup): set<Ip> {
    if pinned == [] then {}
    else
      var n := |pinned| - 1;
      PinnedTo(pinned[..n], dns) + if pinned[n] == "" then {} else Addresses(dns(pinned[n]))
  }

  /**
   * The addresses to reach directly (the entry's) and those to send through the
   * outer hop (the exit's, then the pinned ones): no address appears twice and
   * none is on both lists.
   */
  method ResolveOuterRouteIPs(entry: Lookup, exit: Lookup, pinned: seq<string>, dns: string -> Lookup)
    returns (r: Pinned)
    ensures r.Routes? <==> Apart(entry, exit) && PinsApart(entry, pinned, dns)
    ensures r.Routes? ==> r.entry != [] && NoRepeats(r.entry) && Elements(r.entry) == Addresses(entry)
    ensures r.Routes? ==>
              r.outer != [] && NoRepeats(r.outer) && Elements(r.outer) == Addresses(exit) + PinnedTo(pinned, dns)
    ensures r.Routes? ==> r.outer[0] in Addresses(exit)
    ensures r.Routes? ==> Elements(r.entry) !! Elements(r.outer)
  {
    var ok, entryIPs, exitIPs := ResolveEndpointIPs(entry, exit);
    if !ok { return Rejected; }
    var entrySet := Elements(entryIPs);
    var outer := exitIPs;
    assert exitIPs[0] in Elements(exitIPs);
    assert pinned[..0] == [];
    for n := 0 to |pinned|
      invariant PinsApart(entry, pinned[..n], dns)
      invariant NoRepeats(outer) && |outer| > 0 && outer[0] == exitIPs[0]
      invariant Elements(outer) == Addresses(exit) + PinnedTo(pinned[..n], dns)
      invariant entrySet !! Elements(outer)
    {
      assert pinned[..n + 1][..n] == pinned[..n];
      assert forall i :: 0 <= i < n ==> pinned[..n + 1][i] == pinned[..n][i];
      if pinned[n] == "" { continue; }
      var more := AddPinned(entrySet, outer, dns(pinned[n]));
      if more.Unusable? {
        assert !PinApart(entry, pinned[n], dns);
        return Rejected;
      }
      outer := more.ips;
    }
    assert pinned[..|pinned|] == pinned;
    return Routes(entryIPs, outer);
  }

  /** The address is one the endpoint names, as a literal or among those its name resolves to. */
  predicate Names(l: Lookup, a: Address) { l == Literal(a) || (l.Named? && a in l.addresses) }

  /**
   * What is on the two lists: exactly the IPv4 addresses the endpoints name, the
   * pinned ones with the exit's; and every one of them can be routed to.
   */
  lemma {:induction false} ListedExactly(entry: Lookup, exit: Lookup, pinned: seq<string>, dns: string -> Lookup,
                                         ip: Ip)
    requires Apart(entry, exit) && PinsApart(entry, pinned, dns)
    ensures ip in Addresses(entry) <==> Names(entry, IPv4(ip, true))
    ensures ip in Addresses(exit) + PinnedTo(pinned, dns) <==>
            Names(exit, IPv4(ip, true)) || exists e :: e in pinned && e != "" && Names(dns(e), IPv4(ip, true))
    ensures !Names(entry, IPv4(ip, false)) && !Names(exit, IPv4(ip, false))
            && forall e :: e in pinned && e != "" ==> !Names(dns(e), IPv4(ip, false))
  {
    NamesExactly(entry, ip);
    NamesExactly(exit, ip);
    forall e | e in pinned && e != ""
      ensures (ip in Addresses(dns(e)) <==> Names(dns(e), IPv4(ip, true))) && !Names(dns(e), IPv4(ip, false))
    {
      var k :| 0 <= k < |pinned| && pinned[k] == e;
      assert PinApart(entry, pinned[k], dns);
      NamesExactly(dns(e), ip);
    }
    PinnedExactly(pinned, dns, ip);
  }

  lemma {:induction false} NamesExactly(l: Lookup, ip: Ip)
    requires CanUse(l)
    ensures ip in Addresses(l) <==> Names(l, IPv4(ip, true))
    ensures !Names(l, IPv4(ip, false))
  {
  }

  lemma {:induction false} PinnedExactly(pinned: seq<string>, dns: string -> Lookup, ip: Ip)
    ensures ip in PinnedTo(pinned, dns) <==> exists e :: e in pinned && e != "" && ip in Addresses(dns(e))
  {
    if pinned != [] {
      var n := |pinned| - 1;
      PinnedExactly(pinned[..n], dns, ip);
      assert pinned == pinned[..n] + [pinned[n]];
    }
  }

  /** Adds one endpoint's addresses to the list, unless it sits on the entry's host. */
  method AddPinned(entrySet: set<Ip>, outer: seq<Ip>, l: Lookup) returns (r: Hosts)
    requires NoRepeats(outer) && entrySet !! Elements(outer)
    ensures r.Usable? <==> CanUse(l) && Addresses(l) !! entrySet
    ensures r.Usable? ==> outer <= r.ips && NoRepeats(r.ips) && Elements(r.ips) == Elements(outer) + Addresses(l)
  {
    var found := HostsOf(l);
    if found.Unusable? { return Unusable; }
    var ips, out := found.ips, outer;
    for n := 0 to |ips|
      invariant outer <= out && NoRepeats(out) && Elements(out) == Elements(outer) + Elements(ips[..n])
      invariant Elements(ips[..n]) !! entrySet
    {
      assert ips[n] in Elements(ips);
      if ips[n] in entrySet { return Unusable; }
      assert ips[..n + 1] == ips[..n] + [ips[n]];
      ElementsPush(ips[..n], ips[n]);
      if ips[n] in out { continue; }
      ElementsPush(out, ips[n]);
      out := out + [ips[n]];
    }
    assert ips[..|ips|] == ips;
    return Usable(out);
  }
}
