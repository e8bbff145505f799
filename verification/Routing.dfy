/** IPv4 addresses, prefixes, and which route of a table a packet takes. */
module Routing {

  type Ip = n: nat | n < 0x1_0000_0000

  datatype Prefix = Prefix(ip: Ip, bits: nat)

  datatype Route = Route(prefix: Prefix, gateway: string, iface: string)

  /** How many addresses share their first bits. */
  function Block(bits: nat): (size: nat)
    ensures size > 0
    decreases 32 - bits
  {
    if bits >= 32 then 1 else 2 * Block(bits + 1)
  }

  /** The address agrees with the prefix in its first bits. */
  predicate Covers(p: Prefix, x: Ip) { p.bits <= 32 && x / Block(p.bits) == p.ip / Block(p.bits) }

  /** A longest match for the address. */
  ghost predicate Best(table: multiset<Route>, x: Ip, r: Route) {
    && r in table && Covers(r.prefix, x)
    && forall q :: q in table && Covers(q.prefix, x) ==> q.prefix.bits <= r.prefix.bits
  }

  /** The table sends packets for the address that way, whichever longest match it takes. */
  ghost predicate Sends(table: multiset<Route>, x: Ip, gateway: string, iface: string) {
    && (exists r :: Best(table, x, r))
    && forall r :: Best(table, x, r) ==> r.gateway == gateway && r.iface == iface
  }

  /** Every route of the table for the address is shorter than that. */
  ghost predicate Uncontested(table: multiset<Route>, x: Ip, bits: nat) {
    forall r :: r in table && Covers(r.prefix, x) ==> r.prefix.bits < bits
  }

  /** A host prefix covers its address and no other. */
  lemma {:induction false} HostCoversOne(ip: Ip, x: Ip)
    ensures Covers(Prefix(ip, 32), x) <==> x == ip
  {
  }

  /** A prefix of one bit covers one half of all addresses. */
  lemma {:induction false} HalfCovers(ip: Ip, x: Ip)
    ensures Covers(Prefix(ip, 1), x) <==> (x < 0x8000_0000 <==> ip < 0x8000_0000)
  {
    assert Block(17) == 0x8000;
    assert Block(9) == 0x80_0000;
    assert Block(5) == 0x800_0000 && Block(3) == 0x2000_0000;
    assert Block(1) == 0x8000_0000;
  }

  /**
   * A route added to a table takes the address over exactly when no route the
   * table had is as long, given that no other added route covering it is and that
   * none of the old ones goes out the same interface.
   */
  lemma {:induction false} TakesOver(own: multiset<Route>, added: seq<Route>, x: Ip, r: Route)
    requires r in added && Covers(r.prefix, x)
    requires forall q :: q in added && Covers(q.prefix, x) && q != r ==> q.prefix.bits < r.prefix.bits
    ensures Uncontested(own, x, r.prefix.bits) ==> Sends(own + multiset(added), x, r.gateway, r.iface)
    ensures (forall q :: q in own ==> q.iface != r.iface) ==>
              (Sends(own + multiset(added), x, r.gateway, r.iface) ==> Uncontested(own, x, r.prefix.bits))
  {
    var table := own + multiset(added);
    if Uncontested(own, x, r.prefix.bits) {
      assert Best(table, x, r);
    } else if forall q :: q in own ==> q.iface != r.iface {
      var q :| q in own && Covers(q.prefix, x) && q.prefix.bits >= r.prefix.bits;
      var b := LongestFrom(own, x, q);
      assert Best(table, x, b);
    }
  }

  /** There is a longest match among a table's routes for an address, at least as long as a given one. */
  lemma {:induction false} LongestFrom(table: multiset<Route>, x: Ip, q: Route) returns (b: Route)
    requires q in table && Covers(q.prefix, x)
    ensures Best(table, x, b) && b.prefix.bits >= q.prefix.bits
    decreases 32 - q.prefix.bits
  {
    if p :| p in table && Covers(p.prefix, x) && p.prefix.bits > q.prefix.bits {
      b := LongestFrom(table, x, p);
    } else {
      b := q;
    }
  }
}
