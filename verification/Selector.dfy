/** Choosing an entry and an exit node on the client. */
module Selector {

  datatype Role = EntryOnly | ExitOnly | Both | Unknown

  datatype Transport = Unnamed | WireGuard | Named(name: string)

  datatype Id = Id(text: string)

  datatype Capability = Capability(transport: Transport, endpoint: string, connectURL: string)

  /** NoOperator stands for a node whose operator the hub did not attest. */
  datatype Operator = NoOperator | Operator(id: string)

  datatype Node = Node(id: Id, pubkey: Id, operator: Operator, role: Role, endpoint: string, connectURL: string,
                       transports: seq<Capability>)

  datatype Pair = Pair(entry: Node, exit: Node, transport: Transport)

  datatype Choice = NoEntryNodes | NoExitNodes | NoCompatiblePair | RandomFailed | Selected(pair: Pair)

  datatype Projection = NotOffered | Offered(node: Node)

  predicate CanEnter(n: Node) { n.role == EntryOnly || n.role == Both }

  predicate CanExit(n: Node) { n.role == ExitOnly || n.role == Both }

  predicate Usable(c: Capability, transport: Transport) { c.transport == transport && c.endpoint != "" }

  /** The first capability for a transport that has an endpoint, or the number of capabilities. */
  function FirstUsable(caps: seq<Capability>, transport: Transport): (k: nat)
    ensures k <= |caps| && (k < |caps| ==> Usable(caps[k], transport))
    ensures forall i :: 0 <= i < k ==> !Usable(caps[i], transport)
  {
    if caps == [] || Usable(caps[0], transport) then 0 else 1 + FirstUsable(caps[1..], transport)
  }

  /** How a node is reached over a transport, if it is. */
  function Projected(n: Node, transport: Transport, needURL: bool): Projection {
    if transport == Unnamed then NotOffered
    else if n.transports == [] then
      if transport != WireGuard || n.endpoint == "" || (needURL && n.connectURL == "") then NotOffered else Offered(n)
    else
      var k := FirstUsable(n.transports, transport);
      if k == |n.transports| || (needURL && n.transports[k].connectURL == "") then NotOffered
      else Offered(n.(endpoint := n.transports[k].endpoint, connectURL := n.transports[k].connectURL))
  }

  /** The node can be reached over a transport with its i-th capability: the first for it with an endpoint. */
  predicate ReachedWith(n: Node, transport: Transport, needURL: bool, i: int) {
    && 0 <= i < |n.transports| && n.transports[i].transport == transport && n.transports[i].endpoint != ""
    && (needURL ==> n.transports[i].connectURL != "")
    && forall j :: 0 <= j < i ==> n.transports[j].transport != transport || n.transports[j].endpoint == ""
  }

  /**
   * A node is offered over a transport exactly with the endpoint and URL of its
   * first capability for it that has an endpoint; one that lists no capability is
   * offered over WireGuard with its own.
   */
  lemma {:induction false} ProjectedExact(n: Node, transport: Transport, needURL: bool)
    ensures var p := Projected(n, transport, needURL);
            && (p.Offered? <==> transport != Unnamed
                                && if n.transports == []
                                   then transport == WireGuard && n.endpoint != "" && (needURL ==> n.connectURL != "")
                                   else exists i :: ReachedWith(n, transport, needURL, i))
            && (p.Offered? && n.transports == [] ==> p.node == n)
            && forall i :: p.Offered? && ReachedWith(n, transport, needURL, i) ==>
                 p.node == n.(endpoint := n.transports[i].endpoint, connectURL := n.transports[i].connectURL)
  {
    var k := FirstUsable(n.transports, transport);
    if k < |n.transports| && (needURL ==> n.transports[k].connectURL != "") {
      assert ReachedWith(n, transport, needURL, k);
    }
  }

  predicate Offers(n: Node, transport: Transport, needURL: bool) { Projected(n, transport, needURL).Offered? }

  /** Two nodes that may serve as entry and exit. */
  predicate Qualifies(e: Node, x: Node, transport: Transport, needURL: bool, sameOperator: bool) {
    && e.pubkey != x.pubkey
    && (sameOperator || e.operator == NoOperator || e.operator != x.operator)
    && Offers(e, transport, needURL) && Offers(x, transport, needURL)
  }

  function PairOf(e: Node, x: Node, transport: Transport, needURL: bool): Pair
    requires Offers(e, transport, needURL) && Offers(x, transport, needURL)
  {
    Pair(Projected(e, transport, needURL).node, Projected(x, transport, needURL).node, transport)
  }

  /** Some qualifying pair of these nodes, with its roles, is the given one. */
  ghost predicate PairFrom(p: Pair, entries: seq<Node>, exits: seq<Node>, transport: Transport, needURL: bool,
                           sameOperator: bool) {
    exists e, x :: e in entries && x in exits && Makes(p, e, x, transport, needURL, sameOperator)
  }

  predicate Makes(p: Pair, e: Node, x: Node, transport: Transport, needURL: bool, sameOperator: bool) {
    Qualifies(e, x, transport, needURL, sameOperator) && p == PairOf(e, x, transport, needURL)
  }

  ghost predicate Available(entries: seq<Node>, exits: seq<Node>, transport: Transport, needURL: bool,
                            sameOperator: bool) {
    exists e, x :: e in entries && x in exits && Qualifies(e, x, transport, needURL, sameOperator)
  }

  /** Keeps the first usable capability of each named transport. */
  method Capabilities(n: Node) returns (caps: seq<Capability>)
    requires n.transports != []
    ensures forall t :: t != Unnamed ==> FirstOf(caps, n.transports, t)
    ensures forall j :: 0 <= j < |caps| ==> caps[j].endpoint != ""
  {
    caps := [];
    var seen: set<Transport> := {};
    assert n.transports[..0] == [];
    for i := 0 to |n.transports|
      invariant forall t :: t != Unnamed ==> FirstOf(caps, n.transports[..i], t)
      invariant forall t :: t != Unnamed ==> (t in seen <==> Has(caps, t))
      invariant forall j :: 0 <= j < |caps| ==> caps[j].endpoint != ""
    {
      var c := n.transports[i];
      assert n.transports[..i + 1] == n.transports[..i] + [c];
      ghost var before, now, next := caps, n.transports[..i], n.transports[..i + 1];
      if c.transport == Unnamed || c.endpoint == "" || c.transport in seen {
        forall t | t != Unnamed ensures FirstOf(before, next, t) { Skipped(before, now, c, t); }
      } else {
        seen := seen + {c.transport};
        caps := caps + [c];
        forall t | t != Unnamed
          ensures FirstOf(caps, next, t) && (Has(caps, t) <==> Has(before, t) || t == c.transport)
        {
          Added(before, now, c, t);
        }
      }
    }
    assert n.transports[..|n.transports|] == n.transports;
  }

  predicate Has(caps: seq<Capability>, t: Transport) { FirstUsable(caps, t) < |caps| }

  /** The same capability comes first for the transport in both lists, or in neither. */
  predicate FirstOf(caps: seq<Capability>, all: seq<Capability>, t: Transport) {
    var j, k := FirstUsable(caps, t), FirstUsable(all, t);
    if k == |all| then j == |caps| else j < |caps| && caps[j] == all[k]
  }

  lemma {:induction false} FirstPush(caps: seq<Capability>, c: Capability, t: Transport)
    ensures var k := FirstUsable(caps, t);
            FirstUsable(caps + [c], t) == if k < |caps| || Usable(c, t) then k else |caps| + 1
  {
    if caps != [] && !Usable(caps[0], t) {
      assert (caps + [c])[1..] == caps[1..] + [c];
      FirstPush(caps[1..], c, t);
    } else if caps == [] {
      assert [] + [c] == [c];
    }
  }

  lemma {:induction false} Skipped(caps: seq<Capability>, all: seq<Capability>, c: Capability, t: Transport)
    requires t != Unnamed && FirstOf(caps, all, t)
    requires c.transport == Unnamed || c.endpoint == "" || Has(caps, c.transport)
    ensures FirstOf(caps, all + [c], t)
  {
    FirstPush(all, c, t);
  }

  lemma {:induction false} Added(caps: seq<Capability>, all: seq<Capability>, c: Capability, t: Transport)
    requires t != Unnamed && FirstOf(caps, all, t)
    requires c.transport != Unnamed && c.endpoint != ""
    ensures FirstOf(caps + [c], all + [c], t) && (Has(caps + [c], t) <==> Has(caps, t) || t == c.transport)
  {
    FirstPush(all, c, t);
    FirstPush(caps, c, t);
  }

  method ProjectNode(n: Node, transport: Transport, needURL: bool) returns (r: Projection)
    ensures r == Projected(n, transport, needURL)
  {
    if transport == Unnamed { return NotOffered; }
    if |n.transports| == 0 {
      if transport != WireGuard || n.endpoint == "" { return NotOffered; }
      if needURL && n.connectURL == "" { return NotOffered; }
      return Offered(n);
    }
    var caps := Capabilities(n);
    assert FirstOf(caps, n.transports, transport);
    for i := 0 to |caps|
      invariant FirstUsable(caps, transport) >= i
    {
      if caps[i].transport != transport { continue; }
      if caps[i].endpoint == "" { return NotOffered; }
      if needURL && caps[i].connectURL == "" { return NotOffered; }
      return Offered(n.(endpoint := caps[i].endpoint, connectURL := caps[i].connectURL));
    }
    return NotOffered;
  }

  function Entries(nodes: seq<Node>): (r: seq<Node>)
    ensures forall n :: n in r <==> n in nodes && CanEnter(n)
  {
    if nodes == [] then []
    else
      var k := |nodes| - 1;
      var before := Entries(nodes[..k]);
      assert nodes == nodes[..k] + [nodes[k]];
      if CanEnter(nodes[k]) then before + [nodes[k]] else before
  }

  function Exits(nodes: seq<Node>): (r: seq<Node>)
    ensures forall n :: n in r <==> n in nodes && CanExit(n)
  {
    if nodes == [] then []
    else
      var k := |nodes| - 1;
      var before := Exits(nodes[..k]);
      assert nodes == nodes[..k] + [nodes[k]];
      if CanExit(nodes[k]) then before + [nodes[k]] else before
  }

  method NodesByRole(nodes: seq<Node>) returns (entries: seq<Node>, exits: seq<Node>)
    ensures entries == Entries(nodes) && exits == Exits(nodes)
  {
    entries, exits := [], [];
    for i := 0 to |nodes|
      invariant entries == Entries(nodes[..i]) && exits == Exits(nodes[..i])
    {
      assert nodes[..i + 1][..i] == nodes[..i];
      match nodes[i].role {
        case EntryOnly => entries := entries + [nodes[i]];
        case ExitOnly => exits := exits + [nodes[i]];
        case Both => entries, exits := entries + [nodes[i]], exits + [nodes[i]];
        case Unknown =>
      }
    }
    assert nodes[..|nodes|] == nodes;
  }

  ghost predicate PairWith(p: Pair, e: Node, exits: seq<Node>, transport: Transport, needURL: bool,
                           sameOperator: bool) {
    exists x :: x in exits && Makes(p, e, x, transport, needURL, sameOperator)
  }

  lemma {:induction false} PairWithPush(p: Pair, e: Node, exits: seq<Node>, x: Node, transport: Transport,
                                        needURL: bool, sameOperator: bool)
    ensures PairWith(p, e, exits + [x], transport, needURL, sameOperator)
            <==> PairWith(p, e, exits, transport, needURL, sameOperator)
                 || Makes(p, e, x, transport, needURL, sameOperator)
  {
    if Makes(p, e, x, transport, needURL, sameOperator) { assert x in exits + [x]; }
    if PairWith(p, e, exits, transport, needURL, sameOperator) {
      var y :| y in exits && Makes(p, e, y, transport, needURL, sameOperator);
      assert y in exits + [x];
    }
  }

  /** The candidates this entry forms with the exits. */
  method CandidatesOf(entry: Node, exits: seq<Node>, transport: Transport, needURL: bool, sameOperator: bool)
    returns (candidates: seq<Pair>)
    ensures forall p :: p in candidates <==> PairWith(p, entry, exits, transport, needURL, sameOperator)
    ensures |candidates| <= |exits|
  {
    candidates := [];
    var e := ProjectNode(entry, transport, needURL);
    if e.NotOffered? { return; }
    for i := 0 to |exits|
      invariant forall p :: p in candidates <==> PairWith(p, entry, exits[..i], transport, needURL, sameOperator)
      invariant |candidates| <= i
    {
      var exit := exits[i];
      ghost var now, next, before := exits[..i], exits[..i + 1], candidates;
      assert next == now + [exit];
      var x := ProjectNode(exit, transport, needURL);
      var together := entry.operator != NoOperator && entry.operator == exit.operator;
      if !(entry.pubkey == exit.pubkey || (!sameOperator && together)) {
        if x.Offered? { candidates := candidates + [Pair(e.node, x.node, transport)]; }
      }
      forall p ensures p in candidates <==> PairWith(p, entry, next, transport, needURL, sameOperator) {
        PairWithPush(p, entry, now, exit, transport, needURL, sameOperator);
        assert p in candidates <==> p in before || Makes(p, entry, exit, transport, needURL, sameOperator);
      }
    }
    assert exits[..|exits|] == exits;
  }

  /** Every qualifying pair is a candidate and every candidate is one. */
  method CollectCandidates(entries: seq<Node>, exits: seq<Node>, transport: Transport, needURL: bool,
                           sameOperator: bool)
    returns (candidates: seq<Pair>)
    ensures forall p :: p in candidates <==> PairFrom(p, entries, exits, transport, needURL, sameOperator)
    ensures |entries| == 1 && |exits| == 1 ==> |candidates| <= 1
  {
    candidates := [];
    for i := 0 to |entries|
      invariant forall p :: p in candidates <==> PairFrom(p, entries[..i], exits, transport, needURL, sameOperator)
      invariant i <= 1 && |exits| == 1 ==> |candidates| <= i
    {
      var more := CandidatesOf(entries[i], exits, transport, needURL, sameOperator);
      ghost var now, next, before := entries[..i], entries[..i + 1], candidates;
      assert next == now + [entries[i]];
      candidates := candidates + more;
      forall p ensures p in candidates <==> PairFrom(p, next, exits, transport, needURL, sameOperator) {
        PairFromPush(p, now, entries[i], exits, transport, needURL, sameOperator);
        assert p in candidates <==> p in before || p in more;
      }
    }
    assert entries[..|entries|] == entries;
  }

  lemma {:induction false} PairFromPush(p: Pair, entries: seq<Node>, e: Node, exits: seq<Node>, transport: Transport,
                                        needURL: bool, sameOperator: bool)
    ensures PairFrom(p, entries + [e], exits, transport, needURL, sameOperator)
            <==> PairFrom(p, entries, exits, transport, needURL, sameOperator)
                 || PairWith(p, e, exits, transport, needURL, sameOperator)
  {
    if PairWith(p, e, exits, transport, needURL, sameOperator) {
      assert e in entries + [e];
    }
    if PairFrom(p, entries, exits, transport, needURL, sameOperator) {
      var n, x :| n in entries && x in exits && Makes(p, n, x, transport, needURL, sameOperator);
      assert n in entries + [e];
    }
  }

  lemma {:induction false} AvailableMeansPair(entries: seq<Node>, exits: seq<Node>, transport: Transport, needURL: bool,
                                              sameOperator: bool)
    ensures Available(entries, exits, transport, needURL, sameOperator)
            <==> exists p :: PairFrom(p, entries, exits, transport, needURL, sameOperator)
  {
    if Available(entries, exits, transport, needURL, sameOperator) {
      var e, x :| e in entries && x in exits && Qualifies(e, x, transport, needURL, sameOperator);
      assert Makes(PairOf(e, x, transport, needURL), e, x, transport, needURL, sameOperator);
      assert PairFrom(PairOf(e, x, transport, needURL), entries, exits, transport, needURL, sameOperator);
    }
  }

  /** Which pairs a policy allows, on one transport or on any. */
  datatype Policy = Policy(preferred: seq<Transport>, permitted: set<Transport>, needURL: bool)

  ghost predicate CanPair(entries: seq<Node>, exits: seq<Node>, policy: Policy, k: int, sameOperator: bool)
    requires 0 <= k < |policy.preferred|
  {
    policy.preferred[k] in policy.permitted
    && Available(entries, exits, policy.preferred[k], policy.needURL, sameOperator)
  }

  /** The first preferred transport a pair can be had on, or the number of preferences. */
  ghost predicate FirstChoice(entries: seq<Node>, exits: seq<Node>, policy: Policy, sameOperator: bool, k: int) {
    && 0 <= k <= |policy.preferred|
    && (k < |policy.preferred| ==> CanPair(entries, exits, policy, k, sameOperator))
    && forall j :: 0 <= j < k ==> !CanPair(entries, exits, policy, j, sameOperator)
  }

  /** A pair on the first transport any can be had on; no pair only when none can. */
  ghost predicate ChosenWell(c: Choice, entries: seq<Node>, exits: seq<Node>, policy: Policy, sameOperator: bool) {
    match c
    case NoEntryNodes => entries == []
    case NoExitNodes => entries != [] && exits == []
    case NoCompatiblePair =>
      entries != [] && exits != [] && FirstChoice(entries, exits, policy, sameOperator, |policy.preferred|)
    case RandomFailed =>
      entries != [] && exits != [] && !FirstChoice(entries, exits, policy, sameOperator, |policy.preferred|)
    case Selected(p) =>
      exists k :: 0 <= k < |policy.preferred| && FirstChoice(entries, exits, policy, sameOperator, k)
                  && PairFrom(p, entries, exits, policy.preferred[k], policy.needURL, sameOperator)
  }

  /** Randomness: a position below n, or -1 when the source of randomness failed. */
  ghost predicate Draws(draw: nat -> int) { forall n: nat :: n > 0 ==> -1 <= draw(n) < n }

  method PairWithPolicy(entries: seq<Node>, exits: seq<Node>, policy: Policy, sameOperator: bool, draw: nat -> int)
    returns (c: Choice)
    requires Draws(draw)
    ensures ChosenWell(c, entries, exits, policy, sameOperator)
    ensures |entries| == 1 && |exits| == 1 ==> !c.RandomFailed?
  {
    if |entries| == 0 { return NoEntryNodes; }
    if |exits| == 0 { return NoExitNodes; }
    for k := 0 to |policy.preferred|
      invariant forall j :: 0 <= j < k ==> !CanPair(entries, exits, policy, j, sameOperator)
    {
      var transport := policy.preferred[k];
      if transport !in policy.permitted { continue; }
      var candidates := CollectCandidates(entries, exits, transport, policy.needURL, sameOperator);
      AvailableMeansPair(entries, exits, transport, policy.needURL, sameOperator);
      if |candidates| == 0 { continue; }
      assert candidates[0] in candidates;
      assert FirstChoice(entries, exits, policy, sameOperator, k);
      var at := if |candidates| == 1 then 0 else draw(|candidates|);
      if at < 0 { return RandomFailed; }
      assert candidates[at] in candidates;
      return Selected(candidates[at]);
    }
    return NoCompatiblePair;
  }

  /** Chosen with the operators apart, or, only if that is impossible on every transport, without. */
  ghost predicate Independent(c: Choice, nodes: seq<Node>, policy: Policy) {
    var entries, exits := Entries(nodes), Exits(nodes);
    if entries != [] && exits != [] && FirstChoice(entries, exits, policy, false, |policy.preferred|)
    then ChosenWell(c, entries, exits, policy, true)
    else ChosenWell(c, entries, exits, policy, false)
  }

  /**
   * Two nodes of different operators if any can be paired at all, on the first
   * transport they can be paired on; two of one operator only otherwise.
   */
  method PairIndependentNodes(nodes: seq<Node>, policy: Policy, draw: nat -> int) returns (c: Choice)
    requires Draws(draw)
    ensures Independent(c, nodes, policy)
    ensures |Entries(nodes)| == 1 && |Exits(nodes)| == 1 ==> !c.RandomFailed?
  {
    var entries, exits := NodesByRole(nodes);
    c := PairWithPolicy(entries, exits, policy, false, draw);
    if !c.NoCompatiblePair? {
      if c.Selected? { ChosenFirst(c, entries, exits, policy, false); }
      return;
    }
    c := PairWithPolicy(entries, exits, policy, true, draw);
  }

  lemma {:induction false} ChosenFirst(c: Choice, entries: seq<Node>, exits: seq<Node>, policy: Policy,
                                       sameOperator: bool)
    requires c.Selected? && ChosenWell(c, entries, exits, policy, sameOperator)
    ensures !FirstChoice(entries, exits, policy, sameOperator, |policy.preferred|)
  {
    var k :| 0 <= k < |policy.preferred| && FirstChoice(entries, exits, policy, sameOperator, k)
             && PairFrom(c.pair, entries, exits, policy.preferred[k], policy.needURL, sameOperator);
    assert CanPair(entries, exits, policy, k, sameOperator);
  }

  /** What a reader may rely on about a selected pair, whatever the policy and the randomness. */
  lemma {:induction false} SelectedIsSound(c: Choice, nodes: seq<Node>, policy: Policy)
    requires Independent(c, nodes, policy) && c.Selected?
    ensures c.pair.entry.pubkey != c.pair.exit.pubkey
    ensures c.pair.entry.role in {EntryOnly, Both} && c.pair.exit.role in {ExitOnly, Both}
    ensures c.pair.transport in policy.preferred && c.pair.transport in policy.permitted
    ensures c.pair.entry.endpoint != "" && c.pair.exit.endpoint != ""
    ensures policy.needURL ==> c.pair.entry.connectURL != "" && c.pair.exit.connectURL != ""
    ensures c.pair.entry.operator == c.pair.exit.operator != NoOperator ==>
              forall k :: 0 <= k < |policy.preferred| ==> !CanPair(Entries(nodes), Exits(nodes), policy, k, false)
  {
    var entries, exits := Entries(nodes), Exits(nodes);
    var same := FirstChoice(entries, exits, policy, false, |policy.preferred|);
    if entries == [] || exits == [] || !same {
      var k :| 0 <= k < |policy.preferred| && FirstChoice(entries, exits, policy, false, k)
               && PairFrom(c.pair, entries, exits, policy.preferred[k], policy.needURL, false);
      FromQualified(c.pair, entries, exits, policy, k, false);
    } else {
      var k :| 0 <= k < |policy.preferred| && FirstChoice(entries, exits, policy, true, k)
               && PairFrom(c.pair, entries, exits, policy.preferred[k], policy.needURL, true);
      FromQualified(c.pair, entries, exits, policy, k, true);
    }
  }

  lemma {:induction false} FromQualified(p: Pair, entries: seq<Node>, exits: seq<Node>, policy: Policy, k: int,
                                         sameOperator: bool)
    requires 0 <= k < |policy.preferred| && CanPair(entries, exits, policy, k, sameOperator)
    requires PairFrom(p, entries, exits, policy.preferred[k], policy.needURL, sameOperator)
    ensures p.entry.pubkey != p.exit.pubkey && p.transport == policy.preferred[k]
    ensures p.entry.endpoint != "" && p.exit.endpoint != ""
    ensures policy.needURL ==> p.entry.connectURL != "" && p.exit.connectURL != ""
    ensures sameOperator || p.entry.operator == NoOperator || p.entry.operator != p.exit.operator
    ensures exists e, x :: e in entries && x in exits && p.entry.role == e.role && p.exit.role == x.role
                           && p.entry.id == e.id && p.exit.id == x.id
  {
    var e, x :| e in entries && x in exits && Makes(p, e, x, policy.preferred[k], policy.needURL, sameOperator);
  }

  /**
   * Nothing is overlooked: when no pair is reported, no two nodes in their roles
   * with keys of their own can both be reached over one preferred transport the
   * policy permits; and when two nodes of one operator are selected, none of
   * different operators, or of an operator not attested, can.
   */
  lemma {:induction false} NoneOverlooked(c: Choice, nodes: seq<Node>, policy: Policy, e: Node, x: Node, k: nat)
    requires Independent(c, nodes, policy) && e in nodes && x in nodes && e.pubkey != x.pubkey
    requires e.role in {EntryOnly, Both} && x.role in {ExitOnly, Both}
    requires k < |policy.preferred| && policy.preferred[k] in policy.permitted
    requires Projected(e, policy.preferred[k], policy.needURL).Offered?
             && Projected(x, policy.preferred[k], policy.needURL).Offered?
    ensures c.Selected? || c.RandomFailed?
    ensures c.Selected? && c.pair.entry.operator == c.pair.exit.operator != NoOperator ==>
              e.operator == x.operator != NoOperator
  {
    var entries, exits := Entries(nodes), Exits(nodes);
    assert e in entries && x in exits;
    assert Qualifies(e, x, policy.preferred[k], policy.needURL, true);
    assert CanPair(entries, exits, policy, k, true);
    if !(e.operator == x.operator != NoOperator) {
      assert Qualifies(e, x, policy.preferred[k], policy.needURL, false);
      assert CanPair(entries, exits, policy, k, false);
    }
    if c.Selected? { SelectedIsSound(c, nodes, policy); }
  }

  // Pinned pairs.

  datatype Pin = Pin(entryID: Id, exitID: Id)

  datatype Restricted = PinnedNodeOffline | PinnedSameNode | Narrowed(nodes: seq<Node>)

  predicate IsEntry(n: Node, pin: Pin) { n.id == pin.entryID && CanEnter(n) }

  predicate IsExit(n: Node, pin: Pin) { n.id == pin.exitID && CanExit(n) }

  /** The last node listed that can be the pinned entry, or -1. */
  function LastEntry(nodes: seq<Node>, pin: Pin): (k: int)
    ensures -1 <= k < |nodes| && (k >= 0 ==> IsEntry(nodes[k], pin))
    ensures forall j :: 0 <= j < |nodes| && IsEntry(nodes[j], pin) ==> j <= k
  {
    if nodes == [] then -1
    else if IsEntry(nodes[|nodes| - 1], pin) then |nodes| - 1
    else LastEntry(nodes[..|nodes| - 1], pin)
  }

  function LastExit(nodes: seq<Node>, pin: Pin): (k: int)
    ensures -1 <= k < |nodes| && (k >= 0 ==> IsExit(nodes[k], pin))
    ensures forall j :: 0 <= j < |nodes| && IsExit(nodes[j], pin) ==> j <= k
  {
    if nodes == [] then -1
    else if IsExit(nodes[|nodes| - 1], pin) then |nodes| - 1
    else LastExit(nodes[..|nodes| - 1], pin)
  }

  predicate SameNode(e: Node, x: Node) { e.pubkey == x.pubkey || e.id == x.id }

  /** Both pinned nodes are listed in their roles, as two nodes. */
  predicate PinnedListed(nodes: seq<Node>, pin: Pin) {
    var e, x := LastEntry(nodes, pin), LastExit(nodes, pin);
    e >= 0 && x >= 0 && !SameNode(nodes[e], nodes[x])
  }

  function PinnedEntry(nodes: seq<Node>, pin: Pin): Node
    requires PinnedListed(nodes, pin)
  {
    nodes[LastEntry(nodes, pin)].(role := EntryOnly)
  }

  function PinnedExit(nodes: seq<Node>, pin: Pin): Node
    requires PinnedListed(nodes, pin)
  {
    nodes[LastExit(nodes, pin)].(role := ExitOnly)
  }

  /** Narrows the list to the chosen two, each reduced to its one role. */
  method RestrictToPinned(nodes: seq<Node>, pin: Pin) returns (r: Restricted)
    ensures r.PinnedNodeOffline? <==>
            (forall n :: n in nodes ==> !IsEntry(n, pin)) || (forall n :: n in nodes ==> !IsExit(n, pin))
    ensures r.Narrowed? <==> PinnedListed(nodes, pin)
    ensures r.Narrowed? ==> r.nodes == [PinnedEntry(nodes, pin), PinnedExit(nodes, pin)]
    ensures r.Narrowed? ==>
              && |r.nodes| == 2 && r.nodes[0].id == pin.entryID && r.nodes[1].id == pin.exitID
              && r.nodes[0].role == EntryOnly && r.nodes[1].role == ExitOnly
              && r.nodes[0].id != r.nodes[1].id && r.nodes[0].pubkey != r.nodes[1].pubkey
    ensures r.PinnedSameNode? ==>
              exists e, x :: e in nodes && x in nodes && e.id == pin.entryID && x.id == pin.exitID
                             && (e.id == x.id || e.pubkey == x.pubkey)
  {
    var entry, exit := -1, -1;
    for i := 0 to |nodes|
      invariant entry == LastEntry(nodes[..i], pin) && exit == LastExit(nodes[..i], pin)
    {
      assert nodes[..i + 1][..i] == nodes[..i];
      if IsEntry(nodes[i], pin) { entry := i; }
      if IsExit(nodes[i], pin) { exit := i; }
    }
    assert nodes[..|nodes|] == nodes;
    if entry == -1 || exit == -1 { return PinnedNodeOffline; }
    var e, x := nodes[entry], nodes[exit];
    assert e in nodes && x in nodes;
    if e.pubkey == x.pubkey || e.id == x.id { return PinnedSameNode; }
    return Narrowed([e.(role := EntryOnly), x.(role := ExitOnly)]);
  }

  datatype PinState = Free | Pinned(pin: Pin) | Planned(plan: Pin)

  datatype Outcome = Unavailable | NoTransport | Chosen(choice: Choice)

  function PinOf(pins: PinState): Pin
    requires !pins.Free?
  {
    if pins.Pinned? then pins.pin else pins.plan
  }

  /** Both nodes can be reached over the k-th preferred transport, and the policy permits it. */
  predicate Carries(e: Node, x: Node, policy: Policy, k: int)
    requires 0 <= k < |policy.preferred|
  {
    var transport := policy.preferred[k];
    transport in policy.permitted && Offers(e, transport, policy.needURL) && Offers(x, transport, policy.needURL)
  }

  /** This very pair is selected, on the first preferred transport that carries it; none only when none does. */
  ghost predicate PairServed(c: Choice, e: Node, x: Node, policy: Policy) {
    match c
    case Selected(p) =>
      exists k :: 0 <= k < |policy.preferred| && Carries(e, x, policy, k)
                  && p == PairOf(e, x, policy.preferred[k], policy.needURL)
                  && forall j :: 0 <= j < k ==> !Carries(e, x, policy, j)
    case NoCompatiblePair => forall j :: 0 <= j < |policy.preferred| ==> !Carries(e, x, policy, j)
    case _ => false
  }

  /**
   * A pinned pair, or failing that the pair shown to the user, is selected
   * whenever both nodes are listed and some preferred transport carries both;
   * nothing else ever is. With neither, any independent pair.
   */
  method SelectPair(nodes: seq<Node>, pins: PinState, policy: Policy, draw: nat -> int) returns (o: Outcome)
    requires Draws(draw)
    ensures o.Unavailable? <==> !pins.Free? && !PinnedListed(nodes, PinOf(pins))
    ensures o.NoTransport? <==> !o.Unavailable? && policy.permitted == {}
    ensures o.Chosen? && !pins.Free? ==>
              PairServed(o.choice, PinnedEntry(nodes, PinOf(pins)), PinnedExit(nodes, PinOf(pins)), policy)
    ensures o.Chosen? && pins.Free? ==> Independent(o.choice, nodes, policy)
    ensures o.Chosen? && !pins.Free? && o.choice.Selected? ==>
              o.choice.pair.entry.id == PinOf(pins).entryID && o.choice.pair.exit.id == PinOf(pins).exitID
  {
    var from := nodes;
    if !pins.Free? {
      var r := RestrictToPinned(nodes, PinOf(pins));
      if !r.Narrowed? { return Unavailable; }
      from := r.nodes;
    }
    if policy.permitted == {} { return NoTransport; }
    if !pins.Free? { OnePerRole(from); }
    var choice := PairIndependentNodes(from, policy, draw);
    if !pins.Free? { PinnedIsServed(choice, from, policy); }
    return Chosen(choice);
  }

  predicate OneOfEach(nodes: seq<Node>) {
    |nodes| == 2 && nodes[0].role == EntryOnly && nodes[1].role == ExitOnly && nodes[0].pubkey != nodes[1].pubkey
  }

  lemma {:induction false} RolesPush(nodes: seq<Node>, n: Node)
    ensures Entries(nodes + [n]) == if CanEnter(n) then Entries(nodes) + [n] else Entries(nodes)
    ensures Exits(nodes + [n]) == if CanExit(n) then Exits(nodes) + [n] else Exits(nodes)
  {
    assert (nodes + [n])[..|nodes|] == nodes;
  }

  lemma {:induction false} OnePerRole(nodes: seq<Node>)
    requires OneOfEach(nodes)
    ensures Entries(nodes) == [nodes[0]] && Exits(nodes) == [nodes[1]]
  {
    var none: seq<Node>, one := [], nodes[..1];
    assert none + [nodes[0]] == one && one + [nodes[1]] == nodes;
    RolesPush(none, nodes[0]);
    assert Entries(one) == one && Exits(one) == none;
    RolesPush(one, nodes[1]);
  }

  /** With one node in each role, a pair can be had exactly where the transport carries both. */
  lemma {:induction false} OnlyPair(e: Node, x: Node, policy: Policy, k: int, sameOperator: bool)
    requires 0 <= k < |policy.preferred| && e.pubkey != x.pubkey
    ensures CanPair([e], [x], policy, k, sameOperator) <==>
            Carries(e, x, policy, k) && (sameOperator || Separate(e, x))
    ensures Carries(e, x, policy, k) ==>
              forall p :: PairFrom(p, [e], [x], policy.preferred[k], policy.needURL, sameOperator) ==>
                p == PairOf(e, x, policy.preferred[k], policy.needURL)
  {
    assert e in [e] && x in [x];
  }

  predicate Separate(e: Node, x: Node) { e.operator == NoOperator || e.operator != x.operator }

  /** Served in the round that ignores operators, or in the one that keeps them apart if it can serve anything. */
  lemma {:induction false} RoundServes(c: Choice, e: Node, x: Node, policy: Policy, same: bool)
    requires e.pubkey != x.pubkey && ChosenWell(c, [e], [x], policy, same) && !c.RandomFailed?
    requires same || Separate(e, x)
    ensures PairServed(c, e, x, policy)
  {
    forall k | 0 <= k < |policy.preferred| ensures CanPair([e], [x], policy, k, same) <==> Carries(e, x, policy, k) {
      OnlyPair(e, x, policy, k, same);
    }
    if c.Selected? {
      var k :| 0 <= k < |policy.preferred| && FirstChoice([e], [x], policy, same, k)
               && PairFrom(c.pair, [e], [x], policy.preferred[k], policy.needURL, same);
      OnlyPair(e, x, policy, k, same);
      assert Carries(e, x, policy, k) && forall j :: 0 <= j < k ==> !Carries(e, x, policy, j);
    }
  }

  lemma {:induction false} PinnedIsServed(c: Choice, nodes: seq<Node>, policy: Policy)
    requires OneOfEach(nodes) && Independent(c, nodes, policy) && !c.RandomFailed?
    ensures PairServed(c, nodes[0], nodes[1], policy)
  {
    var e, x := nodes[0], nodes[1];
    OnePerRole(nodes);
    if FirstChoice([e], [x], policy, false, |policy.preferred|) {
      RoundServes(c, e, x, policy, true);
    } else {
      var k :| 0 <= k < |policy.preferred| && CanPair([e], [x], policy, k, false);
      OnlyPair(e, x, policy, k, false);
      RoundServes(c, e, x, policy, false);
    }
  }
}
