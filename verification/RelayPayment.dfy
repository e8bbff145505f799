/** One payment over relays, from the proofs published to the client's reading of the node's reply. */
module RelayPayments {
  import opened EcashStores
  import opened Verdicts
  import opened TokenReceivers
  import opened TokenSenders

  /** What the node's callback returns for a peer admitted or not. */
  function CallbackOf(admission: Admission, nodeKey: string): Callback {
    match admission
    case Granted(ip) => Peered(ip + "/32", nodeKey)
    case PoolExhausted(detail) => NotPeered(503, NO_IPS + detail)
    case PeerFailed(detail) => NotPeered(500, detail)
  }

  predicate NoneAnswers(events: seq<RelayEvent>, node: string, requestID: string) {
    forall i :: 0 <= i < |events| ==> !TokenSenders.Answers(events[i], node, requestID)
  }

  /**
   * A request reaches the node, and its reply, among other events, the client.
   * When the node sees a complete request for the first time and the hub's verdict
   * reached it, the client gives the proofs up if and only if they are burned or
   * were spent before, and a peer let in is connected under the address granted.
   * An incomplete request costs nothing, and a repeated one is read as the first
   * reply was.
   */
  method Deliver(receiver: TokenReceiver, sender: TokenSender, e: Event, v: HubVerdict, hubLink: Link,
                 admission: Admission, nodeKey: string, now: int, node: string, earlier: seq<RelayEvent>,
                 later: seq<RelayEvent>)
    returns (r: ConnectReply)
    requires receiver.Valid() && Named(receiver.replies)
    requires Considered(e) && ':' !in e.sender && nodeKey != "" && NoneAnswers(earlier, node, e.requestID)
    modifies receiver
    ensures receiver.Valid() && Named(receiver.replies)
    ensures var key, before := KeyOf(e.sender, e.requestID), Live(old(receiver.replies), now);
            && (key in before ==> r == Classify(before[key].reply) && receiver.redeems == old(receiver.redeems))
            && (key !in before && !Complete(e) ==> !TreatAsSpent(r) && receiver.redeems == old(receiver.redeems))
            && (key !in before && Complete(e) ==>
                  && receiver.redeems == old(receiver.redeems) + [key]
                  && r == EndToEnd(Nip44, v, hubLink, admission, nodeKey, Delivered)
                  && (hubLink.Delivered? ==> (TreatAsSpent(r) <==> v.Burned? || v == HubVerdict.Refused(AlreadySpent)))
                  && (hubLink.Delivered? && v.Burned? && admission.Granted? ==>
                        r == Connected(admission.tunnelIP + "/32", nodeKey)))
            && key in receiver.replies && r == Classify(receiver.replies[key].reply)
  {
    var reply := AskNode(receiver, e, Service(RedeemAtHub(hubLink, HubStatus(v)), CallbackOf(admission, nodeKey)), now);
    r := ReadReply(sender, node, e.requestID, earlier, reply, later);
    ReadAsAnswered(e.requestID, v, hubLink, admission, nodeKey);
    ReadAsSent(v, admission, nodeKey);
  }

  /** The node's part: its reply, remembered under the request's key, names the request. */
  method AskNode(receiver: TokenReceiver, e: Event, service: Service, now: int) returns (reply: TokenReply)
    requires receiver.Valid() && Named(receiver.replies) && Considered(e) && ':' !in e.sender
    modifies receiver
    ensures receiver.Valid() && Named(receiver.replies) && reply.requestID == e.requestID
    ensures var key, before := KeyOf(e.sender, e.requestID), Live(old(receiver.replies), now);
            && key in receiver.replies && receiver.replies[key].reply == reply
            && (key in before ==> reply == before[key].reply && receiver.redeems == old(receiver.redeems))
            && (key !in before && !Complete(e) ==>
                  reply == Refusal(e.requestID, 400, INVALID) && receiver.redeems == old(receiver.redeems))
            && (key !in before && Complete(e) ==>
                  reply == Answer(e.requestID, service) && receiver.redeems == old(receiver.redeems) + [key])
  {
    ghost var live := Live(receiver.replies, now);
    if KeyOf(e.sender, e.requestID) in live { NamedIsAnswer(live, e.sender, e.requestID); }
    var handled := receiver.HandleEvent(e, service, now);
    assert NamedBy(KeyOf(e.sender, e.requestID), e.requestID);
    return handled.reply;
  }

  /** The node's answer, written by the receiver and read by the sender, is the one a hop's payment comes to. */
  lemma {:induction false} ReadAsAnswered(requestID: string, v: HubVerdict, hubLink: Link, admission: Admission,
                                          nodeKey: string)
    requires nodeKey != ""
    ensures Classify(Answer(requestID, Service(RedeemAtHub(hubLink, HubStatus(v)), CallbackOf(admission, nodeKey))))
            == EndToEnd(Nip44, v, hubLink, admission, nodeKey, Delivered)
  {
  }

  /** Every reply remembered is one to the request its key names, from a sender known by hexadecimal digits. */
  ghost predicate Named(replies: map<Key, Cached>) {
    forall k :: k in replies ==> NamedBy(k, replies[k].reply.requestID)
  }

  ghost predicate NamedBy(k: Key, requestID: string) {
    exists sender :: ':' !in sender && k == KeyOf(sender, requestID)
  }

  lemma {:induction false} NamedIsAnswer(replies: map<Key, Cached>, sender: string, requestID: string)
    requires Named(replies) && ':' !in sender && KeyOf(sender, requestID) in replies
    ensures replies[KeyOf(sender, requestID)].reply.requestID == requestID
  {
    var c := replies[KeyOf(sender, requestID)];
    var other :| ':' !in other && KeyOf(sender, requestID) == KeyOf(other, c.reply.requestID);
    KeyInjective(sender, requestID, other, c.reply.requestID);
  }

  /** The client takes the node's reply out of everything the relays deliver. */
  method ReadReply(sender: TokenSender, node: string, requestID: string, earlier: seq<RelayEvent>, reply: TokenReply,
                   later: seq<RelayEvent>)
    returns (r: ConnectReply)
    requires NoneAnswers(earlier, node, requestID) && reply.requestID == requestID
    ensures r == Classify(reply)
  {
    var answer := Readable(node, reply);
    FirstAnswer(earlier, answer, later, node, requestID);
    var events := earlier + [answer] + later;
    assert events[|earlier|] == answer;
    r := sender.ConnectWithProofs(node, requestID, 1, false, events);
  }

  lemma {:induction false} FirstAnswer(earlier: seq<RelayEvent>, answer: RelayEvent, later: seq<RelayEvent>,
                                       node: string, requestID: string)
    requires NoneAnswers(earlier, node, requestID) && TokenSenders.Answers(answer, node, requestID)
    ensures var events := earlier + [answer] + later;
            forall i :: 0 <= i < |events| && TokenSenders.Answers(events[i], node, requestID)
                        && (forall k :: 0 <= k < i ==> !TokenSenders.Answers(events[k], node, requestID)) ==>
                          i == |earlier|
  {
    var events := earlier + [answer] + later;
    assert events[|earlier|] == answer;
    assert forall k :: 0 <= k < |earlier| ==> events[k] == earlier[k];
  }

  /** Over relays no message can be empty in a way that matters. */
  lemma {:induction false} ReadAsSent(v: HubVerdict, admission: Admission, nodeKey: string)
    requires nodeKey != ""
    ensures TreatAsSpent(EndToEnd(Nip44, v, Delivered, admission, nodeKey, Delivered))
            <==> v.Burned? || v == HubVerdict.Refused(AlreadySpent)
  {
    if !(admission.PeerFailed? && admission.detail == "") {
      DeliveredVerdictExact(Nip44, v, admission, nodeKey);
    } else {
      DeliveredVerdictExact(Nip44, v, PeerFailed("x"), nodeKey);
    }
  }
}
