/** Waiting on relays for a node's answer to published proofs. */
module TokenSenders {
  import opened Verdicts

  datatype TokenReply = TokenReply(requestID: string, version: nat, ok: bool, status: nat, error: string,
                                   tunnelIP: string, nodeKey: string)

  /** An event as a relay delivers it; unreadable covers a bad signature or a failed decryption. */
  datatype RelayEvent =
    | Missing
    | Foreign(sender: string)
    | Unreadable(sender: string)
    | Readable(sender: string, reply: TokenReply)

  /** Only a readable reply from the node to this very request is an answer. */
  predicate Answers(e: RelayEvent, node: string, requestID: string) {
    e.Readable? && e.sender == node && e.reply.requestID == requestID
  }

  function Classify(reply: TokenReply): ConnectReply {
    if reply.version != 1 then SpendUncertain
    else if !reply.ok then (if reply.status > 0 then NodeRejected(reply.status, reply.error) else SpendUncertain)
    else if reply.tunnelIP == "" || reply.nodeKey == "" then SpendUncertain
    else Connected(reply.tunnelIP, reply.nodeKey)
  }

  class TokenSender {
    /**
     * Publishes the proofs and reads events until one answers, the channel
     * closes, or the caller gives up. The first answer decides; without one,
     * published proofs are never reported as unspent.
     */
    method ConnectWithProofs(node: string, requestID: string, accepted: nat, publishFailed: bool,
                             events: seq<RelayEvent>)
      returns (r: ConnectReply)
      ensures publishFailed || accepted == 0 ==> r == OtherError
      ensures !publishFailed && accepted > 0 ==>
                if exists i :: 0 <= i < |events| && Answers(events[i], node, requestID)
                then exists i :: 0 <= i < |events| && Answers(events[i], node, requestID)
                                 && r == Classify(events[i].reply)
                                 && forall k :: 0 <= k < i ==> !Answers(events[k], node, requestID)
                else r == SpendUncertain
      ensures r == OtherError <==> publishFailed || accepted == 0
    {
      if publishFailed { return OtherError; }
      if accepted == 0 { return OtherError; }
      for n := 0 to |events|
        invariant forall k :: 0 <= k < n ==> !Answers(events[k], node, requestID)
      {
        match events[n] {
          case Missing => continue;
          case Foreign(_) => continue;
          case Unreadable(_) => continue;
          case Readable(sender, reply) =>
            if sender != node || reply.requestID != requestID { continue; }
            if reply.version != 1 { return SpendUncertain; }
            if !reply.ok {
              if reply.status > 0 { return NodeRejected(reply.status, reply.error); }
              return SpendUncertain;
            }
            if reply.tunnelIP == "" || reply.nodeKey == "" { return SpendUncertain; }
            return Connected(reply.tunnelIP, reply.nodeKey);
        }
      }
      return SpendUncertain;
    }
  }
}
