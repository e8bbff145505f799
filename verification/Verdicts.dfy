/**
 * How the hub's verdict on a batch of proofs travels to the client: hub status,
 * node status, client error, and the client's guess whether the proofs are gone.
 */
module Verdicts {
  import opened EcashStores

  /** What the hub did with the proofs this node sent. */
  datatype HubVerdict = Burned | Refused(error: MintError) | BadRequest | RateLimited | Unavailable

  datatype Link = Delivered | Lost

  /** What the node makes of the hub's answer. */
  datatype Redemption = Redeemed | InvalidProofs | SpentAlready | HubLimited | CircuitOpen | HubDown

  /** What came of admitting the peer once its proofs were redeemed. */
  datatype Admission = Granted(tunnelIP: string) | PoolExhausted(detail: string) | PeerFailed(detail: string)

  datatype NodeReply = Accepted(tunnelIP: string, nodeKey: string) | Rejected(status: nat, message: string) | Silent

  /** What the client's connect call returns. */
  datatype ConnectReply =
    | Connected(tunnelIP: string, nodeKey: string)
    | NodeRejected(status: nat, message: string)
    | SpendUncertain
    | OtherError

  datatype Delivery = Http | Nip44

  function HubStatus(v: HubVerdict): nat {
    match v
    case Burned => 200
    case Refused(InvalidProof) => 400
    case Refused(AlreadySpent) => 409
    case Refused(DuplicateProofs) => 400
    case Refused(UnknownKeyset) => 400
    case Refused(_) => 500
    case BadRequest => 400
    case RateLimited => 429
    case Unavailable => 503
  }

  function RedeemAtHub(link: Link, status: nat): Redemption {
    if link.Lost? then HubDown
    else match status
      case 200 => Redeemed
      case 400 => InvalidProofs
      case 409 => SpentAlready
      case 429 => HubLimited
      case 503 => CircuitOpen
      case _ => HubDown
  }

  const NO_IPS := "no IPs available: "

  function RedeemErrorResponse(r: Redemption): (reply: NodeReply)
    requires !r.Redeemed?
    ensures reply.Rejected?
  {
    match r
    case SpentAlready => Rejected(409, "proofs already spent")
    case InvalidProofs => Rejected(401, "invalid proofs")
    case HubLimited => Rejected(429, "hub rate-limited — try later")
    case CircuitOpen => Rejected(503, DOWN)
    case HubDown => Rejected(502, "hub verification failed")
  }

  function NodeAnswer(r: Redemption, admission: Admission, nodeKey: string): NodeReply {
    if !r.Redeemed? then RedeemErrorResponse(r)
    else match admission
      case Granted(ip) => Accepted(ip + "/32", nodeKey)
      case PoolExhausted(detail) => Rejected(503, NO_IPS + detail)
      case PeerFailed(detail) => Rejected(500, detail)
  }

  function HttpClient(link: Link, reply: NodeReply): ConnectReply {
    if link.Lost? || reply.Silent? then OtherError
    else match reply
      case Accepted(ip, key) => if ip == "" || key == "" then OtherError else Connected(ip, key)
      case Rejected(status, message) => if message == "" then OtherError else NodeRejected(status, message)
  }

  function Nip44Client(link: Link, reply: NodeReply): ConnectReply {
    if link.Lost? || reply.Silent? then SpendUncertain
    else match reply
      case Accepted(ip, key) => if ip == "" || key == "" then SpendUncertain else Connected(ip, key)
      case Rejected(status, message) => if status == 0 then SpendUncertain else NodeRejected(status, message)
  }

  function Client(mode: Delivery, link: Link, reply: NodeReply): ConnectReply {
    match mode case Http => HttpClient(link, reply) case Nip44 => Nip44Client(link, reply)
  }

  function Lower(s: string): string {
    seq(|s|, i requires 0 <= i < |s| => if 'A' <= s[i] <= 'Z' then (s[i] as int + 32) as char else s[i])
  }

  predicate OccursAt(s: string, part: string, i: int) { 0 <= i <= |s| - |part| && s[i..i + |part|] == part }

  predicate Contains(s: string, part: string) { exists i :: 0 <= i <= |s| && OccursAt(s, part, i) }

  predicate ProofsBurned(status: nat, message: string) {
    status == 409 || status == 500 || (status == 503 && Contains(Lower(message), POOL_WORDS))
  }

  /** Whether the wallet gives the proofs up; a successful connect gives them up too. */
  predicate TreatAsSpent(r: ConnectReply) {
    match r
    case Connected(_, _) => true
    case NodeRejected(status, message) => ProofsBurned(status, message)
    case SpendUncertain => true
    case OtherError => false
  }

  /** One hop's payment, from the hub's verdict to the client's error. */
  function EndToEnd(mode: Delivery, v: HubVerdict, hubLink: Link, admission: Admission, nodeKey: string,
                    nodeLink: Link): ConnectReply {
    Client(mode, nodeLink, NodeAnswer(RedeemAtHub(hubLink, HubStatus(v)), admission, nodeKey))
  }

  lemma {:induction false} ContainsLetter(s: string, part: string, c: char)
    requires Contains(s, part) && c in part
    ensures c in s
  {
  }

  const POOL_WORDS := "no ips available"

  const DOWN := "hub payment system temporarily down"

  lemma {:induction false} LowerPrefix()
    ensures Lower(NO_IPS) == POOL_WORDS + ": "
  {
  }

  lemma {:induction false} LowerConcat(a: string, b: string)
    ensures Lower(a + b) == Lower(a) + Lower(b)
  {
  }

  lemma {:induction false} DownHasNoV()
    ensures 'v' !in Lower(DOWN)
  {
  }

  /** A pool-exhausted message is recognised whatever follows it; the hub's own 503 is not. */
  lemma {:induction false} PoolMessageTold(detail: string)
    ensures ProofsBurned(503, NO_IPS + detail)
    ensures !ProofsBurned(503, DOWN)
  {
    var message := Lower(NO_IPS + detail);
    LowerPrefix();
    LowerConcat(NO_IPS, detail);
    assert message == POOL_WORDS + (": " + Lower(detail));
    assert OccursAt(message, POOL_WORDS, 0);
    if Contains(Lower(DOWN), POOL_WORDS) {
      assert POOL_WORDS[8] == 'v';
      DownHasNoV();
      ContainsLetter(Lower(DOWN), POOL_WORDS, 'v');
    }
  }

  /**
   * When the verdict reached the node and the node's reply reached the client,
   * the client gives the proofs up exactly when the verdict was that they are
   * burned, or that they were spent before.
   */
  lemma {:induction false} DeliveredVerdictExact(mode: Delivery, v: HubVerdict, admission: Admission, nodeKey: string)
    requires nodeKey != "" && (admission.PeerFailed? ==> admission.detail != "")
    ensures TreatAsSpent(EndToEnd(mode, v, Delivered, admission, nodeKey, Delivered))
            <==> v.Burned? || v == Refused(AlreadySpent)
  {
    if admission.PoolExhausted? { PoolMessageTold(admission.detail); } else { PoolMessageTold(""); }
  }

  /**
   * Burned proofs go back to the wallet in exactly two situations: the hub's
   * answer was lost and the node said so, or the node's answer was lost over HTTP.
   */
  lemma {:induction false} BurnedButReturned(mode: Delivery, hubLink: Link, admission: Admission, nodeKey: string,
                                             nodeLink: Link)
    requires nodeKey != "" && (admission.PeerFailed? ==> admission.detail != "")
    ensures !TreatAsSpent(EndToEnd(mode, Burned, hubLink, admission, nodeKey, nodeLink))
            <==> if nodeLink.Lost? then mode.Http? else hubLink.Lost?
  {
    if admission.PoolExhausted? { PoolMessageTold(admission.detail); }
  }

  /** Over NIP-44 a missing reply never returns proofs, burned or not. */
  lemma {:induction false} SilenceIsSpent(v: HubVerdict, hubLink: Link, admission: Admission, nodeKey: string)
    ensures TreatAsSpent(EndToEnd(Nip44, v, hubLink, admission, nodeKey, Lost))
    ensures !TreatAsSpent(EndToEnd(Http, v, hubLink, admission, nodeKey, Lost))
  {
  }
}
