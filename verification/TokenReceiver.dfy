/** A node answering payment requests from relays, each at most once while its reply is remembered. */
module TokenReceivers {
  import opened Verdicts
  import TokenSenders

  const MAX_REQUEST_ID := 128
  const MAX_CACHED := 1024
  const TTL: nat := 600

  type Reply = TokenSenders.TokenReply

  datatype Cached = Cached(reply: Reply, createdAt: int)

  /** An event as delivered: badly signed, not for us, or a request. */
  datatype Event =
    | Forged
    | Sealed
    | Request(sender: string, version: nat, requestID: string, proofs: nat, wgPubkey: string, role: string)

  /** What letting the peer in comes to; a status of zero is no status. */
  datatype Callback = Peered(tunnelIP: string, nodeKey: string) | NotPeered(status: nat, error: string)

  /** What the hub would make of the proofs and, if it redeems them, the callback of the peer. */
  datatype Service = Service(redemption: Redemption, callback: Callback)

  datatype Handled = Dropped | Answered(reply: Reply)

  datatype Key = Key(text: string)

  function KeyOf(sender: string, requestID: string): Key { Key(sender + ":" + requestID) }

  lemma {:induction false} ColonFirst(sender: string, requestID: string, sender2: string, requestID2: string)
    requires ':' !in sender2 && KeyOf(sender, requestID) == KeyOf(sender2, requestID2)
    ensures |sender| >= |sender2|
  {
    var a, b := sender + ":" + requestID, sender2 + ":" + requestID2;
    assert a[|sender|] == ':' && a == b;
    assert forall i :: 0 <= i < |sender2| ==> b[i] == sender2[i] != ':';
  }

  /** Senders are hexadecimal keys, so two requests share a cache key only if they are the same. */
  lemma {:induction false} KeyInjective(sender: string, requestID: string, sender2: string, requestID2: string)
    requires ':' !in sender && ':' !in sender2 && KeyOf(sender, requestID) == KeyOf(sender2, requestID2)
    ensures sender == sender2 && requestID == requestID2
  {
    ColonFirst(sender, requestID, sender2, requestID2);
    ColonFirst(sender2, requestID2, sender, requestID);
    var a, b := sender + ":" + requestID, sender2 + ":" + requestID2;
    assert a[..|sender|] == sender && b[..|sender2|] == sender2;
    assert a[|sender| + 1..] == requestID && b[|sender2| + 1..] == requestID2;
  }

  /** A request that is looked at: of a known version, with a usable id. */
  predicate Considered(e: Event) {
    e.Request? && e.version == 1 && e.requestID != "" && |e.requestID| <= MAX_REQUEST_ID
  }

  predicate Complete(e: Event)
    requires e.Request?
  {
    e.proofs > 0 && e.wgPubkey != "" && (e.role == "entry" || e.role == "exit")
  }

  function Refusal(requestID: string, status: nat, error: string): Reply {
    TokenSenders.TokenReply(requestID, 1, false, status, error, "", "")
  }

  const INVALID := "invalid token payload"

  /** The hub's refusal is passed on, then the callback's; a peer let in learns its address and the node's key. */
  function Answer(requestID: string, service: Service): Reply {
    if !service.redemption.Redeemed? then
      var told := RedeemErrorResponse(service.redemption);
      Refusal(requestID, told.status, told.message)
    else match service.callback
      case NotPeered(status, error) => Refusal(requestID, if status == 0 then 500 else status, error)
      case Peered(ip, key) => TokenSenders.TokenReply(requestID, 1, true, 0, "", ip, key)
  }

  predicate Expired(c: Cached, now: int) { now >= c.createdAt + TTL }

  function Live(replies: map<Key, Cached>, now: int): map<Key, Cached> {
    map k | k in replies && !Expired(replies[k], now) :: replies[k]
  }

  /** An oldest reply of a full cache. */
  ghost predicate GivesWay(live: map<Key, Cached>, k: Key) {
    k in live && |live| == MAX_CACHED && forall j :: j in live ==> live[k].createdAt <= live[j].createdAt
  }

  class TokenReceiver {
    var replies: map<Key, Cached>
    /** The requests whose proofs were redeemed, in order. */
    var redeems: seq<Key>

    constructor ()
      ensures replies == map[] && redeems == [] && Valid()
    {
      replies, redeems := map[], [];
    }

    predicate Valid()
      reads this
    {
      |replies| <= MAX_CACHED
    }

    method ExpireReplies(now: int)
      modifies this`replies
      ensures replies == Live(old(replies), now)
    {
      var keys := replies.Keys;
      ghost var seen: set<Key> := {};
      while keys != {}
        invariant keys + seen == old(replies).Keys && keys !! seen
        invariant replies
                  == map k | k in old(replies) && (k in seen ==> !Expired(old(replies)[k], now)) :: old(replies)[k]
        decreases |keys|
      {
        var k :| k in keys;
        if Expired(replies[k], now) { replies := replies - {k}; }
        keys, seen := keys - {k}, seen + {k};
      }
    }

    /** A reply not older than any other is never chosen while an older one is there. */
    method Oldest() returns (oldest: Key)
      requires replies != map[]
      ensures oldest in replies && forall k :: k in replies ==> replies[oldest].createdAt <= replies[k].createdAt
    {
      var keys := replies.Keys;
      assert exists k :: k in replies;
      oldest :| oldest in keys;
      keys := keys - {oldest};
      while keys != {}
        invariant oldest in replies && keys <= replies.Keys
        invariant forall k :: k in replies && k !in keys ==> replies[oldest].createdAt <= replies[k].createdAt
        decreases |keys|
      {
        var k :| k in keys;
        keys := keys - {k};
        if replies[k].createdAt < replies[oldest].createdAt { oldest := k; }
      }
    }

    method CachedReply(key: Key, now: int) returns (found: bool, reply: Reply)
      requires Valid()
      modifies this`replies
      ensures Valid() && replies == Live(old(replies), now)
      ensures found <==> key in replies
      ensures found ==> reply == replies[key].reply
    {
      ExpireReplies(now);
      LiveIsSmaller(old(replies), now);
      if key !in replies { return false, Refusal("", 0, ""); }
      return true, replies[key].reply;
    }

    /**
     * Remembers the reply. When the cache is full the oldest one gives way; any
     * other live reply stays.
     */
    method Cache(key: Key, reply: Reply, now: int)
      requires Valid()
      modifies this`replies
      ensures Valid() && key in replies && replies[key] == Cached(reply, now)
      ensures forall k :: k in replies && k != key ==> k in Live(old(replies), now) && replies[k] == old(replies)[k]
      ensures forall k :: k in Live(old(replies), now) && k !in replies ==> GivesWay(Live(old(replies), now), k)
    {
      ExpireReplies(now);
      LiveIsSmaller(old(replies), now);
      if key !in replies && |replies| >= MAX_CACHED {
        var oldest := Oldest();
        RemoveOne(replies, oldest);
        replies := replies - {oldest};
      }
      AddOne(replies, key, Cached(reply, now));
      replies := replies[key := Cached(reply, now)];
    }

    static lemma {:induction false} LiveIsSmaller(m: map<Key, Cached>, now: int)
      ensures |Live(m, now)| <= |m|
    {
      Fewer(Live(m, now).Keys, m.Keys);
    }

    static lemma {:induction false} Fewer(a: set<Key>, b: set<Key>)
      requires a <= b
      ensures |a| <= |b|
    {
      assert |b| == |a| + |b - a| by { assert b == a + (b - a); }
    }

    static lemma {:induction false} RemoveOne(m: map<Key, Cached>, k: Key)
      requires k in m
      ensures |m - {k}| == |m| - 1
    {
    }

    static lemma {:induction false} AddOne(m: map<Key, Cached>, k: Key, c: Cached)
      ensures |m[k := c]| == if k in m then |m| else |m| + 1
    {
    }

    /**
     * Handles one event. A remembered request is answered from memory and never
     * redeemed; any other complete one is redeemed once, and its reply, good or
     * bad, is remembered.
     */
    method HandleEvent(e: Event, service: Service, now: int) returns (h: Handled)
      requires Valid()
      modifies this
      ensures Valid()
      ensures h.Answered? <==> Considered(e)
      ensures !Considered(e) ==> replies == old(replies) && redeems == old(redeems)
      ensures Considered(e) ==>
                var key := KeyOf(e.sender, e.requestID);
                var live := Live(old(replies), now);
                if key in live then h.reply == live[key].reply && replies == live && redeems == old(redeems)
                else && h.reply
                     == (if Complete(e) then Answer(e.requestID, service) else Refusal(e.requestID, 400, INVALID))
                     && redeems == (if Complete(e) then old(redeems) + [key] else old(redeems))
                     && key in replies && replies[key] == Cached(h.reply, now)
                     && (forall k :: k in replies && k != key ==> k in live && replies[k] == live[k])
                     && (forall k :: k in live && k !in replies ==> GivesWay(live, k))
    {
      match e {
        case Forged => return Dropped;
        case Sealed => return Dropped;
        case Request(sender, version, requestID, proofs, wgPubkey, role) =>
          if version != 1 { return Dropped; }
          if requestID == "" { return Dropped; }
          if |requestID| > MAX_REQUEST_ID { return Dropped; }
          var key := KeyOf(sender, requestID);
          var found, cached := CachedReply(key, now);
          if found { return Answered(cached); }
          LiveIsStable(old(replies), now);
          if !Complete(e) {
            var invalid := Refusal(requestID, 400, INVALID);
            Cache(key, invalid, now);
            return Answered(invalid);
          }
          redeems := redeems + [key];
          var reply: Reply;
          if !service.redemption.Redeemed? {
            var told := RedeemErrorResponse(service.redemption);
            reply := Refusal(requestID, told.status, told.message);
          } else if service.callback.NotPeered? {
            var status := if service.callback.status == 0 then 500 else service.callback.status;
            reply := Refusal(requestID, status, service.callback.error);
          } else {
            reply := TokenSenders.TokenReply(requestID, 1, true, 0, "", service.callback.tunnelIP,
                                             service.callback.nodeKey);
          }
          Cache(key, reply, now);
          return Answered(reply);
      }
    }

    static lemma {:induction false} LiveIsStable(m: map<Key, Cached>, now: int)
      ensures Live(Live(m, now), now) == Live(m, now)
    {
    }
  }

  function KeyIn(e: Event): set<Key> { if Considered(e) then {KeyOf(e.sender, e.requestID)} else {} }

  function KeysOf(events: seq<Event>): (keys: set<Key>)
    ensures forall i :: 0 <= i < |events| && Considered(events[i]) ==>
              KeyOf(events[i].sender, events[i].requestID) in keys
  {
    if events == [] then {}
    else
      var n := |events| - 1;
      KeysOf(events[..n]) + KeyIn(events[n])
  }

  /** A request that was not answered from memory: its event, when its reply was remembered, whether it was redeemed. */
  datatype Worked = Worked(event: nat, key: Key, at: int, redeemed: bool)

  /** The requests other than this one that were worked on at that time or later. */
  function Newer(log: seq<Worked>, at: int, key: Key): set<Key> {
    set w | w in log && w.at >= at && w.key != key :: w.key
  }

  /** The reply has expired, or as many replies as the cache holds are at least as new. */
  predicate MayBeForgotten(log: seq<Worked>, w: Worked, now: int) {
    now >= w.at + TTL || |Newer(log, w.at, w.key)| >= MAX_CACHED
  }

  predicate WorkedAgainLate(log: seq<Worked>) {
    forall a, b :: 0 <= a < b < |log| && log[a].key == log[b].key ==> MayBeForgotten(log[..b], log[a], log[b].at)
  }

  /** What was worked on is events, in their order. */
  predicate LogsEvents(log: seq<Worked>, events: seq<Event>, times: nat -> int) {
    && (forall k :: 0 <= k < |log| ==> LogsEvent(log[k], events, times))
    && (forall j, k :: 0 <= j < k < |log| ==> log[j].event < log[k].event)
  }

  predicate LogsEvent(w: Worked, events: seq<Event>, times: nat -> int) {
    && w.event < |events| && Considered(events[w.event]) && w.at == times(w.event)
    && w.key == KeyOf(events[w.event].sender, events[w.event].requestID) && w.redeemed == Complete(events[w.event])
  }

  /** Every request got the reply of a piece of work on it that had not expired, its own or an earlier one. */
  predicate AllAnswered(log: seq<Worked>, events: seq<Event>, times: nat -> int) {
    forall i :: 0 <= i < |events| && Considered(events[i]) ==>
      exists k :: 0 <= k < |log| && Answers(log[k], events[i], i, times(i))
  }

  predicate Answers(w: Worked, e: Event, i: nat, now: int) {
    e.Request? && w.event <= i && w.key == KeyOf(e.sender, e.requestID) && now < w.at + TTL
  }

  function RedeemedIn(log: seq<Worked>): seq<Key> {
    if log == [] then []
    else
      var n := |log| - 1;
      RedeemedIn(log[..n]) + if log[n].redeemed then [log[n].key] else []
  }

  predicate Kept(replies: map<Key, Cached>, w: Worked) {
    w.key in replies && replies[w.key].createdAt >= w.at
  }

  /** Every reply is of a request worked on, and what was worked on is remembered until it may be forgotten. */
  ghost predicate Remembered(replies: map<Key, Cached>, log: seq<Worked>, now: int) {
    && (forall k :: k in replies ==> exists w :: w in log && w.key == k && w.at == replies[k].createdAt)
    && (forall w :: w in log ==> w.at <= now && (Kept(replies, w) || MayBeForgotten(log, w, now)))
  }

  lemma {:induction false} NewerGrows(log: seq<Worked>, more: seq<Worked>, at: int, key: Key)
    ensures |Newer(log, at, key)| <= |Newer(log + more, at, key)|
  {
    TokenReceiver.Fewer(Newer(log, at, key), Newer(log + more, at, key));
  }

  /** Letting expired replies go, or more time pass, forgets nothing that may not be forgotten. */
  lemma {:induction false} LiveRemembered(replies: map<Key, Cached>, log: seq<Worked>, was: int, now: int)
    requires Remembered(replies, log, was) && was <= now
    ensures Remembered(replies, log, now) && Remembered(Live(replies, now), log, now)
  {
  }

  /** A full cache forgets a reply only when all it holds then are at least as new. */
  lemma {:induction false} ForgottenWhenFull(live: map<Key, Cached>, log: seq<Worked>, w: Worked, gone: Worked)
    requires Remembered(live, log, w.at) && w.key !in live
    requires gone in log && Kept(live, gone) && GivesWay(live, gone.key)
    ensures MayBeForgotten(log + [w], gone, w.at)
  {
    var newer, others := Newer(log + [w], gone.at, gone.key), live.Keys - {gone.key} + {w.key};
    forall k | k in others ensures k in newer {
      if k == w.key {
        assert (log + [w])[|log|] == w;
      } else {
        var x :| x in log && x.key == k && x.at == live[k].createdAt;
        assert x in log + [w];
      }
    }
    TokenReceiver.Fewer(others, newer);
  }

  lemma {:induction false} NewRemembered(live: map<Key, Cached>, log: seq<Worked>, w: Worked,
                                         replies: map<Key, Cached>)
    requires Remembered(live, log, w.at) && w.key !in live
    requires w.key in replies && replies[w.key].createdAt == w.at
    requires forall k :: k in replies && k != w.key ==> k in live && replies[k] == live[k]
    requires forall k :: k in live && k !in replies ==> GivesWay(live, k)
    ensures Remembered(replies, log + [w], w.at)
  {
    forall k | k in replies ensures exists x :: x in log + [w] && x.key == k && x.at == replies[k].createdAt {
      if k == w.key {
        assert (log + [w])[|log|] == w;
      } else {
        var x :| x in log && x.key == k && x.at == live[k].createdAt;
        assert x in log + [w];
      }
    }
    forall x | x in log + [w] ensures x.at <= w.at && (Kept(replies, x) || MayBeForgotten(log + [w], x, w.at)) {
      if x in log && x.key != w.key {
        if Kept(live, x) && x.key !in replies {
          ForgottenWhenFull(live, log, w, x);
        } else if !Kept(live, x) {
          NewerGrows(log, [w], x.at, x.key);
        }
      }
    }
  }

  lemma {:induction false} NewIsLate(live: map<Key, Cached>, log: seq<Worked>, w: Worked)
    requires Remembered(live, log, w.at) && w.key !in live && WorkedAgainLate(log)
    ensures WorkedAgainLate(log + [w])
  {
    var all := log + [w];
    forall a, b | 0 <= a < b < |all| && all[a].key == all[b].key ensures MayBeForgotten(all[..b], all[a], all[b].at) {
      assert all[..b] == log[..b];
      if b == |log| { assert log[..b] == log && log[a] in log; }
    }
  }

  lemma {:induction false} RedeemedPush(log: seq<Worked>, w: Worked)
    ensures RedeemedIn(log + [w]) == RedeemedIn(log) + if w.redeemed then [w.key] else []
  {
  }

  lemma {:induction false} LogKept(log: seq<Worked>, events: seq<Event>, i: nat, times: nat -> int)
    requires i < |events| && LogsEvents(log, events[..i], times)
    ensures LogsEvents(log, events[..i + 1], times)
  {
    forall k | 0 <= k < |log| ensures LogsEvent(log[k], events[..i + 1], times) {
      assert LogsEvent(log[k], events[..i], times);
    }
  }

  lemma {:induction false} LogPush(log: seq<Worked>, events: seq<Event>, i: nat, times: nat -> int, w: Worked)
    requires i < |events| && LogsEvents(log, events[..i], times) && Considered(events[i])
    requires w == Worked(i, KeyOf(events[i].sender, events[i].requestID), times(i), Complete(events[i]))
    ensures LogsEvents(log + [w], events[..i + 1], times)
  {
    LogKept(log, events, i, times);
    var all := log + [w];
    assert LogsEvent(w, events[..i + 1], times);
    forall k | 0 <= k < |log| ensures all[k] == log[k] && log[k].event < i {
      assert LogsEvent(log[k], events[..i], times);
    }
  }

  lemma {:induction false} LiveIsLogged(replies: map<Key, Cached>, log: seq<Worked>, key: Key, now: int, i: nat,
                                        events: seq<Event>, times: nat -> int)
    requires i <= |events| && LogsEvents(log, events[..i], times)
    requires Remembered(replies, log, now) && key in Live(replies, now)
    ensures exists k :: 0 <= k < |log| && log[k].key == key && log[k].event < i && now < log[k].at + TTL
  {
    var w :| w in log && w.key == key && w.at == replies[key].createdAt;
    var k :| 0 <= k < |log| && log[k] == w;
    assert LogsEvent(log[k], events[..i], times);
  }

  lemma {:induction false} NextAnswered(log: seq<Worked>, longer: seq<Worked>, events: seq<Event>, i: nat,
                                        times: nat -> int)
    requires i < |events| && AllAnswered(log, events[..i], times) && log <= longer
    requires Considered(events[i]) ==> exists k :: 0 <= k < |longer| && Answers(longer[k], events[i], i, times(i))
    ensures AllAnswered(longer, events[..i + 1], times)
  {
    forall j | 0 <= j < i && Considered(events[j])
      ensures exists k :: 0 <= k < |longer| && Answers(longer[k], events[j], j, times(j))
    {
      assert events[..i][j] == events[j];
      var k :| 0 <= k < |log| && Answers(log[k], events[j], j, times(j));
      assert longer[k] == log[k];
    }
  }

  /** What the log of the first i events says. */
  predicate Logged(log: seq<Worked>, events: seq<Event>, i: nat, times: nat -> int)
    requires i <= |events|
  {
    LogsEvents(log, events[..i], times) && AllAnswered(log, events[..i], times) && WorkedAgainLate(log)
  }

  lemma {:induction false} NextIgnored(log: seq<Worked>, events: seq<Event>, i: nat, times: nat -> int)
    requires i < |events| && Logged(log, events, i, times) && !Considered(events[i])
    ensures Logged(log, events, i + 1, times)
  {
    LogKept(log, events, i, times);
    NextAnswered(log, log, events, i, times);
  }

  lemma {:induction false} NextFound(replies: map<Key, Cached>, log: seq<Worked>, events: seq<Event>, i: nat,
                                     times: nat -> int)
    requires i < |events| && Logged(log, events, i, times) && Considered(events[i])
    requires KeyOf(events[i].sender, events[i].requestID) in Live(replies, times(i))
    requires Remembered(replies, log, times(i))
    ensures Logged(log, events, i + 1, times) && Remembered(Live(replies, times(i)), log, times(i))
  {
    LiveRemembered(replies, log, times(i), times(i));
    var key := KeyOf(events[i].sender, events[i].requestID);
    LiveIsLogged(replies, log, key, times(i), i, events, times);
    var k :| 0 <= k < |log| && log[k].key == key && log[k].event < i && times(i) < log[k].at + TTL;
    assert Answers(log[k], events[i], i, times(i));
    LogKept(log, events, i, times);
    NextAnswered(log, log, events, i, times);
  }

  lemma {:induction false} NextWorkedOn(live: map<Key, Cached>, log: seq<Worked>, events: seq<Event>, i: nat,
                                        times: nat -> int, w: Worked)
    requires i < |events| && Logged(log, events, i, times) && Considered(events[i])
    requires w == Worked(i, KeyOf(events[i].sender, events[i].requestID), times(i), Complete(events[i]))
    requires Remembered(live, log, w.at) && w.key !in live
    ensures Logged(log + [w], events, i + 1, times)
  {
    var longer := log + [w];
    NewIsLate(live, log, w);
    LogPush(log, events, i, times, w);
    assert Answers(longer[|log|], events[i], i, times(i));
    NextAnswered(log, longer, events, i, times);
  }

  method HandleNext(receiver: TokenReceiver, events: seq<Event>, service: Service, i: nat, times: nat -> int,
                    ghost log: seq<Worked>)
    returns (ghost longer: seq<Worked>)
    requires receiver.Valid() && i < |events| && Remembered(receiver.replies, log, times(i))
    requires Logged(log, events, i, times) && receiver.redeems == RedeemedIn(log)
    modifies receiver
    ensures receiver.Valid() && Remembered(receiver.replies, longer, times(i))
    ensures Logged(longer, events, i + 1, times) && receiver.redeems == RedeemedIn(longer)
  {
    ghost var now, before, e := times(i), receiver.replies, events[i];
    var handled := receiver.HandleEvent(events[i], service, times(i));
    longer := log;
    if !Considered(e) {
      NextIgnored(log, events, i, times);
    } else if KeyOf(e.sender, e.requestID) in Live(before, now) {
      NextFound(before, log, events, i, times);
    } else {
      ghost var w := Worked(i, KeyOf(e.sender, e.requestID), now, Complete(e));
      LiveRemembered(before, log, now, now);
      NextWorkedOn(Live(before, now), log, events, i, times, w);
      NewRemembered(Live(before, now), log, w, receiver.replies);
      RedeemedPush(log, w);
      longer := log + [w];
    }
  }

  /**
   * However often requests are repeated, one is worked on again, and so redeemed
   * again, only when its reply has expired or as many others as the cache holds
   * came at the same time or later.
   */
  method HandleAll(receiver: TokenReceiver, events: seq<Event>, services: nat -> Service, times: nat -> int)
    returns (ghost log: seq<Worked>)
    requires receiver.replies == map[] && receiver.redeems == []
    requires forall i: nat, j: nat :: i <= j < |events| ==> times(i) <= times(j)
    modifies receiver
    ensures LogsEvents(log, events, times) && AllAnswered(log, events, times)
    ensures receiver.redeems == RedeemedIn(log) && WorkedAgainLate(log)
  {
    log := [];
    for i := 0 to |events|
      invariant receiver.Valid() && Logged(log, events, i, times) && receiver.redeems == RedeemedIn(log)
      invariant i < |events| ==> Remembered(receiver.replies, log, times(i))
    {
      log := HandleNext(receiver, events, services(i), i, times, log);
      if i + 1 < |events| { LiveRemembered(receiver.replies, log, times(i), times(i + 1)); }
    }
    assert events[..|events|] == events;
  }

  predicate NoRepeats(keys: seq<Key>) { forall i, j :: 0 <= i < j < |keys| ==> keys[i] != keys[j] }

  lemma {:induction false} RedeemedIsLogged(log: seq<Worked>, k: Key) returns (a: nat)
    requires k in RedeemedIn(log)
    ensures a < |log| && log[a].key == k
  {
    var last := |log| - 1;
    if k in RedeemedIn(log[..last]) { a := RedeemedIsLogged(log[..last], k); } else { a := last; }
  }

  lemma {:induction false} RedeemedOnce(log: seq<Worked>)
    requires forall a, b :: 0 <= a < b < |log| ==> log[a].key != log[b].key
    ensures NoRepeats(RedeemedIn(log))
  {
    if log != [] {
      var last := |log| - 1;
      var init := log[..last];
      assert forall a :: 0 <= a < last ==> init[a] == log[a];
      RedeemedOnce(init);
      forall k | k in RedeemedIn(init) ensures k != log[last].key {
        var a := RedeemedIsLogged(init, k);
        assert log[a].key == k;
      }
      NoRepeatsPush(RedeemedIn(init), log[last].key);
      assert RedeemedIn(init) + [] == RedeemedIn(init);
    }
  }

  lemma {:induction false} NoRepeatsPush(keys: seq<Key>, k: Key)
    requires NoRepeats(keys) && k !in keys
    ensures NoRepeats(keys + [k])
  {
  }

  /**
   * In particular none is redeemed twice when all requests arrive within the
   * lifetime of a reply and are no more than the cache holds.
   */
  lemma {:induction false} RedeemedAtMostOnce(log: seq<Worked>, events: seq<Event>, times: nat -> int, start: int)
    requires LogsEvents(log, events, times) && WorkedAgainLate(log)
    requires |KeysOf(events)| <= MAX_CACHED && forall i: nat :: i < |events| ==> start <= times(i) < start + TTL
    ensures NoRepeats(RedeemedIn(log)) && forall k :: k in RedeemedIn(log) ==> k in KeysOf(events)
  {
    forall a | 0 <= a < |log| ensures log[a].key in KeysOf(events) && start <= log[a].at < start + TTL {
      assert LogsEvent(log[a], events, times);
    }
    forall a, b | 0 <= a < b < |log| ensures !MayBeForgotten(log[..b], log[a], log[b].at) {
      var others := KeysOf(events) - {log[a].key};
      TokenReceiver.Fewer(Newer(log[..b], log[a].at, log[a].key), others);
    }
    RedeemedOnce(log);
    forall k | k in RedeemedIn(log) ensures k in KeysOf(events) { var a := RedeemedIsLogged(log, k); }
  }
}
