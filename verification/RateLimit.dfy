/** The sliding-window request limiter of the discovery service. */
module RateLimit {

  /** The accepted requests strictly inside the window that ends now. */
  function Recent(times: seq<int>, now: int, window: nat): seq<int> {
    if times == [] then []
    else
      var n := |times| - 1;
      Recent(times[..n], now, window) + if times[n] > now - window then [times[n]] else []
  }

  /** The reference: decide on every request ever accepted. */
  predicate Allows(accepted: seq<int>, now: int, window: nat, max: int) {
    max <= 0 || |Recent(accepted, now, window)| < max
  }

  /** The accepted requests among those made at the given times, in order. */
  function Accepted(times: seq<int>, window: nat, max: int): seq<int> {
    if times == [] then []
    else
      var n := |times| - 1;
      var before := Accepted(times[..n], window, max);
      if Allows(before, times[n], window, max) then before + [times[n]] else before
  }

  predicate Ascending(times: seq<int>) { forall i, j :: 0 <= i < j < |times| ==> times[i] <= times[j] }

  predicate UpTo(times: seq<int>, now: int) { forall i :: 0 <= i < |times| ==> times[i] <= now }

  /** Forgetting what left the window changes no later decision. */
  lemma {:induction false} PrunedIsEnough(times: seq<int>, before: int, now: int, window: nat)
    requires before <= now
    ensures Recent(Recent(times, before, window), now, window) == Recent(times, now, window)
  {
    if times != [] {
      var n := |times| - 1;
      PrunedIsEnough(times[..n], before, now, window);
      var kept := Recent(times[..n], before, window);
      if times[n] > before - window { RecentPush(kept, times[n], now, window); } else { assert kept + [] == kept; }
    }
  }

  predicate Agree(a: seq<int>, b: seq<int>, now: int, window: nat) { Recent(a, now, window) == Recent(b, now, window) }

  lemma {:induction false} RecentPush(times: seq<int>, t: int, now: int, window: nat)
    ensures Recent(times + [t], now, window) == Recent(times, now, window) + if t > now - window then [t] else []
  {
  }

  /** The requests accepted in (until - window, until]. */
  function InWindow(times: seq<int>, until: int, window: nat): seq<int> {
    if times == [] then []
    else
      var n := |times| - 1;
      InWindow(times[..n], until, window) + if until - window < times[n] <= until then [times[n]] else []
  }

  lemma {:induction false} InWindowPush(times: seq<int>, t: int, until: int, window: nat)
    ensures InWindow(times + [t], until, window)
            == InWindow(times, until, window) + if until - window < t <= until then [t] else []
  {
  }

  /** A window that ends later than the newest request holds no more of them than the one ending at it. */
  lemma {:induction false} NewestWindowHoldsMost(times: seq<int>, now: int, until: int, window: nat)
    requires UpTo(times, now) && now <= until
    ensures |InWindow(times, until, window)| <= |Recent(times, now, window)|
  {
    if times != [] {
      var n := |times| - 1;
      assert forall i :: 0 <= i < n ==> times[..n][i] == times[i];
      NewestWindowHoldsMost(times[..n], now, until, window);
    }
  }

  lemma {:induction false} AcceptedUpTo(times: seq<int>, window: nat, max: int, now: int)
    requires UpTo(times, now)
    ensures UpTo(Accepted(times, window, max), now)
  {
    if times != [] {
      var n := |times| - 1;
      assert forall i :: 0 <= i < n ==> times[..n][i] == times[i];
      AcceptedUpTo(times[..n], window, max, now);
    }
  }

  /**
   * On a clock that never goes back, no half-open window (until - window, until],
   * wherever it lies, ever holds more than max accepted requests.
   */
  lemma {:induction false} NoWindowExceeds(times: seq<int>, window: nat, max: int, until: int)
    requires Ascending(times) && max > 0
    ensures |InWindow(Accepted(times, window, max), until, window)| <= max
  {
    if times != [] {
      var n := |times| - 1;
      var before, now := Accepted(times[..n], window, max), times[n];
      assert forall i, j :: 0 <= i < j < n ==> times[..n][i] <= times[..n][j];
      NoWindowExceeds(times[..n], window, max, until);
      if Allows(before, now, window, max) {
        InWindowPush(before, now, until, window);
        AcceptedUpTo(times[..n], window, max, now);
        if now <= until { NewestWindowHoldsMost(before, now, until, window); }
      }
    }
  }

  /**
   * On such a clock a request is turned away if and only if max accepted ones lie
   * in the window that ends with it, and with no limit none is.
   */
  lemma {:induction false} TurnedAwayExact(times: seq<int>, t: int, window: nat, max: int)
    requires UpTo(times, t)
    ensures var before := Accepted(times, window, max);
            Accepted(times + [t], window, max)
            == if max > 0 && |InWindow(before, t, window)| >= max then before else before + [t]
  {
    var before := Accepted(times, window, max);
    AcceptedUpTo(times, window, max, t);
    WindowIsRecent(before, t, window);
    assert (times + [t])[..|times|] == times;
  }

  lemma {:induction false} WindowIsRecent(times: seq<int>, now: int, window: nat)
    requires UpTo(times, now)
    ensures InWindow(times, now, window) == Recent(times, now, window)
  {
    if times != [] {
      var n := |times| - 1;
      assert forall i :: 0 <= i < n ==> times[..n][i] == times[i];
      WindowIsRecent(times[..n], now, window);
    }
  }

  /** The requests accepted in [until - window, until]. */
  function InClosed(times: seq<int>, until: int, window: nat): seq<int> {
    if times == [] then []
    else
      var n := |times| - 1;
      InClosed(times[..n], until, window) + if until - window <= times[n] <= until then [times[n]] else []
  }

  /** A closed window is covered by two half-open ones. */
  lemma {:induction false} ClosedIsTwo(times: seq<int>, until: int, window: nat)
    requires window > 0
    ensures |InClosed(times, until, window)|
            <= |InWindow(times, until, window)| + |InWindow(times, until - window, window)|
  {
    if times != [] { ClosedIsTwo(times[..|times| - 1], until, window); }
  }

  /** So it never holds more than twice the limit ... */
  lemma {:induction false} ClosedWindowBound(times: seq<int>, window: nat, max: int, until: int)
    requires Ascending(times) && max > 0 && window > 0
    ensures |InClosed(Accepted(times, window, max), until, window)| <= 2 * max
  {
    NoWindowExceeds(times, window, max, until);
    NoWindowExceeds(times, window, max, until - window);
    ClosedIsTwo(Accepted(times, window, max), until, window);
  }

  function Repeat(t: int, k: nat): seq<int> { if k == 0 then [] else Repeat(t, k - 1) + [t] }

  lemma {:induction false} Associate(a: seq<int>, b: seq<int>, c: seq<int>)
    ensures a + (b + c) == (a + b) + c
  {
  }

  lemma {:induction false} AcceptedPush(times: seq<int>, t: int, window: nat, max: int)
    ensures var before := Accepted(times, window, max);
            Accepted(times + [t], window, max) == if Allows(before, t, window, max) then before + [t] else before
  {
    assert (times + [t])[..|times|] == times;
  }

  lemma {:induction false} OneMoreAccepted(times: seq<int>, t: int, window: nat, max: int)
    requires window > 0 && |Recent(Accepted(times, window, max), t, window)| < max
    ensures Accepted(times + [t], window, max) == Accepted(times, window, max) + [t]
    ensures |Recent(Accepted(times + [t], window, max), t, window)|
            == |Recent(Accepted(times, window, max), t, window)| + 1
  {
    AcceptedPush(times, t, window, max);
    RecentPush(Accepted(times, window, max), t, t, window);
  }

  /** Requests at one moment are accepted for as long as there is room. */
  lemma {:induction false} RoomForAll(times: seq<int>, t: int, k: nat, window: nat, max: int)
    requires window > 0 && |Recent(Accepted(times, window, max), t, window)| + k <= max
    ensures Accepted(times + Repeat(t, k), window, max) == Accepted(times, window, max) + Repeat(t, k)
  {
    var sofar, before := times, Accepted(times, window, max);
    assert times + Repeat(t, 0) == times && before + Repeat(t, 0) == before;
    for i := 0 to k
      invariant sofar == times + Repeat(t, i)
      invariant Accepted(sofar, window, max) == before + Repeat(t, i)
      invariant |Recent(Accepted(sofar, window, max), t, window)| == |Recent(before, t, window)| + i
    {
      OneMoreAccepted(sofar, t, window, max);
      Associate(times, Repeat(t, i), [t]);
      Associate(before, Repeat(t, i), [t]);
      sofar := sofar + [t];
    }
  }

  lemma {:induction false} LeftTheWindow(t: int, k: nat, window: nat)
    ensures Recent(Repeat(t, k), t + window, window) == []
  {
    if k > 0 {
      LeftTheWindow(t, k - 1, window);
      RecentPush(Repeat(t, k - 1), t, t + window, window);
    }
  }

  lemma {:induction false} BothInside(t: int, j: nat, k: nat, window: nat)
    ensures |InClosed(Repeat(t, j) + Repeat(t + window, k), t + window, window)| == j + k
  {
    var all := Repeat(t, j) + Repeat(t + window, k);
    if k > 0 {
      assert all[..|all| - 1] == Repeat(t, j) + Repeat(t + window, k - 1);
      BothInside(t, j, k - 1, window);
    } else if j > 0 {
      assert all == Repeat(t, j) && Repeat(t, j - 1) + Repeat(t + window, 0) == Repeat(t, j - 1);
      BothInside(t, j - 1, 0, window);
    }
  }

  /** ... and for every limit it can hold that many: full bursts exactly a window apart are both accepted. */
  lemma {:induction false} ClosedWindowDoubles(t: int, window: nat, max: nat)
    requires window > 0
    ensures var times := Repeat(t, max) + Repeat(t + window, max);
            Accepted(times, window, max) == times && |InClosed(times, t + window, window)| == 2 * max
  {
    var none: seq<int> := [];
    RoomForAll(none, t, max, window, max);
    assert none + Repeat(t, max) == Repeat(t, max);
    LeftTheWindow(t, max, window);
    RoomForAll(Repeat(t, max), t + window, max, window, max);
    BothInside(t, max, max, window);
  }

  /** A limit below one switches the limiter off. */
  lemma {:induction false} NoLimitAcceptsAll(times: seq<int>, window: nat, max: int)
    requires max <= 0
    ensures Accepted(times, window, max) == times
  {
    if times != [] {
      var n := |times| - 1;
      NoLimitAcceptsAll(times[..n], window, max);
      assert times == times[..n] + [times[n]];
    }
  }

  class RateLimiter {
    const maxRequests: int
    const rateWindow: nat
    var rateLimit: map<string, seq<int>>
    /** Every request accepted so far, by client. */
    ghost var history: map<string, seq<int>>
    /** The latest time seen. */
    ghost var clock: int

    constructor (maxRequests: int, rateWindow: nat)
      ensures Valid() && this.maxRequests == maxRequests && this.rateWindow == rateWindow && history == map[]
    {
      this.maxRequests, this.rateWindow := maxRequests, rateWindow;
      rateLimit, history, clock := map[], map[], 0;
    }

    ghost function History(client: string): seq<int>
      reads this`history
    {
      if client in history then history[client] else []
    }

    function Kept(client: string): seq<int>
      reads this`rateLimit
    {
      if client in rateLimit then rateLimit[client] else []
    }

    /** What is kept decides every later request as the full history would. */
    ghost predicate Valid()
      reads this
    {
      maxRequests > 0 ==>
        forall client, now: int :: now >= clock ==> Same(client, now)
    }

    ghost predicate Same(client: string, now: int)
      reads this`rateLimit, this`history
    {
      Agree(Kept(client), History(client), now, rateWindow)
    }

    /** Adding a request to what is kept and to the history keeps them agreeing. */
    lemma {:induction false} AgreesOn(timestamps: seq<int>, past: seq<int>, now: int)
      requires forall later: int :: later >= now ==> Agree(timestamps, past, later, rateWindow)
      ensures forall later: int :: later >= now ==>
                Agree(Recent(timestamps, now, rateWindow) + [now], past + [now], later, rateWindow)
    {
      forall later: int | later >= now
        ensures Agree(Recent(timestamps, now, rateWindow) + [now], past + [now], later, rateWindow)
      {
        assert Agree(timestamps, past, later, rateWindow);
        PrunedIsEnough(timestamps, now, later, rateWindow);
        RecentPush(Recent(timestamps, now, rateWindow), now, later, rateWindow);
        RecentPush(past, now, later, rateWindow);
      }
    }

    /** Allows the request exactly when the full history would, and records it. */
    method CheckRateLimit(client: string, now: int) returns (allowed: bool)
      requires Valid() && now >= clock
      modifies this
      ensures Valid() && clock == now
      ensures allowed <==> Allows(old(History(client)), now, rateWindow, maxRequests)
      ensures History(client) == if allowed then old(History(client)) + [now] else old(History(client))
      ensures forall other :: other != client ==> History(other) == old(History(other))
    {
      ghost var past := History(client);
      if maxRequests <= 0 {
        history, clock := history[client := past + [now]], now;
        return true;
      }
      var timestamps := if client in rateLimit then rateLimit[client] else [];
      forall later: int | later >= now ensures Agree(timestamps, past, later, rateWindow) {
        assert Same(client, later);
      }
      assert Agree(timestamps, past, now, rateWindow);
      var recent := Prune(timestamps, now);
      clock := now;
      if |recent| >= maxRequests { return false; }
      rateLimit := rateLimit[client := recent + [now]];
      history := history[client := past + [now]];
      AgreesOn(timestamps, past, now);
      forall other, later: int | later >= now ensures Same(other, later) {
        if other == client {
          assert Agree(recent + [now], past + [now], later, rateWindow);
        } else {
          assert old(Same(other, later));
        }
      }
      return true;
    }

    method Prune(timestamps: seq<int>, now: int) returns (recent: seq<int>)
      ensures recent == Recent(timestamps, now, rateWindow)
    {
      recent := [];
      assert timestamps[..0] == [];
      for i := 0 to |timestamps|
        invariant recent == Recent(timestamps[..i], now, rateWindow)
      {
        assert timestamps[..i + 1][..i] == timestamps[..i];
        if timestamps[i] > now - rateWindow { recent := recent + [timestamps[i]]; }
      }
      assert timestamps[..|timestamps|] == timestamps;
    }
  }

  /** One client's requests, one after another: exactly the reference's are accepted. */
  method Serve(limiter: RateLimiter, client: string, times: seq<int>) returns (accepted: seq<int>)
    requires limiter.Valid() && limiter.History(client) == [] && Ascending(times)
             && (times != [] ==> times[0] >= limiter.clock)
    modifies limiter
    ensures accepted == Accepted(times, limiter.rateWindow, limiter.maxRequests) == limiter.History(client)
  {
    accepted := [];
    assert times[..0] == [];
    for i := 0 to |times|
      invariant limiter.Valid() && (i > 0 ==> limiter.clock == times[i - 1])
                && (i == 0 ==> limiter.clock == old(limiter.clock))
      invariant accepted == Accepted(times[..i], limiter.rateWindow, limiter.maxRequests) == limiter.History(client)
    {
      assert times[..i + 1][..i] == times[..i];
      var allowed := limiter.CheckRateLimit(client, times[i]);
      if allowed { accepted := accepted + [times[i]]; }
    }
    assert times[..|times|] == times;
  }
}
