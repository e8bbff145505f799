/**
 * Choosing proofs to pay with: greedy over descending denominations, then the
 * smallest proof that closes what is missing.
 *
 * Everything here speaks of the amounts held, of positions in that list, and of
 * an order that lists the positions by falling amount.
 */
module Denominations {

  /** What the chosen positions are worth. */
  function Worth(a: seq<nat>, chosen: set<nat>): nat {
    if a == [] then 0
    else Worth(a[..|a| - 1], chosen) + if |a| - 1 in chosen then a[|a| - 1] else 0
  }

  function Positions(a: seq<nat>): (all: set<nat>)
    ensures forall i :: i in all <==> 0 <= i < |a|
  {
    if a == [] then {} else Positions(a[..|a| - 1]) + {|a| - 1}
  }

  lemma {:induction false} WorthAdd(a: seq<nat>, chosen: set<nat>, i: nat)
    requires i !in chosen
    ensures Worth(a, chosen + {i}) == Worth(a, chosen) + if i < |a| then a[i] else 0
  {
    if a != [] { WorthAdd(a[..|a| - 1], chosen, i); }
  }

  lemma {:induction false} WorthMono(a: seq<nat>, small: set<nat>, big: set<nat>)
    requires forall i :: 0 <= i < |a| && i in small ==> i in big
    ensures Worth(a, small) <= Worth(a, big)
  {
    if a != [] { WorthMono(a[..|a| - 1], small, big); }
  }

  // ---- The order: positions by falling amount, ties by position ----

  /** Puts a position behind everything at least as large. */
  function Insert(a: seq<nat>, order: seq<nat>, i: nat): seq<nat>
    requires i < |a| && forall k :: 0 <= k < |order| ==> order[k] < |a|
  {
    if order == [] || a[order[|order| - 1]] >= a[i] then order + [i]
    else Insert(a, order[..|order| - 1], i) + [order[|order| - 1]]
  }

  function FallingUpTo(a: seq<nat>, n: nat): (order: seq<nat>)
    requires n <= |a|
    ensures forall k :: 0 <= k < |order| ==> order[k] < |a|
  {
    if n == 0 then []
    else
      var order := FallingUpTo(a, n - 1);
      InsertFalls(a, order, n - 1);
      Insert(a, order, n - 1)
  }

  /** The stable sort of the positions by falling amount. */
  function Falling(a: seq<nat>): seq<nat> { FallingUpTo(a, |a|) }

  predicate Falls(a: seq<nat>, order: seq<nat>) {
    && (forall k :: 0 <= k < |order| ==> order[k] < |a|)
    && (forall k, l :: 0 <= k < l < |order| ==> order[k] != order[l] && a[order[k]] >= a[order[l]])
  }

  lemma {:induction false} InsertFalls(a: seq<nat>, order: seq<nat>, i: nat)
    requires i < |a| && forall k :: 0 <= k < |order| ==> order[k] < |a|
    ensures forall k :: 0 <= k < |Insert(a, order, i)| ==> Insert(a, order, i)[k] < |a|
    ensures forall k :: k in Insert(a, order, i) <==> k in order || k == i
    ensures Falls(a, order) && i !in order ==> Falls(a, Insert(a, order, i))
  {
    if order != [] && a[order[|order| - 1]] < a[i] {
      var m := |order| - 1;
      InsertFalls(a, order[..m], i);
      assert order == order[..m] + [order[m]];
      if Falls(a, order) && i !in order { LastFalls(a, order, Insert(a, order[..m], i), i); }
    }
  }

  /** The last position may follow anything made of the ones before it and a larger amount. */
  lemma {:induction false} LastFalls(a: seq<nat>, order: seq<nat>, before: seq<nat>, i: nat)
    requires order != [] && Falls(a, order) && i !in order && i < |a| && a[order[|order| - 1]] < a[i]
    requires Falls(a, before) && forall k :: k in before <==> k in order[..|order| - 1] || k == i
    ensures Falls(a, before + [order[|order| - 1]])
  {
    var m := |order| - 1;
    forall k | 0 <= k < |before| ensures before[k] != order[m] && a[before[k]] >= a[order[m]] {
      assert before[k] in before;
    }
  }

  lemma {:induction false} FallingUpToFalls(a: seq<nat>, n: nat)
    requires n <= |a|
    ensures Falls(a, FallingUpTo(a, n))
    ensures forall i :: i in FallingUpTo(a, n) <==> 0 <= i < n
  {
    if n > 0 {
      FallingUpToFalls(a, n - 1);
      InsertFalls(a, FallingUpTo(a, n - 1), n - 1);
    }
  }

  /** Every position is listed once, by falling amount. */
  lemma {:induction false} FallingFalls(a: seq<nat>)
    ensures Falls(a, Falling(a))
    ensures forall i :: i in Falling(a) <==> 0 <= i < |a|
  {
    FallingUpToFalls(a, |a|);
  }

  // ---- Greedy selection and the fallback ----

  function Greedy(a: seq<nat>, order: seq<nat>, need: nat): set<nat>
    requires forall k :: 0 <= k < |order| ==> order[k] < |a|
  {
    if order == [] || need == 0 then {}
    else if a[order[0]] <= need then {order[0]} + Greedy(a, order[1..], need - a[order[0]])
    else Greedy(a, order[1..], need)
  }

  /** The first, in order, of the smallest unchosen positions worth at least need; -1 if none. */
  function Closing(a: seq<nat>, order: seq<nat>, chosen: set<nat>, need: nat): (best: int)
    requires forall k :: 0 <= k < |order| ==> order[k] < |a|
    ensures best == -1 || (0 <= best < |a| && best in order && best !in chosen && a[best] >= need)
    ensures forall i :: i in order && i !in chosen && a[i] >= need ==> best != -1 && a[best] <= a[i]
  {
    if order == [] then -1
    else
      var m := |order| - 1;
      var best := Closing(a, order[..m], chosen, need);
      assert forall i :: i in order ==> i in order[..m] || i == order[m];
      if order[m] in chosen || a[order[m]] < need then best
      else if best == -1 || a[order[m]] < a[best] then order[m]
      else best
  }

  /** Greedy, and when it falls short the position that closes the gap. */
  function Pick(a: seq<nat>, order: seq<nat>, need: nat): set<nat>
    requires forall k :: 0 <= k < |order| ==> order[k] < |a|
  {
    var greedy := Greedy(a, order, need);
    if Worth(a, greedy) >= need then greedy
    else
      var best := Closing(a, order, greedy, need - Worth(a, greedy));
      if best == -1 then greedy else greedy + {best}
  }

  /** What Take removes for an amount the positions can cover. */
  function Chosen(a: seq<nat>, need: nat): set<nat> { Pick(a, Falling(a), need) }

  /** Greedy never overshoots, and leaves only what is larger than what it is short of. */
  lemma {:induction false} GreedyLeaves(a: seq<nat>, order: seq<nat>, need: nat)
    requires Falls(a, order)
    ensures Greedy(a, order, need) <= Positions(a)
    ensures forall i :: i in Greedy(a, order, need) ==> i in order
    ensures Worth(a, Greedy(a, order, need)) <= need
    ensures Worth(a, Greedy(a, order, need)) < need ==>
              forall i :: i in order && i !in Greedy(a, order, need) ==> a[i] > need - Worth(a, Greedy(a, order, need))
  {
    if order == [] || need == 0 {
      WorthNone(a);
    } else {
      var rest := order[1..];
      assert order == [order[0]] + rest;
      if a[order[0]] <= need {
        var more := Greedy(a, rest, need - a[order[0]]);
        GreedyLeaves(a, rest, need - a[order[0]]);
        assert order[0] !in rest;
        WorthAdd(a, more, order[0]);
        assert more + {order[0]} == {order[0]} + more;
      } else {
        GreedyLeaves(a, rest, need);
      }
    }
  }

  lemma {:induction false} WorthNone(a: seq<nat>)
    ensures Worth(a, {}) == 0
  {
    if a != [] { WorthNone(a[..|a| - 1]); }
  }

  /** When greedy stops short of what is held in all, a position it passed over closes the gap. */
  lemma {:induction false} GapCloses(a: seq<nat>, order: seq<nat>, need: nat)
    requires Falls(a, order) && forall i :: 0 <= i < |a| ==> i in order
    requires Worth(a, Greedy(a, order, need)) < need <= Worth(a, Positions(a))
    ensures Closing(a, order, Greedy(a, order, need), need - Worth(a, Greedy(a, order, need))) != -1
  {
    var greedy := Greedy(a, order, need);
    GreedyLeaves(a, order, need);
    assert greedy <= Positions(a) && greedy != Positions(a);
    var i :| i in Positions(a) && i !in greedy;
    assert i in order && a[i] >= need - Worth(a, greedy);
  }

  /** Of the positions not chosen that are worth at least short, this is one worth the least. */
  predicate SmallestThatCloses(a: seq<nat>, chosen: set<nat>, short: nat, best: nat) {
    && best < |a| && best !in chosen && a[best] >= short
    && forall i :: 0 <= i < |a| && i !in chosen && a[i] >= short ==> a[best] <= a[i]
  }

  /** Greedy, or greedy and the smallest position that closes the gap. */
  ghost predicate Covering(a: seq<nat>, greedy: set<nat>, need: nat, chosen: set<nat>) {
    if Worth(a, greedy) >= need then chosen == greedy
    else exists best: nat :: SmallestThatCloses(a, greedy, need - Worth(a, greedy), best) && chosen == greedy + {best}
  }

  lemma {:induction false} PickCloses(a: seq<nat>, order: seq<nat>, need: nat)
    requires Falls(a, order) && forall i :: 0 <= i < |a| ==> i in order
    requires need <= Worth(a, Positions(a))
    ensures Covering(a, Greedy(a, order, need), need, Pick(a, order, need))
  {
    var greedy := Greedy(a, order, need);
    if Worth(a, greedy) < need {
      GapCloses(a, order, need);
      var best: nat := Closing(a, order, greedy, need - Worth(a, greedy));
      assert SmallestThatCloses(a, greedy, need - Worth(a, greedy), best);
    }
  }

  lemma {:induction false} PickCovers(a: seq<nat>, order: seq<nat>, need: nat)
    requires Falls(a, order) && forall i :: 0 <= i < |a| ==> i in order
    requires need <= Worth(a, Positions(a))
    ensures Pick(a, order, need) <= Positions(a)
    ensures Worth(a, Pick(a, order, need)) >= need
    ensures Worth(a, Pick(a, order, need)) == need ==> Worth(a, Greedy(a, order, need)) == need
  {
    var greedy := Greedy(a, order, need);
    GreedyLeaves(a, order, need);
    PickCloses(a, order, need);
    CoveringCovers(a, greedy, need, Pick(a, order, need));
  }

  lemma {:induction false} CoveringCovers(a: seq<nat>, greedy: set<nat>, need: nat, chosen: set<nat>)
    requires Covering(a, greedy, need, chosen) && greedy <= Positions(a) && Worth(a, greedy) <= need
    requires Worth(a, greedy) < need ==> forall i :: 0 <= i < |a| && i !in greedy ==> a[i] > need - Worth(a, greedy)
    ensures chosen <= Positions(a) && Worth(a, chosen) >= need
    ensures Worth(a, chosen) == need ==> Worth(a, greedy) == need
  {
    if Worth(a, greedy) < need {
      var best: nat :| SmallestThatCloses(a, greedy, need - Worth(a, greedy), best) && chosen == greedy + {best};
      WorthAdd(a, greedy, best);
    }
  }

  /**
   * Any amount up to what is held can be paid: the branch that finds nothing to
   * close the gap is never taken. When greedy falls short, exactly one position is
   * added to what it took: one that closes the gap, and no other position that
   * would is worth less.
   */
  lemma {:induction false} ChosenCovers(a: seq<nat>, need: nat)
    requires need <= Worth(a, Positions(a))
    ensures Chosen(a, need) <= Positions(a)
    ensures Worth(a, Chosen(a, need)) >= need
    ensures Covering(a, Greedy(a, Falling(a), need), need, Chosen(a, need))
  {
    FallingFalls(a);
    PickCovers(a, Falling(a), need);
    PickCloses(a, Falling(a), need);
  }

  // ---- Denominations that divide one another ----

  /** Some selection of the ordered positions is worth exactly r. */
  predicate Reaches(a: seq<nat>, order: seq<nat>, r: nat)
    requires forall k :: 0 <= k < |order| ==> order[k] < |a|
  {
    r == 0 || (order != [] && (Reaches(a, order[1..], r)
                               || (a[order[0]] <= r && Reaches(a, order[1..], r - a[order[0]]))))
  }

  /** Along the order, every amount is a divisor of all before it. */
  predicate Chain(a: seq<nat>, order: seq<nat>) {
    && (forall k :: 0 <= k < |order| ==> order[k] < |a| && a[order[k]] > 0)
    && (forall k, l :: 0 <= k < l < |order| ==> a[order[k]] % a[order[l]] == 0)
  }

  lemma {:induction false} ModDifference(d: nat, x: nat, y: nat)
    requires y > 0 && x <= d && d % y == 0 && x % y == 0
    ensures (d - x) % y == 0
  {
    assert d == y * (d / y) && x == y * (x / y);
    assert d - x == y * (d / y - x / y);
    MultipleMod(d / y - x / y, y);
  }

  lemma {:induction false} MultipleMod(k: nat, y: nat)
    requires y > 0
    ensures (y * k) % y == 0
  {
    var q, r := (y * k) / y, (y * k) % y;
    var d := k - q;
    assert y * d == y * k - y * q == r;
    assert y * d == -(y * -d);
    if d >= 1 { MultipleAtLeast(d, y); } else if d < 0 { MultipleAtLeast(-d, y); }
  }

  lemma {:induction false} MultipleAtLeast(k: nat, y: nat)
    requires k >= 1
    ensures y * k >= y
  {
  }

  /** What every amount divides, every later one divides, with or without the first one taken off. */
  lemma {:induction false} TailDivides(a: seq<nat>, order: seq<nat>, d: nat)
    requires Chain(a, order) && order != [] && d > 0 && forall k :: 0 <= k < |order| ==> d % a[order[k]] == 0
    ensures var rest, x := order[1..], a[order[0]];
            && Chain(a, rest) && d >= x
            && (forall k :: 0 <= k < |rest| ==> d % a[rest[k]] == 0)
            && (forall k :: 0 <= k < |rest| ==> (d - x) % a[rest[k]] == 0)
  {
    var rest, x := order[1..], a[order[0]];
    assert d % x == 0;
    assert forall k :: 0 <= k < |rest| ==> rest[k] == order[k + 1];
    forall k | 0 <= k < |rest| ensures (d - x) % a[rest[k]] == 0 {
      assert x % a[order[k + 1]] == 0;
      ModDifference(d, x, a[rest[k]]);
    }
  }

  /**
   * The exchange step: if r can be reached and every remaining amount divides d,
   * then some part of the selection is worth exactly d and can be left out.
   */
  lemma {:induction false} LeaveOut(a: seq<nat>, order: seq<nat>, r: nat, d: nat)
    requires Chain(a, order) && Reaches(a, order, r) && d <= r
    requires forall k :: 0 <= k < |order| ==> d % a[order[k]] == 0
    ensures Reaches(a, order, r - d)
    decreases |order|
  {
    if d > 0 && r > d {
      var rest, x := order[1..], a[order[0]];
      TailDivides(a, order, d);
      if Reaches(a, rest, r) {
        LeaveOut(a, rest, r, d);
      } else {
        LeaveOut(a, rest, r - x, d - x);
      }
    }
  }

  lemma {:induction false} ChainTail(a: seq<nat>, order: seq<nat>)
    requires Falls(a, order) && Chain(a, order) && order != []
    ensures Falls(a, order[1..]) && Chain(a, order[1..]) && order[0] !in order[1..]
    ensures forall k :: 0 <= k < |order[1..]| ==> a[order[0]] % a[order[1..][k]] == 0
  {
  }

  /** Taking the head leaves greedy with the same problem on the tail. */
  lemma {:induction false} GreedyHead(a: seq<nat>, order: seq<nat>, need: nat)
    requires Falls(a, order) && order != [] && need > 0 && a[order[0]] <= need
    ensures Worth(a, Greedy(a, order, need)) == a[order[0]] + Worth(a, Greedy(a, order[1..], need - a[order[0]]))
  {
    var more := Greedy(a, order[1..], need - a[order[0]]);
    GreedyLeaves(a, order[1..], need - a[order[0]]);
    assert order[0] !in order[1..];
    WorthAdd(a, more, order[0]);
    assert more + {order[0]} == {order[0]} + more;
  }

  /** With such denominations greedy reaches an amount whenever anything does. */
  lemma {:induction false} GreedyReaches(a: seq<nat>, order: seq<nat>, need: nat)
    requires Falls(a, order) && Chain(a, order)
    ensures Reaches(a, order, need) <==> Worth(a, Greedy(a, order, need)) == need
    decreases |order|
  {
    WorthNone(a);
    if order != [] && need > 0 {
      var rest, x := order[1..], a[order[0]];
      ChainTail(a, order);
      if x <= need {
        GreedyReaches(a, rest, need - x);
        GreedyHead(a, order, need);
        if Reaches(a, rest, need) { LeaveOut(a, rest, need, x); }
      } else {
        GreedyReaches(a, rest, need);
      }
    }
  }

  /** Reaching along the order is the same as picking a set of positions. */
  lemma {:induction false} ReachesGivesSet(a: seq<nat>, order: seq<nat>, r: nat) returns (picked: set<nat>)
    requires Falls(a, order) && Reaches(a, order, r)
    ensures picked <= Positions(a) && Worth(a, picked) == r && forall i :: i in picked ==> i in order
  {
    WorthNone(a);
    picked := {};
    if r > 0 {
      var rest := order[1..];
      if Reaches(a, rest, r) {
        picked := ReachesGivesSet(a, rest, r);
      } else {
        picked := ReachesGivesSet(a, rest, r - a[order[0]]);
        assert order[0] !in rest;
        WorthAdd(a, picked, order[0]);
        picked := picked + {order[0]};
      }
    }
  }

  lemma {:induction false} SetGivesReaches(a: seq<nat>, order: seq<nat>, picked: set<nat>)
    requires Falls(a, order)
    requires forall i :: i in picked ==> i in order
    ensures Reaches(a, order, Worth(a, picked))
    decreases |order|
  {
    if order == [] {
      assert picked == {};
      WorthNone(a);
    } else {
      var rest := order[1..];
      assert order == [order[0]] + rest;
      if order[0] in picked {
        var others := picked - {order[0]};
        assert picked == others + {order[0]};
        WorthAdd(a, others, order[0]);
        SetGivesReaches(a, rest, others);
      } else {
        SetGivesReaches(a, rest, picked);
      }
    }
  }

  // ---- Powers of two ----

  predicate IsPowerOfTwo(n: nat) {
    n == 1 || (n > 1 && n % 2 == 0 && IsPowerOfTwo(n / 2))
  }

  /** Of two powers of two the smaller divides the larger. */
  lemma {:induction false} PowersDivide(x: nat, y: nat)
    requires IsPowerOfTwo(x) && IsPowerOfTwo(y) && y <= x
    ensures x % y == 0
  {
    if y > 1 {
      PowersDivide(x / 2, y / 2);
      var k := (x / 2) / (y / 2);
      assert x / 2 == (y / 2) * k;
      assert x == y * k;
      MultipleMod(k, y);
    }
  }

  /**
   * For power-of-two denominations Take pays an amount exactly if and only if
   * some selection of the proofs held is worth exactly that amount.
   */
  lemma {:induction false} ChosenExactIff(a: seq<nat>, need: nat)
    requires forall i :: 0 <= i < |a| ==> IsPowerOfTwo(a[i])
    requires need <= Worth(a, Positions(a))
    ensures Worth(a, Chosen(a, need)) == need
            <==> exists picked: set<nat> :: picked <= Positions(a) && Worth(a, picked) == need
  {
    FallingFalls(a);
    var order := Falling(a);
    PickCovers(a, order, need);
    forall k, l | 0 <= k < l < |order| ensures a[order[k]] % a[order[l]] == 0 {
      PowersDivide(a[order[k]], a[order[l]]);
    }
    GreedyReaches(a, order, need);
    if picked: set<nat> :| picked <= Positions(a) && Worth(a, picked) == need {
      SetGivesReaches(a, order, picked);
    }
  }
}
