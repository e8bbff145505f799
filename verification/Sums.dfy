/** Sums over sequences, shared by the money-conservation arguments. */
module Sums {

  /** The sum of f over every element of xs. */
  function SumBy<T>(xs: seq<T>, f: T -> nat): nat {
    if xs == [] then 0 else SumBy(xs[..|xs| - 1], f) + f(xs[|xs| - 1])
  }

  lemma {:induction false} SumByConcat<T>(xs: seq<T>, ys: seq<T>, f: T -> nat)
    ensures SumBy(xs + ys, f) == SumBy(xs, f) + SumBy(ys, f)
  {
    if ys == [] {
      assert xs + ys == xs;
    } else {
      var n := |ys| - 1;
      assert (xs + ys)[..|xs + ys| - 1] == xs + ys[..n];
      SumByConcat(xs, ys[..n], f);
    }
  }

  lemma {:induction false} SumByPush<T>(xs: seq<T>, x: T, f: T -> nat)
    ensures SumBy(xs + [x], f) == SumBy(xs, f) + f(x)
  {
  }

  /** Replacing one element changes the sum by exactly the difference. */
  lemma {:induction false} SumByUpdate<T>(xs: seq<T>, k: nat, x: T, f: T -> nat)
    requires k < |xs|
    ensures SumBy(xs[k := x], f) + f(xs[k]) == SumBy(xs, f) + f(x)
  {
    var n := |xs| - 1;
    if k == n {
      assert xs[k := x][..n] == xs[..n];
    } else {
      assert xs[k := x][..n] == xs[..n][k := x];
      SumByUpdate(xs[..n], k, x, f);
    }
  }

  /** Removing one element lowers the sum by exactly its value. */
  lemma {:induction false} SumByRemove<T>(xs: seq<T>, k: nat, f: T -> nat)
    requires k < |xs|
    ensures SumBy(xs, f) == SumBy(xs[..k] + xs[k + 1..], f) + f(xs[k])
  {
    SumByConcat(xs[..k], xs[k + 1..], f);
    assert xs == xs[..k] + xs[k..];
    SumByConcat(xs[..k], xs[k..], f);
    assert xs[k..] == [xs[k]] + xs[k + 1..];
    SumByConcat([xs[k]], xs[k + 1..], f);
    assert [xs[k]][..0] == [];
  }

  /** Pointwise domination carries over to sums. */
  lemma {:induction false} SumByMono<T>(xs: seq<T>, f: T -> nat, g: T -> nat)
    requires forall i :: 0 <= i < |xs| ==> f(xs[i]) <= g(xs[i])
    ensures SumBy(xs, f) <= SumBy(xs, g)
  {
    if xs != [] {
      var n := |xs| - 1;
      assert forall i :: 0 <= i < n ==> xs[..n][i] == xs[i];
      SumByMono(xs[..n], f, g);
    }
  }

  lemma {:induction false} SumByAdd<T>(xs: seq<T>, f: T -> nat, g: T -> nat, h: T -> nat)
    requires forall i :: 0 <= i < |xs| ==> h(xs[i]) == f(xs[i]) + g(xs[i])
    ensures SumBy(xs, h) == SumBy(xs, f) + SumBy(xs, g)
  {
    if xs != [] {
      var n := |xs| - 1;
      assert forall i :: 0 <= i < n ==> xs[..n][i] == xs[i];
      SumByAdd(xs[..n], f, g, h);
    }
  }

  /**
   * An injection bounds a sum: when every element of xs that counts is carried
   * by m to an element of ys worth at least as much, and no two of them to the
   * same one, xs is worth no more than ys.
   */
  lemma {:induction false} InjectionBelow<A, B>(xs: seq<A>, f: A -> nat, m: A -> B, ys: seq<B>, g: B -> nat)
    requires forall i :: 0 <= i < |xs| && f(xs[i]) > 0 ==> m(xs[i]) in ys && f(xs[i]) <= g(m(xs[i]))
    requires forall i, j :: 0 <= i < j < |xs| && f(xs[i]) > 0 && f(xs[j]) > 0 ==> m(xs[i]) != m(xs[j])
    ensures SumBy(xs, f) <= SumBy(ys, g)
    decreases |xs|
  {
    if xs != [] {
      var n := |xs| - 1;
      var rest, last := xs[..n], xs[n];
      assert forall i :: 0 <= i < n ==> rest[i] == xs[i];
      if f(last) == 0 {
        InjectionBelow(rest, f, m, ys, g);
      } else {
        var k :| 0 <= k < |ys| && ys[k] == m(last);
        var others := ys[..k] + ys[k + 1..];
        forall i | 0 <= i < n && f(rest[i]) > 0
          ensures m(rest[i]) in others
        {
          assert m(rest[i]) != m(xs[n]);
          var j :| 0 <= j < |ys| && ys[j] == m(rest[i]);
          assert j != k;
          if j < k { assert others[j] == ys[j]; } else { assert others[j - 1] == ys[j]; }
        }
        InjectionBelow(rest, f, m, others, g);
        SumByRemove(ys, k, g);
      }
    }
  }

  /** Two permutations stay permutations without the first one's last element. */
  lemma {:induction false} FindAndRemove<T>(a: seq<T>, b: seq<T>) returns (k: nat)
    requires multiset(a) == multiset(b) && a != []
    ensures k < |b| && b[k] == a[|a| - 1]
    ensures multiset(a[..|a| - 1]) == multiset(b[..k] + b[k + 1..])
  {
    var n := |a| - 1;
    assert a[n] in multiset(a);
    k :| 0 <= k < |b| && b[k] == a[n];
    LessOne(a, n);
    LessOne(b, k);
    assert a[..n] + a[n + 1..] == a[..n];
  }

  lemma {:induction false} LessOne<T>(a: seq<T>, k: nat)
    requires k < |a|
    ensures multiset(a[..k] + a[k + 1..]) == multiset(a) - multiset{a[k]}
  {
    assert a == a[..k] + [a[k]] + a[k + 1..];
  }

  /** The order of the elements makes no difference to a sum. */
  lemma {:induction false} SumByPermuted<T>(a: seq<T>, b: seq<T>, f: T -> nat)
    requires multiset(a) == multiset(b)
    ensures SumBy(a, f) == SumBy(b, f)
  {
    if a == [] {
      assert |multiset(b)| == 0;
    } else {
      var k := FindAndRemove(a, b);
      SumByPermuted(a[..|a| - 1], b[..k] + b[k + 1..], f);
      SumByRemove(b, k, f);
    }
  }
}
