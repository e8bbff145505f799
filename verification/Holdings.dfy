/** Lists of held proofs: taking a part, putting proofs back, and their secrets. */
module Holdings {
  import opened Sums
  import opened Ecash
  import opened Denominations

  function Amounts(held: seq<Proof>): seq<nat> {
    seq(|held|, i requires 0 <= i < |held| => held[i].amount)
  }

  function Total(held: seq<Proof>): nat { SumBy(held, ProofAmount) }

  /** The proofs at the chosen positions, or at the others, in the order held. */
  function Part(held: seq<Proof>, chosen: set<nat>, inside: bool): seq<Proof> {
    if held == [] then []
    else
      var n := |held| - 1;
      Part(held[..n], chosen, inside) + if (n in chosen) == inside then [held[n]] else []
  }

  /** Appends each proof whose secret is not there yet. */
  function Merge(held: seq<Proof>, more: seq<Proof>): seq<Proof> {
    if more == [] then held
    else
      var init := Merge(held, more[..|more| - 1]);
      if more[|more| - 1].secret in Secrets(init) then init else init + [more[|more| - 1]]
  }

  function Secrets(held: seq<Proof>): (names: set<string>)
    ensures forall i :: 0 <= i < |held| ==> held[i].secret in names
    ensures forall x :: x in names ==> exists i :: 0 <= i < |held| && held[i].secret == x
  {
    set i | 0 <= i < |held| :: held[i].secret
  }

  predicate Distinct(held: seq<Proof>) {
    forall i, j :: 0 <= i < j < |held| ==> held[i].secret != held[j].secret
  }

  lemma {:induction false} SecretsConcat(held: seq<Proof>, more: seq<Proof>)
    ensures Secrets(held + more) == Secrets(held) + Secrets(more)
  {
    forall x | x in Secrets(held) + Secrets(more) ensures x in Secrets(held + more) {
      if x in Secrets(held) {
        var i :| 0 <= i < |held| && held[i].secret == x;
        assert (held + more)[i].secret == x;
      } else {
        var i :| 0 <= i < |more| && more[i].secret == x;
        assert (held + more)[|held| + i].secret == x;
      }
    }
  }

  lemma {:induction false} DistinctConcat(held: seq<Proof>, more: seq<Proof>)
    ensures Distinct(held + more) <==> Distinct(held) && Distinct(more) && Secrets(held) !! Secrets(more)
  {
    var all := held + more;
    if Distinct(all) {
      forall i, j | 0 <= i < j < |more| ensures more[i].secret != more[j].secret {
        assert all[|held| + i] == more[i] && all[|held| + j] == more[j];
      }
      forall i, j | 0 <= i < j < |held| ensures held[i].secret != held[j].secret {
        assert all[i] == held[i] && all[j] == held[j];
      }
      forall i, j | 0 <= i < |held| && 0 <= j < |more| ensures held[i].secret != more[j].secret {
        assert all[i] == held[i] && all[|held| + j] == more[j];
      }
    }
  }

  /** One more proof joins the part it belongs to and leaves the other as it was. */
  lemma {:induction false} PartStep(held: seq<Proof>, chosen: set<nat>)
    requires held != []
    ensures var n := |held| - 1;
            var inside := n in chosen;
            && held == held[..n] + [held[n]]
            && Part(held, chosen, inside) == Part(held[..n], chosen, inside) + [held[n]]
            && Part(held, chosen, !inside) == Part(held[..n], chosen, !inside)
  {
  }

  /** The two parts split the holdings: same proofs and same worth ... */
  lemma {:induction false} PartsSplit(held: seq<Proof>, chosen: set<nat>)
    ensures multiset(Part(held, chosen, true)) + multiset(Part(held, chosen, false)) == multiset(held)
    ensures Total(Part(held, chosen, true)) + Total(Part(held, chosen, false)) == Total(held)
  {
    if held != [] {
      var n := |held| - 1;
      PartStep(held, chosen);
      PartsSplit(held[..n], chosen);
      SumByPush(Part(held[..n], chosen, n in chosen), held[n], ProofAmount);
      SumByPush(held[..n], held[n], ProofAmount);
    }
  }

  /** ... and same secrets. */
  lemma {:induction false} PartSecrets(held: seq<Proof>, chosen: set<nat>)
    ensures Secrets(Part(held, chosen, true)) + Secrets(Part(held, chosen, false)) == Secrets(held)
  {
    if held != [] {
      var n := |held| - 1;
      PartStep(held, chosen);
      PartSecrets(held[..n], chosen);
      SecretsConcat(held[..n], [held[n]]);
      SecretsConcat(Part(held[..n], chosen, n in chosen), [held[n]]);
    }
  }

  lemma {:induction false} PartWorth(held: seq<Proof>, chosen: set<nat>)
    ensures Total(Part(held, chosen, true)) == Worth(Amounts(held), chosen)
  {
    if held != [] {
      var n := |held| - 1;
      PartWorth(held[..n], chosen);
      assert Amounts(held)[..n] == Amounts(held[..n]);
      SumByPush(Part(held[..n], chosen, true), held[n], ProofAmount);
      PartStep(held, chosen);
    }
  }

  lemma {:induction false} TotalIsWorth(held: seq<Proof>)
    ensures Total(held) == Worth(Amounts(held), Positions(Amounts(held)))
  {
    if held != [] {
      var n := |held| - 1;
      var a := Amounts(held);
      TotalIsWorth(held[..n]);
      assert a[..n] == Amounts(held[..n]);
      WorthAdd(a[..n], Positions(a[..n]), n);
    }
  }

  lemma {:induction false} PartsDistinct(held: seq<Proof>, chosen: set<nat>)
    requires Distinct(held)
    ensures Distinct(Part(held, chosen, true)) && Distinct(Part(held, chosen, false))
    ensures Secrets(Part(held, chosen, true)) !! Secrets(Part(held, chosen, false))
  {
    if held != [] {
      var n := |held| - 1;
      var init, inside := held[..n], n in chosen;
      PartStep(held, chosen);
      DistinctConcat(init, [held[n]]);
      PartsDistinct(init, chosen);
      PartSecrets(init, chosen);
      DistinctConcat(Part(init, chosen, inside), [held[n]]);
      SecretsConcat(Part(init, chosen, inside), [held[n]]);
    }
  }

  /** Merging never drops a proof, never doubles a secret, and adds every new one. */
  lemma {:induction false} MergeKeeps(held: seq<Proof>, more: seq<Proof>)
    ensures held <= Merge(held, more)
    ensures Secrets(Merge(held, more)) == Secrets(held) + Secrets(more)
    ensures Distinct(held) ==> Distinct(Merge(held, more))
  {
    if more != [] {
      var n := |more| - 1;
      MergeKeeps(held, more[..n]);
      assert more == more[..n] + [more[n]];
      SecretsConcat(more[..n], [more[n]]);
      SecretsConcat(Merge(held, more[..n]), [more[n]]);
      DistinctConcat(Merge(held, more[..n]), [more[n]]);
    }
  }

  /** Proofs that are all new are simply appended. */
  lemma {:induction false} MergeNew(held: seq<Proof>, more: seq<Proof>)
    requires Distinct(more) && Secrets(held) !! Secrets(more)
    ensures Merge(held, more) == held + more
  {
    if more != [] {
      var n := |more| - 1;
      var init := more[..n];
      assert more == init + [more[n]];
      DistinctConcat(init, [more[n]]);
      SecretsConcat(init, [more[n]]);
      MergeNew(held, init);
      SecretsConcat(held, init);
    }
  }

  /** Proofs that are all there already change nothing. */
  lemma {:induction false} MergeOld(held: seq<Proof>, more: seq<Proof>)
    requires Secrets(more) <= Secrets(held)
    ensures Merge(held, more) == held
  {
    if more != [] {
      var n := |more| - 1;
      assert more == more[..n] + [more[n]];
      SecretsConcat(more[..n], [more[n]]);
      MergeOld(held, more[..n]);
    }
  }

  /** Putting a taken part back gives back the same proofs and the same balance. */
  lemma {:induction false} PutBack(held: seq<Proof>, chosen: set<nat>)
    requires Distinct(held)
    ensures var back := Merge(Part(held, chosen, false), Part(held, chosen, true));
            multiset(back) == multiset(held) && Total(back) == Total(held)
            && Distinct(back) && Secrets(back) == Secrets(held)
  {
    var taken, left := Part(held, chosen, true), Part(held, chosen, false);
    PartsSplit(held, chosen);
    PartSecrets(held, chosen);
    PartsDistinct(held, chosen);
    MergeNew(left, taken);
    MergeKeeps(left, taken);
    SumByConcat(left, taken, ProofAmount);
  }
}
