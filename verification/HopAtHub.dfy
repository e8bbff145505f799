/** One hop's payment, from the client's proofs to the hub's spent table and back. */
module HopAtHub {
  import opened Sums
  import opened Ecash
  import opened EcashStores
  import opened Mints
  import opened Handlers
  import opened Verdicts

  /** The points of a batch: what the spent table would know it by. */
  ghost function Points(h: CurveHash, proofs: seq<Proof>): (points: set<Point>)
    ensures forall i :: 0 <= i < |proofs| && h(proofs[i].secret).OnCurve? ==> h(proofs[i].secret).y in points
  {
    set i | 0 <= i < |proofs| && h(proofs[i].secret).OnCurve? :: h(proofs[i].secret).y
  }

  ghost predicate NoneSpent(h: CurveHash, spent: SpentTable, proofs: seq<Proof>) { Points(h, proofs) !! spent.Keys }

  ghost predicate AllSpent(h: CurveHash, spent: SpentTable, proofs: seq<Proof>) { Points(h, proofs) <= spent.Keys }

  /** Signed by this mint, and no two proofs of one point: what a wallet holds. */
  ghost predicate Own(h: CurveHash, keysets: map<string, Keyset>, proofs: seq<Proof>) {
    && AllGenuine(h, keysets, proofs)
    && forall i, k :: 0 <= i < k < |proofs| ==> h(proofs[i].secret).y != h(proofs[k].secret).y
  }

  /** What a wallet takes out of its vault. */
  ghost predicate Batch(h: CurveHash, keysets: map<string, Keyset>, proofs: seq<Proof>) {
    proofs != [] && Own(h, keysets, proofs)
  }

  lemma {:induction false} BatchTests(h: CurveHash, keysets: map<string, Keyset>, spent: SpentTable, proofs: seq<Proof>)
    requires Batch(h, keysets, proofs)
    ensures NoDuplicates(proofs)
    ensures Insertable(spent, RowsOf(h, proofs)) <==> NoneSpent(h, spent, proofs)
    ensures NoneSpent(h, spent, proofs) ==> !AllSpent(h, spent, proofs)
  {
    var rows := RowsOf(h, proofs);
    assert forall i :: 0 <= i < |proofs| ==> rows[i].y == h(proofs[i].secret).y;
    assert h(proofs[0].secret).y in Points(h, proofs);
    if Insertable(spent, rows) {
      forall y | y in Points(h, proofs) ensures y !in spent {
        var i :| 0 <= i < |proofs| && h(proofs[i].secret).y == y;
        assert rows[i].y !in spent;
      }
    }
  }

  /** Once a batch is inserted the table holds all of it. */
  lemma {:induction false} InsertedIsSpent(h: CurveHash, keysets: map<string, Keyset>, spent: SpentTable,
                                           proofs: seq<Proof>)
    requires Batch(h, keysets, proofs)
    ensures AllSpent(h, InsertAll(spent, RowsOf(h, proofs)), proofs)
  {
    var rows := RowsOf(h, proofs);
    InsertAllKeys(spent, rows);
    forall y | y in Points(h, proofs) ensures y in InsertAll(spent, rows) {
      var i :| 0 <= i < |proofs| && h(proofs[i].secret).y == y;
      assert rows[i].y == y;
    }
  }

  /**
   * A node presents a batch at the hub and answers the client. When both answers
   * arrive, the client gives up a batch of genuine proofs exactly when the hub
   * looked at it; the table then changes only if no proof of it was spent before.
   * So what the client makes of the batch equals what the table holds if and only
   * if the hub looked at it and none or all of it was spent before, or did not
   * look and not all of it was.
   */
  method PayHop(api: DiscoveryAPI, proofs: seq<Proof>, limited: bool, nodePubkey: string, workersBusy: bool,
                mode: Delivery, hubLink: Link, admission: Admission, nodeKey: string, nodeLink: Link)
    returns (reply: ConnectReply)
    modifies api.mint.store`spent
    ensures hubLink.Delivered? && nodeLink.Delivered? && Answers(admission, nodeKey) && !TreatAsSpent(reply) ==>
              api.mint.store.spent == old(api.mint.store.spent)
    ensures var h, before, after := api.mint.hash, old(api.mint.store.spent), api.mint.store.spent;
            var admitted := DiscoveryAPI.Admitted(limited, proofs, nodePubkey, workersBusy);
            !api.mint.store.faulty && Batch(h, api.mint.keysets, proofs) ==>
              && after
                 == (if admitted && NoneSpent(h, before, proofs) then InsertAll(before, RowsOf(h, proofs)) else before)
              && (hubLink.Delivered? && nodeLink.Delivered? && Answers(admission, nodeKey) ==>
                    && (TreatAsSpent(reply) <==> admitted)
                    && ((TreatAsSpent(reply) <==> AllSpent(h, after, proofs)) <==>
                        if admitted then NoneSpent(h, before, proofs) || AllSpent(h, before, proofs)
                        else !AllSpent(h, before, proofs)))
  {
    var spend := api.HandleRedeem(limited, proofs, nodePubkey, workersBusy);
    reply := EndToEnd(mode, spend.verdict, hubLink, admission, nodeKey, nodeLink);
    if Answers(admission, nodeKey) { DeliveredVerdictExact(mode, spend.verdict, admission, nodeKey); }
    if Batch(api.mint.hash, api.mint.keysets, proofs) {
      BatchTests(api.mint.hash, api.mint.keysets, old(api.mint.store.spent), proofs);
      InsertedIsSpent(api.mint.hash, api.mint.keysets, old(api.mint.store.spent), proofs);
    }
  }

  /** The node's answer carries what the client needs to read it. */
  predicate Answers(admission: Admission, nodeKey: string) {
    nodeKey != "" && (admission.PeerFailed? ==> admission.detail != "")
  }
}
