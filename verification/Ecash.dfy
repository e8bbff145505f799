/**
 * The vocabulary of the mint: proofs, quotes, and the two database tables they
 * live in, with the single-statement operations the database performs on them.
 */
module Ecash {
  import opened Sums

  /** uint64 totals wrap at this modulus. */
  const U64: nat := 0x1_0000_0000_0000_0000

  /** The most proofs or outputs one request may carry. */
  const MAX_ITEMS: nat := 64

  /** The most sats one quote may be for. */
  const MAX_QUOTE: nat := 1_000_000

  /** A curve point in hexadecimal; a spent proof is identified by one. */
  type Point = string

  /** Hashing a secret to the curve, which may find no point. */
  datatype Hashed = NoPoint | OnCurve(y: Point)
  type CurveHash = string -> Hashed

  /**
   * An idealised unblinded signature: the term k * Y for the key k of one
   * denomination of one keyset. Holding the term is the only way to present it.
   */
  datatype Sig = Sig(keyset: string, amount: nat, y: Point)

  /** What a client presents as C: a point it can hold, or undecodable bytes. */
  datatype Presented = Garbled | Holds(sig: Sig)

  datatype Proof = Proof(keyset: string, amount: nat, secret: string, c: Presented)

  /** A blinded message; y is what the blinding hides from the mint. */
  datatype Blinded = Blinded(keyset: string, amount: nat, wellFormed: bool, y: Point)

  datatype QuoteState = Unpaid | Paid | Issued | Expired
  datatype Quote = Quote(amount: nat, state: QuoteState)
  type QuoteTable = map<string, Quote>

  /** A row of the spent-proof table, whose primary key is the point y. */
  datatype SpentRow = SpentRow(y: Point, keyset: string, amount: nat, secret: string, c: Presented)
  type SpentTable = map<Point, SpentRow>

  function ProofAmount(p: Proof): nat { p.amount }

  function BlindedAmount(b: Blinded): nat { b.amount }

  function SigAmount(s: Sig): nat { s.amount }

  /** The term k * Y(secret) a proof must carry to verify. */
  function Expected(h: CurveHash, p: Proof): Sig
    requires h(p.secret).OnCurve?
  {
    Sig(p.keyset, p.amount, h(p.secret).y)
  }

  /** BDHKE verification: k * Y == C. */
  predicate Verifies(h: CurveHash, p: Proof) {
    h(p.secret).OnCurve? && p.c == Holds(Expected(h, p))
  }

  predicate AllHashed(h: CurveHash, proofs: seq<Proof>) {
    forall i :: 0 <= i < |proofs| ==> h(proofs[i].secret).OnCurve?
  }

  predicate AllVerify(h: CurveHash, proofs: seq<Proof>)
    ensures AllVerify(h, proofs) ==> AllHashed(h, proofs)
  {
    forall i :: 0 <= i < |proofs| ==> Verifies(h, proofs[i])
  }

  function RowOf(h: CurveHash, p: Proof): SpentRow
    requires h(p.secret).OnCurve?
  {
    SpentRow(h(p.secret).y, p.keyset, p.amount, p.secret, p.c)
  }

  function RowsOf(h: CurveHash, proofs: seq<Proof>): (rows: seq<SpentRow>)
    requires AllHashed(h, proofs)
  {
    seq(|proofs|, i requires 0 <= i < |proofs| => RowOf(h, proofs[i]))
  }

  function Sigs(outs: seq<Blinded>): seq<Sig> {
    seq(|outs|, i requires 0 <= i < |outs| => Sig(outs[i].keyset, outs[i].amount, outs[i].y))
  }

  /** UPDATE mint_quotes SET state = to WHERE id = ? AND state = from. */
  function Transition(quotes: QuoteTable, id: string, from: QuoteState, to: QuoteState): (r: (QuoteTable, bool))
  {
    if id in quotes && quotes[id].state == from
    then (quotes[id := quotes[id].(state := to)], true)
    else (quotes, false)
  }

  /** UPDATE mint_quotes SET state = to WHERE id = ?. */
  function Overwrite(quotes: QuoteTable, id: string, to: QuoteState): QuoteTable {
    if id in quotes then quotes[id := quotes[id].(state := to)] else quotes
  }

  /** No row of the batch collides with the table or with another row. */
  predicate Insertable(spent: SpentTable, rows: seq<SpentRow>) {
    && (forall i :: 0 <= i < |rows| ==> rows[i].y !in spent)
    && (forall i, j :: 0 <= i < j < |rows| ==> rows[i].y != rows[j].y)
  }

  function InsertAll(spent: SpentTable, rows: seq<SpentRow>): SpentTable {
    if rows == [] then spent
    else InsertAll(spent, rows[..|rows| - 1])[rows[|rows| - 1].y := rows[|rows| - 1]]
  }

  /** The table after a batch holds the old keys and the keys of the batch. */
  lemma {:induction false} InsertAllKeys(spent: SpentTable, rows: seq<SpentRow>)
    ensures forall y :: y in InsertAll(spent, rows) <==> y in spent || exists i :: 0 <= i < |rows| && rows[i].y == y
  {
    if rows != [] {
      var n := |rows| - 1;
      InsertAllKeys(spent, rows[..n]);
      forall y
        ensures y in InsertAll(spent, rows) <==> y in spent || exists i :: 0 <= i < |rows| && rows[i].y == y
      {
        if i :| 0 <= i < |rows| && rows[i].y == y && i < n { assert rows[..n][i].y == y; }
        if i :| 0 <= i < n && rows[..n][i].y == y { assert rows[i].y == y; }
      }
    }
  }

  /** A batch that collides nowhere keeps every old row and stores every new one. */
  lemma {:induction false} InsertAllRows(spent: SpentTable, rows: seq<SpentRow>)
    requires Insertable(spent, rows)
    ensures forall y :: y in spent ==> y in InsertAll(spent, rows) && InsertAll(spent, rows)[y] == spent[y]
    ensures forall i :: 0 <= i < |rows| ==>
              rows[i].y in InsertAll(spent, rows) && InsertAll(spent, rows)[rows[i].y] == rows[i]
  {
    if rows != [] {
      var n := |rows| - 1;
      var init := rows[..n];
      assert forall i :: 0 <= i < n ==> init[i] == rows[i];
      InsertAllRows(spent, init);
      assert InsertAll(spent, rows) == InsertAll(spent, init)[rows[n].y := rows[n]];
      forall i | 0 <= i < |rows|
        ensures rows[i].y in InsertAll(spent, rows) && InsertAll(spent, rows)[rows[i].y] == rows[i]
      {
        if i < n { assert init[i] == rows[i] && rows[i].y != rows[n].y; }
      }
    }
  }

  /** No proof appears twice; two proofs of one secret may still differ elsewhere. */
  predicate NoDuplicates(proofs: seq<Proof>) {
    forall i, j :: 0 <= i < j < |proofs| ==> proofs[i] != proofs[j]
  }

  /** What Amount() of a token list returns: a uint64 sum, which wraps. */
  function Total64<T>(xs: seq<T>, amount: T -> nat): nat {
    SumBy(xs, amount) % U64
  }
}
