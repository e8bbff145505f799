/** The database behind the mint: each method is one statement or one transaction. */
module EcashStores {
  import opened Ecash

  datatype MintError =
    | UnknownKeyset | InactiveKeyset | NoKeyForAmount | Malformed
    | InvalidProof | AlreadySpent | DuplicateProofs | AmountMismatch
    | QuoteNotFound | QuoteNotPaid | QuoteAlreadyUsed | OutputOverQuote
    | NotReleased | StoreFault

  datatype Result<+T> = Ok(value: T) | Err(error: MintError)

  class EcashStore {
    var quotes: QuoteTable
    var spent: SpentTable
    /** Whether statements may fail for reasons of their own (disk, lock, driver). */
    const faulty: bool

    constructor (faulty: bool)
      ensures quotes == map[] && spent == map[] && this.faulty == faulty
    {
      quotes, spent := map[], map[];
      this.faulty := faulty;
    }

    /** Whether the next statement fails: never on a sound database. */
    method Fails() returns (failed: bool)
      ensures failed ==> faulty
    {
      failed := *;
      if !faulty { failed := false; }
    }

    method SaveMintQuote(id: string, quote: Quote) returns (r: Result<()>)
      modifies this`quotes
      ensures r.Ok? ==> id !in old(quotes) && quotes == old(quotes)[id := quote]
      ensures r.Err? ==> quotes == old(quotes)
      ensures !faulty ==> (r.Ok? <==> id !in old(quotes))
    {
      var failed := Fails();
      if failed || id in quotes { return Err(StoreFault); }
      quotes := quotes[id := quote];
      return Ok(());
    }

    method GetMintQuote(id: string) returns (r: Result<Quote>)
      ensures r.Ok? ==> id in quotes && r.value == quotes[id]
      ensures r.Err? && r.error == QuoteNotFound ==> id !in quotes
      ensures !faulty ==> r == if id in quotes then Ok(quotes[id]) else Err(QuoteNotFound)
    {
      var failed := Fails();
      if failed { return Err(StoreFault); }
      if id !in quotes { return Err(QuoteNotFound); }
      return Ok(quotes[id]);
    }

    method UpdateMintQuoteState(id: string, state: QuoteState) returns (r: Result<()>)
      modifies this`quotes
      ensures quotes == if r.Ok? then Overwrite(old(quotes), id, state) else old(quotes)
      ensures !faulty ==> (r.Ok? <==> id in old(quotes))
    {
      var failed := Fails();
      if failed { return Err(StoreFault); }
      if id !in quotes { return Err(QuoteNotFound); }
      quotes := quotes[id := quotes[id].(state := state)];
      return Ok(());
    }

    method TransitionMintQuoteState(id: string, from: QuoteState, to: QuoteState) returns (r: Result<bool>)
      modifies this`quotes
      ensures r.Ok? ==> (quotes, r.value) == Transition(old(quotes), id, from, to)
      ensures r.Err? ==> quotes == old(quotes) && r.error == StoreFault
      ensures !faulty ==> r.Ok?
    {
      var failed := Fails();
      if failed { return Err(StoreFault); }
      if id in quotes && quotes[id].state == from {
        quotes := quotes[id := quotes[id].(state := to)];
        return Ok(true);
      }
      return Ok(false);
    }

    method IsProofSpent(y: Point) returns (r: Result<bool>)
      ensures r.Ok? ==> r.value == (y in spent)
      ensures r.Err? ==> r.error == StoreFault && faulty
    {
      var failed := Fails();
      if failed { return Err(StoreFault); }
      return Ok(y in spent);
    }

    /** One transaction: every row is inserted, or none is. */
    method SaveSpentProofs(rows: seq<SpentRow>) returns (r: Result<()>)
      modifies this`spent
      ensures r.Ok? ==> Insertable(old(spent), rows) && spent == InsertAll(old(spent), rows)
      ensures r.Err? ==> spent == old(spent)
      ensures r.Err? && r.error == AlreadySpent ==> !Insertable(old(spent), rows)
      ensures r.Err? ==> r.error == AlreadySpent || (r.error == StoreFault && faulty)
    {
      var tx := spent;
      assert rows[..0] == [];
      for n := 0 to |rows|
        invariant spent == old(spent)
        invariant tx == InsertAll(spent, rows[..n])
        invariant Insertable(spent, rows[..n])
      {
        InsertAllKeys(spent, rows[..n]);
        assert rows[..n + 1][..n] == rows[..n];
        if rows[n].y in tx {
          if rows[n].y !in spent {
            var i :| 0 <= i < n && rows[..n][i].y == rows[n].y;
            assert rows[i].y == rows[n].y;
          }
          return Err(AlreadySpent);
        }
        var failed := Fails();
        if failed { return Err(StoreFault); }
        tx := tx[rows[n].y := rows[n]];
        forall i | 0 <= i < n ensures rows[i].y != rows[n].y { assert rows[..n][i].y == rows[i].y; }
      }
      assert rows[..|rows|] == rows;
      var failed := Fails();
      if failed { return Err(StoreFault); }
      spent := tx;
      return Ok(());
    }
  }
}
