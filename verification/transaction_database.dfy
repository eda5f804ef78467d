/** The transaction database: records of bytes reached by transaction hash, updated in place. */
module TransactionDatabase {
  import opened Types
  import opened Record
  import opened RecordAccess
  import opened TransactionTable
  import TransactionResult

  class Transactions {
    var records: map<Hash, array<Byte>>
    ghost var table: Table

    /** Each record encodes its row, and no two hashes share a record. */
    ghost predicate Valid()
      reads this, records.Values
    {
      && records.Keys == table.Keys
      && (forall h :: h in records ==> Holds(records[h], table[h]))
      && (forall g, h :: g in records && h in records && g != h ==> records[g] != records[h])
    }

    constructor ()
      ensures Valid() && table == map[] && records == map[]
    {
      records := map[];
      table := map[];
    }

    // -------------------------------------------------------------- store

    /** Store a new transaction; an existing one is left as it is. */
    method Storize(tx: Transaction, height: nat, time: nat, position: nat) returns (ok: bool)
      requires Valid() && WellFormed(NewRow(tx, height, time, position))
      modifies this
      ensures Valid() && Outcome(ok, table) == TransactionTable.Storize(old(table), tx, height, time, position)
      ensures tx.hash in records
      ensures tx.hash !in old(records) ==>
                var row := Decode(records[tx.hash][..]);
                row.Some? && Carries(row.value, tx) && IsFresh(row.value, height, time, position)
      ensures forall h :: h in old(records) ==> h in records && records[h] == old(records)[h]
      ensures fresh(records.Values - old(records.Values))
    {
      hide Encode;
      hide Decode;
      hide WellFormed;
      hide Carries;
      hide IsFresh;
      hide NewRow;
      ok := true;
      if tx.hash in records {
        return;
      }
      ghost var row := NewRow(tx, height, time, position);
      var bytes := Encode(NewRow(tx, height, time, position));
      var record := new Byte[|bytes|](i requires 0 <= i < |bytes| => bytes[i]);
      assert record[..] == bytes;
      RoundTrip(row);
      NewRowCarries(tx, height, time, position);
      records := records[tx.hash := record];
      table := table[tx.hash := row];
    }

    /** Store the missing transactions of a block as unconfirmed. */
    method Store(txs: seq<Transaction>) returns (ok: bool)
      requires Valid()
      requires forall tx :: tx in txs ==> WellFormed(NewRow(tx, UNVERIFIED, NO_TIME, UNCONFIRMED))
      modifies this
      ensures Valid() && Outcome(ok, table) == Each(old(table), txs, Storing())
      ensures forall h :: h in old(records) ==> h in records && records[h] == old(records)[h]
      ensures fresh(records.Values - old(records.Values))
    {
      hide Holds;
      hide Each;
      EachNothing(table, txs, Storing());
      for i := 0 to |txs|
        invariant Valid() && Outcome(true, table) == Each(old(table), txs[..i], Storing())
        invariant forall h :: h in old(records) ==> h in records && records[h] == old(records)[h]
        invariant fresh(records.Values - old(records.Values))
      {
        assert txs[i] in txs;
        EachTake(old(table), txs, i, Storing());
        var stored := Storize(txs[i], UNVERIFIED, NO_TIME, UNCONFIRMED);
      }
      assert txs[..|txs|] == txs;
      ok := true;
    }

    // -------------------------------------------------------------- candidate

    method CandidateSpend(point: Point, positive: bool) returns (ok: bool)
      requires Valid()
      modifies this`table, records.Values
      ensures Valid() && Outcome(ok, table) == TransactionTable.CandidateSpend(old(table), point, positive)
    {
      hide Holds;
      hide WellFormed;
      hide SetCandidateSpent;
      hide OutputAt;
      if point.IsNull() {
        return true;
      }
      if point.hash !in records {
        return false;
      }
      var record := records[point.hash];
      ghost var row := table[point.hash];
      var outputs, c := OutputCount(record, row);
      if point.index >= outputs {
        return false;
      }
      WriteCandidateSpent(record, point.index, positive, row);
      table := table[point.hash := SetCandidateSpent(row, point.index, positive)];
      return true;
    }

    method Candidize(link: Hash, positive: bool)
      requires Valid() && link in table
      modifies this`table, records.Values
      ensures Valid() && Outcome(true, table) == TransactionTable.Candidize(old(table), link, positive)
    {
      hide Holds;
      hide WellFormed;
      WriteCandidate(records[link], positive, table[link]);
      table := table[link := table[link].(candidate := positive)];
    }

    method Candidate(link: Hash, positive: bool) returns (ok: bool)
      requires Valid() && link in table
      modifies this`table, records.Values
      ensures Valid() && Outcome(ok, table) == TransactionTable.Candidate(old(table), link, positive)
    {
      hide Holds;
      hide TransactionTable.CandidateSpend;
      hide Each;
      ghost var t, step := table, CandidateSpending(positive);
      var points := VisitInpoints(records[link], table[link]);
      EachNothing(t, points, step);
      for i := 0 to |points|
        invariant Valid() && Outcome(true, table) == Each(t, points[..i], step)
      {
        EachTake(t, points, i, step);
        ok := CandidateSpend(points[i], positive);
        if !ok {
          EachStops(t, points, i + 1, step);
          return;
        }
      }
      assert points[..|points|] == points;
      Candidize(link, positive);
      return true;
    }

    // -------------------------------------------------------------- confirm

    method ConfirmedSpend(point: Point, height: nat) returns (ok: bool)
      requires Valid()
      modifies this`table, records.Values
      ensures Valid() && Outcome(ok, table) == TransactionTable.ConfirmedSpend(old(table), point, height)
    {
      hide Holds;
      hide WellFormed;
      hide SetSpender;
      hide OutputAt;
      if point.IsNull() || height > MAX_UINT32 {
        return true;
      }
      if point.hash !in records {
        return false;
      }
      var record := records[point.hash];
      ghost var row := table[point.hash];
      var result := new TransactionResult.Result(record, row);
      var outputs, c := OutputCount(record, row);
      // The previous transaction was never confirmed, or only above this height.
      if result.position == UNCONFIRMED || result.height > height {
        return false;
      }
      // It has no such output.
      if point.index >= outputs {
        return false;
      }
      // A deconfirmed spender leaves the output as a new one has it.
      var spendHeight := if height == UNVERIFIED then NOT_SPENT else height;
      WriteSpender(record, point.index, spendHeight, row);
      table := table[point.hash := SetSpender(row, point.index, spendHeight)];
      return true;
    }

    method Confirmize(link: Hash, height: nat, time: nat, position: nat)
      requires Valid() && link in table
      requires height <= MAX_UINT32 && position <= MAX_UINT16 && time <= MAX_UINT32
      modifies this`table, records.Values
      ensures Valid() && Outcome(true, table) == TransactionTable.Confirmize(old(table), link, height, time, position)
    {
      hide Holds;
      hide WellFormed;
      WriteMetadata(records[link], height, position, time, table[link]);
      table := table[link := table[link].(height := height, position := position, candidate := false, time := time)];
    }

    /** Spend or unspend the previous outputs of a transaction. */
    method SpendInputs(link: Hash, height: nat) returns (ok: bool)
      requires Valid() && link in table
      modifies this`table, records.Values
      ensures Valid()
      ensures Outcome(ok, table) == Each(old(table), old(table)[link].Points(), ConfirmedSpending(height))
    {
      hide Holds;
      hide TransactionTable.ConfirmedSpend;
      hide Each;
      ghost var t, step := table, ConfirmedSpending(height);
      var points := VisitInpoints(records[link], table[link]);
      EachNothing(t, points, step);
      for i := 0 to |points|
        invariant Valid() && Outcome(true, table) == Each(t, points[..i], step)
      {
        EachTake(t, points, i, step);
        ok := ConfirmedSpend(points[i], height);
        if !ok {
          EachStops(t, points, i + 1, step);
          return;
        }
      }
      assert points[..|points|] == points;
      return true;
    }

    /** Promote or demote one transaction. */
    method Confirm(link: Hash, height: nat, time: nat, position: nat) returns (ok: bool)
      requires Valid() && (position == 0 ==> link in table)
      requires height <= MAX_UINT32 && position <= MAX_UINT16 && time <= MAX_UINT32
      modifies this`table, records.Values
      ensures Valid() && Outcome(ok, table) == TransactionTable.Confirm(old(table), link, height, time, position)
    {
      hide Holds;
      hide Each;
      if position != 0 {
        if link !in records {
          return false;
        }
        ok := SpendInputs(link, height);
        if !ok {
          return false;
        }
      }
      Confirmize(link, height, time, position);
      return true;
    }

    /** Confirm the transactions of a block in order. */
    method ConfirmBlock(links: seq<Hash>, height: nat, time: nat) returns (ok: bool)
      requires Valid() && (links != [] ==> links[0] in table)
      requires height <= MAX_UINT32 && time <= MAX_UINT32 && |links| <= MAX_BLOCK_TXS
      modifies this`table, records.Values
      ensures Valid() && Outcome(ok, table) == TransactionTable.ConfirmBlock(old(table), links, height, time)
    {
      hide Holds;
      hide TransactionTable.Confirm;
      hide Each;
      ghost var t, step := table, Confirming(height, time);
      EachNothing(t, links, step);
      for position := 0 to |links|
        invariant Valid() && Outcome(true, table) == Each(t, links[..position], step)
        invariant table.Keys == t.Keys
      {
        EachTake(t, links, position, step);
        ok := Confirm(links[position], height, time, position);
        if !ok {
          EachStops(t, links, position + 1, step);
          return;
        }
      }
      assert links[..|links|] == links;
      return true;
    }

    /** Deconfirm the transactions of a confirmed block, in the same order. */
    method UnconfirmBlock(links: seq<Hash>) returns (ok: bool)
      requires Valid()
      modifies this`table, records.Values
      ensures Valid() && Outcome(ok, table) == TransactionTable.UnconfirmBlock(old(table), links)
    {
      hide Holds;
      hide TransactionTable.Confirm;
      hide Each;
      ghost var t, step := table, Unconfirming();
      EachNothing(t, links, step);
      for i := 0 to |links|
        invariant Valid() && Outcome(true, table) == Each(t, links[..i], step)
      {
        EachTake(t, links, i, step);
        ok := Confirm(links[i], UNVERIFIED, NO_TIME, DECONFIRMED);
        if !ok {
          EachStops(t, links, i + 1, step);
          return;
        }
      }
      assert links[..|links|] == links;
      return true;
    }

    // -------------------------------------------------------------- queries

    method GetOutput(point: Point, forkHeight: nat) returns (prevout: Option<Prevout>)
      requires Valid()
      ensures prevout == TransactionTable.GetOutput(table, point, forkHeight)
    {
      hide Encode;
      if point.IsNull() || point.hash !in records {
        return None;
      }
      ghost var row := table[point.hash];
      var result := new TransactionResult.Result(records[point.hash], row);
      if result.height == 0 {
        return None;
      }
      var cache := result.OutputOf(point.index, row);
      if cache.None? {
        return None;
      }
      var hasPosition := result.position != UNCONFIRMED && result.position != DECONFIRMED;
      var spenderHeight := cache.value.spender;
      return Some(Prevout(
        result.height, result.time, result.position == 0, result.candidate,
        hasPosition && result.height <= forkHeight,
        cache.value.candidateSpent,
        spenderHeight != NOT_SPENT && spenderHeight <= forkHeight,
        cache.value));
    }
  }
}
