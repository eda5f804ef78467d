/** The block database: header rows, candidate and confirmed height indexes, and transaction links. */
module BlockDatabase {
  import opened Types
  import opened BlockState
  import opened BlockTable

  /** Walks the transaction links of a block. */
  class TransactionIterator {
    var offsets: seq<Hash>
    var index: nat

    ghost predicate Valid()
      reads this
    {
      index <= |offsets|
    }

    /** Prepopulate the links; nothing is read when there are none. */
    constructor (links: seq<Hash>, start: nat, count: nat)
      requires count != 0 ==> start + count <= |links|
      ensures Valid() && index == 0
      ensures offsets == if count == 0 then [] else links[start..start + count]
    {
      index := 0;
      offsets := [];
      new;
      for offset := 0 to count
        invariant index == 0 && |offsets| == offset
        invariant offset > 0 ==> offsets == links[start..start + offset]
      {
        offsets := offsets + [links[start + offset]];
      }
    }

    method Current() returns (link: Hash)
      requires Valid() && index < |offsets|
      ensures link == offsets[index]
    {
      link := offsets[index];
    }

    method Increment()
      requires Valid() && index < |offsets|
      modifies this
      ensures Valid() && offsets == old(offsets) && index == old(index) + 1
    {
      index := index + 1;
    }

    predicate Equals(other: TransactionIterator)
      reads this, other
    {
      var leftTerminal := |offsets| == index;
      var rightTerminal := |other.offsets| == other.index;
      (leftTerminal && rightTerminal) || (index == other.index && !leftTerminal && !rightTerminal)
    }
  }

  class BlockStore {
    var rows: map<Hash, BlockRow>
    var candidateIndex: seq<Hash>
    var confirmedIndex: seq<Hash>
    var links: seq<Hash>

    function View(): Blocks
      reads this
    {
      Blocks(rows, candidateIndex, confirmedIndex, links)
    }

    constructor ()
      ensures View() == Blocks(map[], [], [], [])
    {
      rows, candidateIndex, confirmedIndex, links := map[], [], [], [];
    }

    // -------------------------------------------------------------- queries

    /** The top height of an index; None before genesis. */
    method Top(candidate: bool) returns (height: Option<nat>)
      ensures height == if View().Index(candidate) == [] then None else Some(|View().Index(candidate)| - 1)
    {
      var count := if candidate then |candidateIndex| else |confirmedIndex|;
      height := if count == 0 then None else Some(count - 1);
    }

    /** The block at a height of an index; None above its top. */
    method ReadLink(height: nat, candidate: bool) returns (hash: Option<Hash>)
      ensures hash == if height < |View().Index(candidate)| then Some(View().Index(candidate)[height]) else None
    {
      var index := if candidate then candidateIndex else confirmedIndex;
      hash := if height >= |index| then None else Some(index[height]);
    }

    /** The range loop over a block visits each of its transaction links once, in order, and ends. */
    method VisitLinks(hash: Hash) returns (visited: seq<Hash>)
      requires View().LinksInRange(hash)
      ensures visited == View().LinksOf(hash)
    {
      var row := rows[hash];
      var it := new TransactionIterator(links, row.start, row.count);
      var end := new TransactionIterator(links, row.start, 0);
      visited := [];
      while !it.Equals(end)
        invariant it.Valid() && fresh(it) && it.offsets == View().LinksOf(hash)
        invariant fresh(end) && end != it && end.offsets == [] && end.index == 0
        invariant visited == it.offsets[..it.index]
        decreases |it.offsets| - it.index
      {
        var link := it.Current();
        visited := visited + [link];
        it.Increment();
      }
    }

    // -------------------------------------------------------------- writers

    method Store(header: Header, height: nat, time: nat)
      modifies this
      ensures View() == StoreHeader(old(View()), header, height, time)
    {
      rows := rows[header.hash := BlockRow(header.previous, time, height, CANDIDATE, 0, 0, 0)];
    }

    /** Write the links after the last one. */
    method Associate(txs: seq<Hash>) returns (start: nat)
      modifies this`links
      ensures (start, View()) == BlockTable.Associate(old(View()), txs)
    {
      if txs == [] {
        return 0;
      }
      start := |links|;
      var was := links;
      for i := 0 to |txs|
        invariant links == was + txs[..i]
      {
        links := links + [txs[i]];
      }
      assert txs[..|txs|] == txs;
    }

    method UpdateTransactions(hash: Hash, txs: seq<Hash>) returns (ok: bool)
      modifies this
      ensures Result(ok, View()) == BlockTable.UpdateTransactions(old(View()), hash, txs)
    {
      if hash !in rows {
        return false;
      }
      var start := Associate(txs);
      rows := rows[hash := rows[hash].(start := start % 0x1_0000_0000, count := |txs| % 0x1_0000)];
      return true;
    }

    method Validate(hash: Hash, error: nat) returns (ok: bool)
      modifies this
      ensures Result(ok, View()) == BlockTable.Validate(old(View()), hash, error)
    {
      if hash !in rows {
        return false;
      }
      var state := rows[hash].state;
      rows := rows[hash := rows[hash].(state := UpdateValidation(state, error == 0))];
      // An error code takes the place of the checksum.
      if error != 0 {
        rows := rows[hash := rows[hash].(checksum := error)];
      }
      return true;
    }

    method UpdateState(hash: Hash, positive: bool, candidate: bool)
      requires hash in rows
      modifies this
      ensures View() == SetConfirmation(old(View()), hash, positive, candidate)
    {
      var original := rows[hash].state;
      rows := rows[hash := rows[hash].(state := UpdateConfirmation(original, positive, candidate))];
    }

    method Promote(hash: Hash, height: nat, candidate: bool) returns (ok: bool)
      modifies this
      ensures Result(ok, View()) == BlockTable.Promote(old(View()), hash, height, candidate)
    {
      var count := if candidate then |candidateIndex| else |confirmedIndex|;
      // Any other height, or a block that is not stored, is refused.
      if height != count || hash !in rows {
        return false;
      }
      UpdateState(hash, true, candidate);
      if candidate {
        candidateIndex := candidateIndex + [hash];
      } else {
        confirmedIndex := confirmedIndex + [hash];
      }
      return true;
    }

    method Demote(hash: Hash, height: nat, candidate: bool) returns (ok: bool)
      modifies this
      ensures Result(ok, View()) == BlockTable.Demote(old(View()), hash, height, candidate)
    {
      var count := if candidate then |candidateIndex| else |confirmedIndex|;
      // Any height but that of the top, or a block that is not stored, is refused.
      if height + 1 != count || hash !in rows {
        return false;
      }
      UpdateState(hash, false, candidate);
      if candidate {
        candidateIndex := candidateIndex[..height];
      } else {
        confirmedIndex := confirmedIndex[..height];
      }
      return true;
    }
  }
}
