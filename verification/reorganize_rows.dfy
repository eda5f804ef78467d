/** Exactly which rows a block reorganization that is undone restores. */
module ReorganizationRows {
  import opened Types
  import opened Record
  import opened BlockState
  import opened BlockTable
  import opened TransactionTable
  import opened Ledger
  import opened Agreement
  import opened CandidateSpends
  import opened ChainState
  import opened Invariants
  import opened Steps
  import opened Reorganization

  // ---------------------------------------------------------------- what confirming leaves of the metadata

  /** Rows differ in their outputs at most. */
  ghost predicate OutputsOnly(t: Table, u: Table) {
    && t.Keys == u.Keys
    && forall h :: h in t ==> u[h] == t[h].(outputs := u[h].outputs)
  }

  lemma {:induction false} SpendingKeepsMetadata(t: Table, ps: seq<Point>, height: nat)
    ensures OutputsOnly(t, Each(t, ps, ConfirmedSpending(height)).table)
    decreases |ps|
  {
    if ps != [] {
      SpendingKeepsMetadata(t, ps[..|ps| - 1], height);
    }
  }

  /** These transactions lose their candidate flag; the others keep their metadata. */
  ghost predicate Touched(t: Table, u: Table, moved: set<Hash>) {
    && t.Keys == u.Keys
    && forall h :: h in t ==> if h in moved then !u[h].candidate else u[h] == t[h].(outputs := u[h].outputs)
  }

  lemma TouchedTransitive(t: Table, u: Table, v: Table, a: set<Hash>, b: set<Hash>)
    requires Touched(t, u, a) && Touched(u, v, b)
    ensures Touched(t, v, a + b)
  {
  }

  lemma ConfirmTouches(t: Table, link: Hash, height: nat, time: nat, position: nat)
    ensures var o := Confirm(t, link, height, time, position);
            o.ok ==> Touched(t, o.table, {link})
  {
    if link in t && position != 0 {
      SpendingKeepsMetadata(t, t[link].Points(), height);
    }
  }

  lemma {:induction false} ConfirmBlockTouches(t: Table, links: seq<Hash>, height: nat, time: nat)
    ensures var o := ConfirmBlock(t, links, height, time);
            o.ok ==> Touched(t, o.table, LinkSet(links))
    decreases |links|
  {
    hide Touched;
    hide Confirm;
    if links == [] {
      TouchedNothing(t);
    } else {
      var n := |links| - 1;
      ConfirmBlockTouches(t, links[..n], height, time);
      var u := ConfirmBlock(t, links[..n], height, time);
      if u.ok {
        ConfirmTouches(u.table, links[n], height, time, n);
        var v := Confirm(u.table, links[n], height, time, n);
        if v.ok {
          TouchedTransitive(t, u.table, v.table, LinkSet(links[..n]), {links[n]});
        }
      }
      assert links == links[..n] + [links[n]];
      assert LinkSet(links) == LinkSet(links[..n]) + {links[n]};
    }
  }

  lemma TouchedNothing(t: Table)
    ensures Touched(t, t, {}) && LinkSet([]) == {}
  {
  }

  /** The transactions of these blocks. */
  function TxSet(blocks: seq<FullBlock>): set<Hash> {
    set block, h | block in blocks && h in block.TxLinks() :: h
  }

  lemma TxSetLast(blocks: seq<FullBlock>)
    requires blocks != []
    ensures var n := |blocks| - 1; TxSet(blocks) == TxSet(blocks[..n]) + LinkSet(blocks[n].TxLinks())
  {
    var n := |blocks| - 1;
    assert blocks == blocks[..n] + [blocks[n]];
  }

  lemma {:induction false} PushAllTouches(s: State, blocks: seq<FullBlock>, first: nat)
    ensures var d := PushAll(s, blocks, first);
            d.ok ==> Touched(s.table, d.state.table, TxSet(blocks))
    decreases |blocks|
  {
    hide Touched;
    hide LedgerBlock;
    hide TransactionTable.ConfirmBlock;
    hide TxSet;
    if blocks == [] {
      TouchedNothing(s.table);
      NoTransactions();
    } else {
      var n := |blocks| - 1;
      PushAllTouches(s, blocks[..n], first);
      var u := PushAll(s, blocks[..n], first);
      if u.ok {
        var d := PushBlock(u.state, blocks[n], first + n);
        ConfirmBlockTouches(u.state.table, blocks[n].TxLinks(), first + n, blocks[n].time);
        TxSetLast(blocks);
        if d.ok {
          TouchedTransitive(s.table, u.state.table, d.state.table, TxSet(blocks[..n]), LinkSet(blocks[n].TxLinks()));
        }
      }
    }
  }

  lemma NoTransactions()
    ensures TxSet([]) == {}
  {
  }

  // ---------------------------------------------------------------- transactions

  /** The transaction of a row is in the old suffix, or in an incoming block; its row is restored when the flag
      and, if only an incoming block has it, the metadata are as deconfirming leaves them. */
  predicate KeepsRow(row: Row, outgoing: bool, incoming: bool) {
    && (outgoing || incoming ==> !row.candidate)
    && (incoming && !outgoing ==> row.position == DECONFIRMED && row.time == NO_TIME)
  }

  /** One row: popped, pushed over, popped and pushed back. */
  lemma RowUndone(h: Hash, a: Row, b: Row, c: Row, d: Row, e: Row, m: Summary, outgoing: bool, incoming: bool)
    requires RowAgrees(h, a, m) && ConfirmedView(e) == ConfirmedView(a) && RowUnmoved(a, e)
    requires (outgoing ==> h in m.located) && (h in m.located && incoming ==> outgoing)
    requires outgoing || b == a.(outputs := b.outputs)
    requires incoming || c == b.(outputs := c.outputs)
    requires if incoming then d.position == DECONFIRMED && d.height == UNVERIFIED && d.time == NO_TIME && !d.candidate
             else d == c.(outputs := d.outputs)
    requires if outgoing then !e.candidate else e == d.(outputs := e.outputs)
    ensures e == a <==> KeepsRow(a, outgoing, incoming)
  {
    assert e.outputs == a.outputs by {
      SameOutputs(a, e);
    }
    assert e == a.(height := e.height, position := e.position, candidate := e.candidate, time := e.time);
  }

  lemma SameOutputs(a: Row, e: Row)
    requires ConfirmedView(e) == ConfirmedView(a) && RowUnmoved(a, e)
    ensures e.outputs == a.outputs
  {
    forall i | 0 <= i < |a.outputs| ensures e.outputs[i] == a.outputs[i] {
      assert ConfirmedView(e).1[i] == ConfirmedView(a).1[i];
    }
  }

  // The transactions of the suffixes.

  lemma HashesOfLedger(t: Table, links: seq<Hash>, time: nat)
    ensures Hashes(LedgerBlock(t, links, time).txs) == LinkSet(links)
  {
    var txs := LedgerBlock(t, links, time).txs;
    forall h | h in links ensures h in Hashes(txs) {
      var i :| 0 <= i < |links| && links[i] == h;
      assert txs[i] in txs && txs[i].hash == h;
    }
    forall tx | tx in txs ensures tx.hash in links {
      var i :| 0 <= i < |txs| && txs[i] == tx;
      assert links[i] == tx.hash;
    }
  }

  /** The blocks of a chain and these blocks have the same transactions. */
  lemma {:induction false} SuffixHashes(chain: seq<Block>, blocks: seq<FullBlock>)
    requires |chain| == |blocks|
    requires forall i :: 0 <= i < |blocks| ==> Hashes(chain[i].txs) == LinkSet(blocks[i].TxLinks())
    ensures ChainHashes(chain) == TxSet(blocks)
    decreases |chain|
  {
    hide Hashes;
    hide LinkSet;
    hide ChainHashes;
    hide TxSet;
    if chain == [] {
      NoTransactions();
      assert ChainHashes([]) == {} by {
        NoChainHashes();
      }
    } else {
      var n := |chain| - 1;
      SuffixHashes(chain[..n], blocks[..n]);
      ChainHashesSnoc(chain);
      TxSetLast(blocks);
    }
  }

  lemma NoChainHashes()
    ensures ChainHashes([]) == {}
  {
  }

  lemma IncomingHashesAre(p: State, r: State, incoming: seq<FullBlock>, fork: nat)
    requires PushedOnto(p, r, incoming) && |p.chain| == fork + 1
    ensures ChainHashes(r.chain[fork + 1..]) == TxSet(incoming)
  {
    hide SameHeaders;
    hide Unmoved;
    hide LedgerBlock;
    var suffix := r.chain[fork + 1..];
    forall i | 0 <= i < |incoming| ensures Hashes(suffix[i].txs) == LinkSet(incoming[i].TxLinks()) {
      assert suffix[i] == LedgerBlock(p.table, incoming[i].TxLinks(), incoming[i].time);
      HashesOfLedger(p.table, incoming[i].TxLinks(), incoming[i].time);
    }
    SuffixHashes(suffix, incoming);
  }

  lemma OutgoingHashesAre(s: State, outgoing: seq<FullBlock>, fork: nat)
    requires Inv(s) && fork < |s.blocks.confirmed| && OutgoingIs(s, outgoing, fork)
    ensures fork < |s.chain| && ChainHashes(s.chain[fork + 1..]) == TxSet(outgoing)
  {
    hide Indexed;
    hide Marks;
    hide Confirmations;
    hide Populated;
    hide AllStored;
    var suffix := s.chain[fork + 1..];
    forall i | 0 <= i < |outgoing| ensures Hashes(suffix[i].txs) == LinkSet(outgoing[i].TxLinks()) {
      assert TiedAt(s, fork + 1 + i);
      assert RereadOf(s, outgoing[i], s.blocks.confirmed[fork + 1 + i]);
      HashesOfLinks(suffix[i].txs);
    }
    SuffixHashes(suffix, outgoing);
  }

  lemma HashesOfLinks(txs: seq<Tx>)
    ensures Hashes(txs) == LinkSet(Links(txs))
  {
    forall tx | tx in txs ensures tx.hash in LinkSet(Links(txs)) {
      var i :| 0 <= i < |txs| && txs[i] == tx;
      assert Links(txs)[i] == tx.hash;
    }
    forall h | h in Links(txs) ensures h in Hashes(txs) {
      var i :| 0 <= i < |txs| && Links(txs)[i] == h;
      assert txs[i] in txs;
    }
  }

  lemma TxSetWithTimes(blocks: seq<FullBlock>, times: seq<nat>)
    requires |times| == |blocks|
    ensures TxSet(WithTimes(blocks, times)) == TxSet(blocks)
  {
    var timed := WithTimes(blocks, times);
    forall i | 0 <= i < |blocks| ensures timed[i].TxLinks() == blocks[i].TxLinks() {
    }
    forall block, h | block in blocks && h in block.TxLinks() ensures h in TxSet(timed) {
      var i :| 0 <= i < |blocks| && blocks[i] == block;
      assert timed[i] in timed;
    }
    forall block, h | block in timed && h in block.TxLinks() ensures h in TxSet(blocks) {
      var i :| 0 <= i < |timed| && timed[i] == block;
      assert blocks[i] in blocks;
    }
  }

  // Where the transactions of the branches sit.

  lemma LocatedAbove(chain: seq<Block>, fork: nat, h: Hash)
    requires ValidChain(chain) && fork < |chain| && h in ChainHashes(chain[fork + 1..])
    ensures h in Summarize(chain).located
    ensures h !in ChainHashes(chain[..fork + 1])
  {
    hide ValidChain;
    hide Summarize;
    var above, below := chain[fork + 1..], chain[..fork + 1];
    var block, tx :| block in above && tx in block.txs && tx.hash == h;
    var i :| 0 <= i < |above| && above[i] == block;
    var k :| 0 <= k < |block.txs| && block.txs[k] == tx;
    assert SitsAt(chain, h, fork + 1 + i, k);
    LocatedWhereItSits(chain, h, fork + 1 + i, k);
    forall b, x | b in below && x in b.txs ensures x.hash != h {
      var j :| 0 <= j < |below| && below[j] == b;
      var l :| 0 <= l < |b.txs| && b.txs[l] == x;
      assert x.hash == h ==> SitsAt(chain, h, j, l);
      LocatedWhereItSits(chain, h, j, l);
    }
  }

  /** A transaction of the chain that an incoming block has sits above the fork. */
  lemma IncomingIsNotBelow(chain: seq<Block>, there: seq<Block>, fork: nat, h: Hash)
    requires ValidChain(chain) && ValidChain(there) && fork < |chain| && fork < |there|
    requires there[..fork + 1] == chain[..fork + 1]
    requires h in Summarize(chain).located && h in ChainHashes(there[fork + 1..])
    ensures h in ChainHashes(chain[fork + 1..])
  {
    hide ValidChain;
    hide Summarize;
    LocatedAbove(there, fork, h);
    LocatedAreChainHashes(chain);
    assert chain == chain[..fork + 1] + chain[fork + 1..];
  }

  /** Undoing a block reorganization restores a transaction row exactly when it keeps its metadata. */
  lemma TransactionRowsUndone(s: State, fork: nat, incoming: seq<FullBlock>)
    requires Inv(s) && fork < |s.blocks.confirmed| == |s.chain|
    requires AllOwed(PopAbove(s, fork).state, incoming, fork + 1)
    ensures var there := Reorganize(s, fork, incoming);
            && |there.outgoing| == |Times(s.chain[fork + 1..])|
            && var back := Reorganize(there.state, fork, WithTimes(there.outgoing, Times(s.chain[fork + 1..]))).state;
               forall h :: h in s.table ==>
                 && h in back.table
                 && (back.table[h] == s.table[h] <==>
                     KeepsRow(s.table[h], h in ChainHashes(s.chain[fork + 1..]), h in TxSet(incoming)))
  {
    hide Inv;
    hide AllOwed;
    hide PopAbove;
    hide PushAll;
    hide SameHeaders;
    hide Unmoved;
    hide RereadOf;
    hide LedgerBlock;
    hide Touched;
    hide Deconfirmed;
    hide ChainHashes;
    hide TxSet;
    hide KeepsRow;
    hide ConfirmedView;
    hide RowUnmoved;
    ReorganizeIsUndone(s, fork, incoming);
    PopAboveExact(s, fork);
    var p := PopAbove(s, fork).state;
    PushAllExact(p, incoming, fork + 1);
    var r := PushAll(p, incoming, fork + 1).state;
    var there := Reorganize(s, fork, incoming);
    var times := Times(s.chain[fork + 1..]);
    var blocks := WithTimes(there.outgoing, times);
    PopAboveExact(r, fork);
    var u := PopAbove(r, fork).state;
    var back := PushAll(u, blocks, fork + 1).state;
    IncomingHashesAre(p, r, incoming, fork);
    OutgoingHashesAre(s, there.outgoing, fork);
    TxSetWithTimes(there.outgoing, times);
    PushAllTouches(p, incoming, fork + 1);
    PushAllTouches(u, blocks, fork + 1);
    assert r.chain[..fork + 1] == s.chain[..fork + 1];
    forall h | h in s.table
      ensures h in back.table
      ensures back.table[h] == s.table[h] <==>
              KeepsRow(s.table[h], h in ChainHashes(s.chain[fork + 1..]), h in TxSet(incoming))
    {
      RowThroughBranches(s, p, r, u, back, fork, TxSet(incoming), h);
    }
  }

  lemma RowThroughBranches(s: State, p: State, r: State, u: State, back: State, fork: nat, ins: set<Hash>, h: Hash)
    requires Inv(s) && Inv(r) && fork < |s.chain| && fork < |r.chain| && h in s.table
    requires r.chain[..fork + 1] == s.chain[..fork + 1] && ChainHashes(r.chain[fork + 1..]) == ins
    requires var outs := ChainHashes(s.chain[fork + 1..]);
             && Deconfirmed(s.table, p.table, outs) && Touched(p.table, r.table, ins)
             && Deconfirmed(r.table, u.table, ins) && Touched(u.table, back.table, outs)
    requires h in back.table ==>
               ConfirmedView(back.table[h]) == ConfirmedView(s.table[h]) && RowUnmoved(s.table[h], back.table[h])
    ensures h in back.table
    ensures back.table[h] == s.table[h] <==> KeepsRow(s.table[h], h in ChainHashes(s.chain[fork + 1..]), h in ins)
  {
    hide Inv;
    hide ValidChain;
    hide ChainHashes;
    hide Summarize;
    hide ConfirmedView;
    hide RowUnmoved;
    hide KeepsRow;
    var m := Summarize(s.chain);
    var outgoing, incoming := h in ChainHashes(s.chain[fork + 1..]), h in ins;
    AgreesWithChain(s);
    AgreesWithChain(r);
    if outgoing {
      LocatedAbove(s.chain, fork, h);
    }
    if h in m.located && incoming {
      IncomingIsNotBelow(s.chain, r.chain, fork, h);
    }
    assert RowAgrees(h, s.table[h], m);
    RowUndone(h, s.table[h], p.table[h], r.table[h], u.table[h], back.table[h], m, outgoing, incoming);
  }

  lemma AgreesWithChain(s: State)
    requires Inv(s)
    ensures ValidChain(s.chain) && Agrees(s.table, Summarize(s.chain))
  {
  }

  // ---------------------------------------------------------------- blocks

  function HashSet(index: seq<Hash>): set<Hash> {
    set x | x in index
  }

  /** The rows of b in c: those of the moved blocks have their confirmation state overwritten. */
  ghost predicate Reworded(b: Blocks, c: Blocks, moved: set<Hash>, positive: bool) {
    && b.rows.Keys == c.rows.Keys
    && forall x :: x in b.rows ==>
         c.rows[x] == if x in moved then b.rows[x].(state := UpdateConfirmation(b.rows[x].state, positive, false))
                      else b.rows[x]
  }

  lemma RewordedTransitive(a: Blocks, b: Blocks, c: Blocks, x: set<Hash>, y: set<Hash>, positive: bool)
    requires Reworded(a, b, x, positive) && Reworded(b, c, y, positive)
    ensures Reworded(a, c, x + y, positive)
  {
    hide UpdateConfirmation;
    forall h | h in x && h in y && h in a.rows
      ensures UpdateConfirmation(UpdateConfirmation(a.rows[h].state, positive, false), positive, false)
           == UpdateConfirmation(a.rows[h].state, positive, false)
    {
      LastConfirmationWins(a.rows[h].state, positive, false, positive, false);
    }
  }

  lemma PopRewords(s: State, n: nat)
    requires n + 1 == |s.blocks.confirmed| && PopBlock(s, n).ok
    ensures Reworded(s.blocks, PopBlock(s, n).state.blocks, {s.blocks.confirmed[n]}, false)
  {
    hide UpdateConfirmation;
    hide TransactionTable.UnconfirmBlock;
  }

  lemma PushRewords(s: State, block: FullBlock, height: nat)
    requires PushBlock(s, block, height).ok
    ensures Reworded(s.blocks, PushBlock(s, block, height).state.blocks, {block.header.hash}, true)
  {
    hide UpdateConfirmation;
    hide TransactionTable.ConfirmBlock;
    hide LedgerBlock;
  }

  lemma HashSetLast(index: seq<Hash>)
    requires index != []
    ensures HashSet(index) == HashSet(index[..|index| - 1]) + {index[|index| - 1]}
  {
    assert index == index[..|index| - 1] + [index[|index| - 1]];
  }

  lemma {:induction false} PopAboveRewords(s: State, fork: nat)
    requires Inv(s) && fork < |s.blocks.confirmed|
    ensures Reworded(s.blocks, PopAbove(s, fork).state.blocks, HashSet(s.blocks.confirmed[fork + 1..]), false)
    decreases |s.blocks.confirmed|
  {
    hide Inv;
    hide PopBlock;
    hide Reworded;
    hide HashSet;
    hide SameHeaders;
    hide Unmoved;
    hide Deconfirmed;
    hide RereadTop;
    var n := |s.blocks.confirmed| - 1;
    if n == fork {
      RewordedNothing(s.blocks, s.blocks.confirmed[fork + 1..]);
    } else {
      PopOne(s);
      PopRewords(s, n);
      var u := PopBlock(s, n).state;
      PopAboveRewords(u, fork);
      var above := s.blocks.confirmed[fork + 1..];
      assert above[..|above| - 1] == u.blocks.confirmed[fork + 1..];
      HashSetLast(above);
      var w := PopAbove(u, fork).state;
      RewordedTransitive(s.blocks, u.blocks, w.blocks, {s.blocks.confirmed[n]},
                         HashSet(u.blocks.confirmed[fork + 1..]), false);
      assert {s.blocks.confirmed[n]} + HashSet(u.blocks.confirmed[fork + 1..]) == HashSet(above);
    }
  }

  lemma RewordedNothing(b: Blocks, index: seq<Hash>)
    requires index == []
    ensures Reworded(b, b, HashSet(index), false) && Reworded(b, b, HashSet(index), true)
  {
  }

  lemma {:induction false} PushAllRewords(s: State, blocks: seq<FullBlock>, first: nat)
    requires PushAll(s, blocks, first).ok
    ensures Reworded(s.blocks, PushAll(s, blocks, first).state.blocks, HashSet(BlockHashes(blocks)), true)
    decreases |blocks|
  {
    hide PushBlock;
    hide Reworded;
    hide HashSet;
    if blocks == [] {
      RewordedNothing(s.blocks, BlockHashes(blocks));
    } else {
      var n := |blocks| - 1;
      PushAllRewords(s, blocks[..n], first);
      var u := PushAll(s, blocks[..n], first).state;
      PushRewords(u, blocks[n], first + n);
      var hashes := BlockHashes(blocks);
      assert hashes[..n] == BlockHashes(blocks[..n]);
      HashSetLast(hashes);
      RewordedTransitive(s.blocks, u.blocks, PushBlock(u, blocks[n], first + n).state.blocks,
                         HashSet(hashes[..n]), {hashes[n]}, true);
    }
  }

  /** The state word already is what popping and pushing leave of it. */
  predicate KeepsWord(word: StateWord, outgoing: bool, incoming: bool) {
    && (outgoing ==> IsConfirmed(word))
    && (incoming && !outgoing ==> !IsConfirmed(word) && !IsCandidate(word))
  }

  lemma WordUndone(a: BlockRow, b: BlockRow, c: BlockRow, d: BlockRow, e: BlockRow, outgoing: bool, incoming: bool)
    requires Legal(a.state) && a.state < 16
    requires b == if outgoing then a.(state := UpdateConfirmation(a.state, false, false)) else a
    requires c == if incoming then b.(state := UpdateConfirmation(b.state, true, false)) else b
    requires d == if incoming then c.(state := UpdateConfirmation(c.state, false, false)) else c
    requires e == if outgoing then d.(state := UpdateConfirmation(d.state, true, false)) else d
    ensures e == a <==> KeepsWord(a.state, outgoing, incoming)
  {
    hide UpdateConfirmation;
    hide Legal;
    hide IsCandidate;
    hide IsConfirmed;
    LastConfirmationWins(a.state, false, false, true, false);
    LastConfirmationWins(b.state, true, false, false, false);
    LastConfirmationWins(b.state, false, false, true, false);
    ConfirmationIsIdempotent(a.state);
  }

  /** Undoing a block reorganization restores a block row exactly when it keeps its state word. */
  lemma BlockRowsUndone(s: State, fork: nat, incoming: seq<FullBlock>)
    requires Inv(s) && fork < |s.blocks.confirmed| == |s.chain|
    requires AllOwed(PopAbove(s, fork).state, incoming, fork + 1)
    ensures var there := Reorganize(s, fork, incoming);
            && |there.outgoing| == |Times(s.chain[fork + 1..])|
            && var back := Reorganize(there.state, fork, WithTimes(there.outgoing, Times(s.chain[fork + 1..]))).state;
               forall x :: x in s.blocks.rows ==>
                 && x in back.blocks.rows
                 && (back.blocks.rows[x] == s.blocks.rows[x] <==>
                     KeepsWord(s.blocks.rows[x].state, x in s.blocks.confirmed[fork + 1..], x in BlockHashes(incoming)))
  {
    hide Inv;
    hide AllOwed;
    hide PopAbove;
    hide PushAll;
    hide SameHeaders;
    hide Unmoved;
    hide RereadOf;
    hide LedgerBlock;
    hide Deconfirmed;
    hide ConfirmedView;
    hide UpdateConfirmation;
    hide KeepsWord;
    hide BlockHashes;
    ReorganizeIsUndone(s, fork, incoming);
    PopAboveExact(s, fork);
    var p := PopAbove(s, fork).state;
    PushAllExact(p, incoming, fork + 1);
    var r := PushAll(p, incoming, fork + 1).state;
    var there := Reorganize(s, fork, incoming);
    var blocks := WithTimes(there.outgoing, Times(s.chain[fork + 1..]));
    PopAboveExact(r, fork);
    var u := PopAbove(r, fork).state;
    var back := PushAll(u, blocks, fork + 1).state;
    PopAboveRewords(s, fork);
    PushAllRewords(p, incoming, fork + 1);
    PopAboveRewords(r, fork);
    PushAllRewords(u, blocks, fork + 1);
    assert r.blocks.confirmed[fork + 1..] == BlockHashes(incoming);
    OutgoingHashes(s, there.outgoing, fork);
    HashesWithTimes(there.outgoing, Times(s.chain[fork + 1..]));
    WordsAreLegal(s);
    forall x | x in s.blocks.rows
      ensures x in back.blocks.rows
      ensures back.blocks.rows[x] == s.blocks.rows[x] <==>
              KeepsWord(s.blocks.rows[x].state, x in s.blocks.confirmed[fork + 1..], x in BlockHashes(incoming))
    {
      WordUndone(s.blocks.rows[x], p.blocks.rows[x], r.blocks.rows[x], u.blocks.rows[x], back.blocks.rows[x],
                 x in s.blocks.confirmed[fork + 1..], x in BlockHashes(incoming));
    }
  }

  lemma OutgoingHashes(s: State, outgoing: seq<FullBlock>, fork: nat)
    requires OutgoingIs(s, outgoing, fork)
    ensures BlockHashes(outgoing) == s.blocks.confirmed[fork + 1..]
  {
    forall i | 0 <= i < |outgoing| ensures outgoing[i].header.hash == s.blocks.confirmed[fork + 1 + i] {
      assert RereadOf(s, outgoing[i], s.blocks.confirmed[fork + 1 + i]);
    }
  }

  lemma HashesWithTimes(blocks: seq<FullBlock>, times: seq<nat>)
    requires |times| == |blocks|
    ensures BlockHashes(WithTimes(blocks, times)) == BlockHashes(blocks)
  {
  }

  lemma WordsAreLegal(s: State)
    requires Inv(s)
    ensures forall x :: x in s.blocks.rows ==> Legal(s.blocks.rows[x].state) && s.blocks.rows[x].state < 16
  {
  }
}
