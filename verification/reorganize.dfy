/** Block reorganization is exact, never gets stuck, and can be undone. */
module Reorganization {
  import opened Types
  import opened Record
  import opened BlockState
  import opened BlockTable
  import opened TransactionTable
  import opened Ledger
  import opened Agreement
  import opened CandidateSpends
  import opened ChainState
  import opened Invariants
  import opened Steps
  import opened Queries
  import opened Runs

  // ---------------------------------------------------------------- popping

  datatype Popped = Popped(ok: bool, state: State, outgoing: seq<FullBlock>)

  /** The block at the top, read back from the tables; its header comes without metadata. */
  function RereadTop(s: State): FullBlock
    requires s.blocks.confirmed != []
  {
    var hash := s.blocks.confirmed[|s.blocks.confirmed| - 1];
    var links := if s.blocks.LinksInRange(hash) then s.blocks.LinksOf(hash) else [];
    FullBlock(Header(hash, if hash in s.blocks.rows then s.blocks.rows[hash].previous else NULL_HASH), NO_TIME,
              seq(|links|, i requires 0 <= i < |links| =>
                if links[i] in s.table then Reread(links[i], s.table[links[i]])
                else Transaction(links[i], [], [], 0, 0)))
  }

  /** Take blocks off the top until the fork is on top; the list of them is ascending. */
  function PopAbove(s: State, fork: nat): Popped
    decreases |s.blocks.confirmed|
  {
    var count := |s.blocks.confirmed|;
    if count <= fork + 1 then Popped(true, s, [])
    else
      var d := PopBlock(s, count - 1);
      if !d.ok then Popped(false, d.state, [])
      else
        var rest := PopAbove(d.state, fork);
        Popped(rest.ok, rest.state, rest.outgoing + [RereadTop(s)])
  }

  /** Rows differ in no constant field, and a block that was valid still is. */
  ghost predicate SameHeaders(b: Blocks, c: Blocks) {
    && b.rows.Keys == c.rows.Keys && b.links == c.links
    && forall x :: x in b.rows ==>
         && c.rows[x] == b.rows[x].(state := c.rows[x].state)
         && IsValid(c.rows[x].state) == IsValid(b.rows[x].state)
  }

  lemma SetConfirmationKeepsHeaders(b: Blocks, hash: Hash, positive: bool, candidate: bool)
    requires hash in b.rows
    ensures SameHeaders(b, SetConfirmation(b, hash, positive, candidate))
  {
    hide UpdateConfirmation;
    hide IsValid;
    ConfirmationBits(b.rows[hash].state, positive, candidate);
  }

  lemma PromoteKeepsHeaders(b: Blocks, hash: Hash, height: nat, candidate: bool)
    requires hash in b.rows
    ensures SameHeaders(b, Promote(b, hash, height, candidate).blocks)
    ensures SameHeaders(b, Demote(b, hash, height, candidate).blocks)
  {
    hide SetConfirmation;
    hide IsValid;
    SetConfirmationKeepsHeaders(b, hash, true, candidate);
    SetConfirmationKeepsHeaders(b, hash, false, candidate);
  }

  /** What popping above a fork leaves of a state. */
  ghost predicate PoppedFrom(s: State, u: State, fork: nat) {
    && fork < |s.blocks.confirmed| == |s.chain|
    && u.blocks.confirmed == s.blocks.confirmed[..fork + 1]
    && u.chain == s.chain[..fork + 1]
    && u.blocks.candidate == s.blocks.candidate && u.marked == s.marked
    && SameHeaders(s.blocks, u.blocks)
    && Unmoved(s.table, u.table)
    && Deconfirmed(s.table, u.table, ChainHashes(s.chain[fork + 1..]))
  }

  /** The popped blocks are the old top of the index in ascending order, with the transactions stored for them. */
  ghost predicate OutgoingIs(s: State, outgoing: seq<FullBlock>, fork: nat) {
    && |outgoing| + fork + 1 == |s.blocks.confirmed|
    && forall i :: 0 <= i < |outgoing| ==> RereadOf(s, outgoing[i], s.blocks.confirmed[fork + 1 + i])
  }

  ghost predicate RereadOf(s: State, block: FullBlock, hash: Hash) {
    && hash in s.blocks.rows && s.blocks.LinksInRange(hash)
    && block.header == Header(hash, s.blocks.rows[hash].previous)
    && block.time == NO_TIME
    && block.TxLinks() == s.blocks.LinksOf(hash)
    && forall tx :: tx in block.txs ==> tx.hash in s.table && tx == Reread(tx.hash, s.table[tx.hash])
  }

  lemma RereadTopIs(s: State)
    requires Inv(s)
    ensures RereadOf(s, RereadTop(s), s.blocks.confirmed[|s.blocks.confirmed| - 1])
  {
    hide Agrees;
    hide ValidChain;
    hide Words;
    hide Tree;
    hide Marks;
    var n := |s.blocks.confirmed| - 1;
    var hash := s.blocks.confirmed[n];
    assert TiedAt(s, n);
    var links := s.blocks.LinksOf(hash);
    forall i | 0 <= i < |links| ensures links[i] in s.table {
      assert s.chain[n].txs[i] in s.chain[n].txs && Stored(s.table, s.chain[n].txs[i]);
    }
    var top := RereadTop(s);
    forall i | 0 <= i < |links| ensures top.txs[i].hash == links[i] {
      assert top.txs[i] == Reread(links[i], s.table[links[i]]);
    }
    assert top.TxLinks() == links;
  }

  lemma RereadUnmoved(s: State, u: State, block: FullBlock, hash: Hash)
    requires RereadOf(u, block, hash) && SameHeaders(s.blocks, u.blocks) && Unmoved(s.table, u.table)
    ensures RereadOf(s, block, hash)
  {
    forall tx | tx in block.txs ensures tx == Reread(tx.hash, s.table[tx.hash]) {
      var a, b := s.table[tx.hash], u.table[tx.hash];
      assert RowUnmoved(a, b);
      assert Reread(tx.hash, a).outputs == Reread(tx.hash, b).outputs;
    }
  }

  lemma ChainHashesFrom(chain: seq<Block>, k: nat)
    requires k < |chain|
    ensures var n := |chain| - 1;
            ChainHashes(chain[k..]) == ChainHashes(chain[..n][k..]) + Hashes(chain[n].txs)
  {
    var n := |chain| - 1;
    ChainHashesSnoc(chain[k..]);
    assert chain[k..][..|chain[k..]| - 1] == chain[..n][k..];
  }

  /** Popping above any block of the confirmed chain never fails and stops at that block. */
  lemma {:induction false} PopAboveExact(s: State, fork: nat)
    requires Inv(s) && fork < |s.blocks.confirmed|
    ensures var p := PopAbove(s, fork);
            && p.ok && Inv(p.state) && PoppedFrom(s, p.state, fork) && OutgoingIs(s, p.outgoing, fork)
    decreases |s.blocks.confirmed|
  {
    hide Inv;
    hide Unmoved;
    hide Deconfirmed;
    hide SameHeaders;
    hide RereadOf;
    hide PopBlock;
    hide RereadTop;
    hide PoppedFrom;
    hide OutgoingIs;
    ChainMatchesIndex(s);
    if |s.blocks.confirmed| == fork + 1 {
      PopNothing(s, fork);
      NoOutgoing(s, fork);
    } else {
      var n := |s.blocks.confirmed| - 1;
      var u := PopBlock(s, n).state;
      PopOne(s);
      PopAboveExact(u, fork);
      var p := PopAbove(u, fork);
      RereadTopIs(s);
      PoppedFromBelow(s, u, p.state, fork);
      OutgoingWithTop(s, u, p.outgoing, fork);
    }
  }

  lemma NoOutgoing(s: State, fork: nat)
    requires |s.blocks.confirmed| == fork + 1
    ensures OutgoingIs(s, [], fork)
  {
  }

  lemma TakeTake<T>(xs: seq<T>, n: nat, k: nat)
    requires k <= n <= |xs|
    ensures xs[..n][..k] == xs[..k]
  {
  }

  /** Popping one block and then the rest is popping all of them. */
  lemma PoppedFromBelow(s: State, u: State, w: State, fork: nat)
    requires fork + 1 < |s.blocks.confirmed| == |s.chain| && PoppedFrom(u, w, fork)
    requires var n := |s.blocks.confirmed| - 1;
             && u.blocks.confirmed == s.blocks.confirmed[..n] && u.chain == s.chain[..n]
             && u.blocks.candidate == s.blocks.candidate && u.marked == s.marked
             && SameHeaders(s.blocks, u.blocks) && Unmoved(s.table, u.table)
             && Deconfirmed(s.table, u.table, Hashes(s.chain[n].txs))
    ensures PoppedFrom(s, w, fork)
  {
    hide Unmoved;
    hide Deconfirmed;
    hide SameHeaders;
    hide ChainHashes;
    hide Hashes;
    var n := |s.blocks.confirmed| - 1;
    SameHeadersTransitive(s.blocks, u.blocks, w.blocks);
    UnmovedTransitive(s.table, u.table, w.table);
    DeconfirmedTransitive(s.table, u.table, w.table, Hashes(s.chain[n].txs), ChainHashes(u.chain[fork + 1..]));
    ChainHashesFrom(s.chain, fork + 1);
    assert Hashes(s.chain[n].txs) + ChainHashes(u.chain[fork + 1..]) == ChainHashes(s.chain[fork + 1..]);
    TakeTake(s.blocks.confirmed, n, fork + 1);
    TakeTake(s.chain, n, fork + 1);
  }

  lemma OutgoingWithTop(s: State, u: State, outgoing: seq<FullBlock>, fork: nat)
    requires fork + 1 < |s.blocks.confirmed| && OutgoingIs(u, outgoing, fork)
    requires var n := |s.blocks.confirmed| - 1;
             && u.blocks.confirmed == s.blocks.confirmed[..n]
             && RereadOf(s, RereadTop(s), s.blocks.confirmed[n])
    requires SameHeaders(s.blocks, u.blocks) && Unmoved(s.table, u.table)
    ensures OutgoingIs(s, outgoing + [RereadTop(s)], fork)
  {
    hide Unmoved;
    hide SameHeaders;
    hide RereadOf;
    hide RereadTop;
    forall i | 0 <= i < |outgoing| ensures RereadOf(s, outgoing[i], s.blocks.confirmed[fork + 1 + i]) {
      RereadUnmoved(s, u, outgoing[i], u.blocks.confirmed[fork + 1 + i]);
    }
  }

  lemma ChainMatchesIndex(s: State)
    requires Inv(s)
    ensures |s.chain| == |s.blocks.confirmed|
  {
  }

  lemma PopNothing(s: State, fork: nat)
    requires Inv(s) && |s.blocks.confirmed| == fork + 1
    ensures PoppedFrom(s, s, fork)
  {
    UnmovedReflexive(s.table);
    assert s.chain[..fork + 1] == s.chain && s.blocks.confirmed[..fork + 1] == s.blocks.confirmed;
    assert s.chain[fork + 1..] == [];
  }

  lemma PopOne(s: State)
    requires Inv(s) && |s.blocks.confirmed| >= 2
    ensures var n := |s.blocks.confirmed| - 1;
            var d := PopBlock(s, n);
            && d.ok && Inv(d.state)
            && d.state.blocks.confirmed == s.blocks.confirmed[..n] && d.state.chain == s.chain[..n]
            && d.state.blocks.candidate == s.blocks.candidate && d.state.marked == s.marked
            && SameHeaders(s.blocks, d.state.blocks) && Unmoved(s.table, d.state.table)
            && Deconfirmed(s.table, d.state.table, Hashes(s.chain[n].txs))
  {
    var n := |s.blocks.confirmed| - 1;
    PopBlockKeepsInv(s);
    assert s.blocks.confirmed[n] in s.blocks.rows;
    PromoteKeepsHeaders(s.blocks, s.blocks.confirmed[n], n, false);
  }

  lemma SameHeadersTransitive(a: Blocks, b: Blocks, c: Blocks)
    requires SameHeaders(a, b) && SameHeaders(b, c)
    ensures SameHeaders(a, c)
  {
  }

  // ---------------------------------------------------------------- queries without popping

  /** A query relative to a fork height reads what popping the chain down to the fork would leave. */
  lemma ForkQueryIsQueryAfterPopping(s: State, p: Point, fork: nat)
    requires Inv(s) && fork < |s.blocks.confirmed|
    ensures PopAbove(s, fork).ok
    ensures Flags(GetOutput(s.table, p, fork)) == Flags(GetOutput(PopAbove(s, fork).state.table, p, fork))
  {
    hide Indexed;
    hide Marks;
    hide Unmoved;
    hide Deconfirmed;
    hide Agrees;
    hide GetOutput;
    PopAboveExact(s, fork);
    var u := PopAbove(s, fork).state;
    assert u.chain == UpTo(s.chain, fork);
    ForkQueryIsPoppedQuery(s.table, u.table, s.chain, p, fork);
  }

  // ---------------------------------------------------------------- pushing

  /** Push blocks in order, the first at a given height. */
  function PushAll(s: State, blocks: seq<FullBlock>, first: nat): Done {
    if blocks == [] then Done(true, s)
    else
      var n := |blocks| - 1;
      var front := PushAll(s, blocks[..n], first);
      if front.ok then PushBlock(front.state, blocks[n], first + n) else front
  }

  /** Every block is owed when it is reached. */
  ghost predicate AllOwed(s: State, blocks: seq<FullBlock>, first: nat) {
    blocks == [] ||
    (var n := |blocks| - 1;
     && AllOwed(s, blocks[..n], first)
     && PushBlockOwed(PushAll(s, blocks[..n], first).state, blocks[n], first + n))
  }

  function BlockHashes(blocks: seq<FullBlock>): (hashes: seq<Hash>)
    ensures |hashes| == |blocks|
  {
    seq(|blocks|, i requires 0 <= i < |blocks| => blocks[i].header.hash)
  }

  /** What pushing blocks leaves of a state. */
  ghost predicate PushedOnto(s: State, u: State, blocks: seq<FullBlock>) {
    && u.blocks.confirmed == s.blocks.confirmed + BlockHashes(blocks)
    && |u.chain| == |s.chain| + |blocks| && u.chain[..|s.chain|] == s.chain
    && (forall i :: 0 <= i < |blocks| ==>
         u.chain[|s.chain| + i] == LedgerBlock(s.table, blocks[i].TxLinks(), blocks[i].time))
    && u.blocks.candidate == s.blocks.candidate && u.marked == s.marked
    && SameHeaders(s.blocks, u.blocks) && Unmoved(s.table, u.table)
  }

  lemma LedgerBlockUnmoved(t: Table, u: Table, links: seq<Hash>, time: nat)
    requires Unmoved(t, u)
    ensures LedgerBlock(u, links, time) == LedgerBlock(t, links, time)
  {
    forall i | 0 <= i < |links| ensures TxOf(u, links[i]) == TxOf(t, links[i]) {
      if links[i] in t {
        assert RowUnmoved(t[links[i]], u[links[i]]);
        assert t[links[i]].Points() == u[links[i]].Points();
      }
    }
  }

  lemma PushOne(s: State, block: FullBlock, height: nat)
    requires Inv(s) && PushBlockOwed(s, block, height)
    ensures var d := PushBlock(s, block, height);
            && d.ok && Inv(d.state)
            && d.state.blocks.confirmed == s.blocks.confirmed + [block.header.hash]
            && d.state.chain == s.chain + [LedgerBlock(s.table, block.TxLinks(), block.time)]
            && d.state.blocks.candidate == s.blocks.candidate && d.state.marked == s.marked
            && SameHeaders(s.blocks, d.state.blocks) && Unmoved(s.table, d.state.table)
  {
    hide Inv;
    hide Unmoved;
    ConfirmKeepsInv(s, block.header.hash, block.TxLinks(), height, block.time);
    PromoteKeepsHeaders(s.blocks, block.header.hash, height, false);
  }

  /** Pushing owed blocks never fails and puts exactly those blocks on the index. */
  lemma {:induction false} PushAllExact(s: State, blocks: seq<FullBlock>, first: nat)
    requires Inv(s) && AllOwed(s, blocks, first)
    ensures var d := PushAll(s, blocks, first);
            d.ok && Inv(d.state) && PushedOnto(s, d.state, blocks)
    decreases |blocks|
  {
    hide Inv;
    hide Unmoved;
    hide SameHeaders;
    hide PushBlock;
    hide PushBlockOwed;
    hide LedgerBlock;
    if blocks == [] {
      UnmovedReflexive(s.table);
      SameHeadersReflexive(s.blocks);
    } else {
      var n := |blocks| - 1;
      PushAllExact(s, blocks[..n], first);
      var u := PushAll(s, blocks[..n], first).state;
      PushOne(u, blocks[n], first + n);
      var v := PushBlock(u, blocks[n], first + n).state;
      LedgerBlockUnmoved(s.table, u.table, blocks[n].TxLinks(), blocks[n].time);
      UnmovedTransitive(s.table, u.table, v.table);
      SameHeadersTransitive(s.blocks, u.blocks, v.blocks);
      assert BlockHashes(blocks) == BlockHashes(blocks[..n]) + [blocks[n].header.hash];
    }
  }

  lemma SameHeadersReflexive(b: Blocks)
    ensures SameHeaders(b, b)
  {
  }

  // ---------------------------------------------------------------- reorganizing

  function Reorganize(s: State, fork: nat, incoming: seq<FullBlock>): Popped {
    var p := PopAbove(s, fork);
    if !p.ok then p
    else
      var d := PushAll(p.state, incoming, fork + 1);
      Popped(d.ok, d.state, p.outgoing)
  }

  /** A reorganization replaces exactly the blocks above the fork and hands back the ones it replaced. */
  lemma ReorganizeExact(s: State, fork: nat, incoming: seq<FullBlock>)
    requires Inv(s) && fork < |s.blocks.confirmed|
    requires AllOwed(PopAbove(s, fork).state, incoming, fork + 1)
    ensures var r := Reorganize(s, fork, incoming);
            && r.ok && Inv(r.state)
            && r.state.blocks.confirmed == s.blocks.confirmed[..fork + 1] + BlockHashes(incoming)
            && r.state.blocks.candidate == s.blocks.candidate && r.state.marked == s.marked
            && SameHeaders(s.blocks, r.state.blocks) && Unmoved(s.table, r.state.table)
            && |r.state.chain| == |r.state.blocks.confirmed| && r.state.chain[..fork + 1] == s.chain[..fork + 1]
            && OutgoingIs(s, r.outgoing, fork)
  {
    hide Inv;
    hide Unmoved;
    hide SameHeaders;
    hide Deconfirmed;
    PopAboveExact(s, fork);
    var p := PopAbove(s, fork);
    PushAllExact(p.state, incoming, fork + 1);
    var d := PushAll(p.state, incoming, fork + 1);
    UnmovedTransitive(s.table, p.state.table, d.state.table);
    SameHeadersTransitive(s.blocks, p.state.blocks, d.state.blocks);
  }

  /** A reorganization leads from one reachable state to another. */
  lemma ReorganizeIsReachable(s: State, fork: nat, incoming: seq<FullBlock>)
    requires Reachable(s) && fork < |s.blocks.confirmed|
    requires AllOwed(PopAbove(s, fork).state, incoming, fork + 1)
    ensures Reachable(Reorganize(s, fork, incoming).state)
  {
    hide Reachable;
    hide AllOwed;
    ReachableInv(s);
    PopAboveExact(s, fork);
    PopAboveIsReachable(s, fork);
    PushAllIsReachable(PopAbove(s, fork).state, incoming, fork + 1);
  }

  lemma {:induction false} PopAboveIsReachable(s: State, fork: nat)
    requires Reachable(s) && fork < |s.blocks.confirmed|
    ensures Reachable(PopAbove(s, fork).state)
    decreases |s.blocks.confirmed|
  {
    hide Reachable;
    hide PopBlock;
    hide Inv;
    hide SameHeaders;
    hide Unmoved;
    hide Deconfirmed;
    var n := |s.blocks.confirmed| - 1;
    if n > fork {
      ReachableInv(s);
      PopOne(s);
      ReachableStep(s, PopBlockStep(n));
      PopAboveIsReachable(PopBlock(s, n).state, fork);
    }
  }

  lemma {:induction false} PushAllIsReachable(s: State, blocks: seq<FullBlock>, first: nat)
    requires Reachable(s) && AllOwed(s, blocks, first)
    ensures Reachable(PushAll(s, blocks, first).state)
    decreases |blocks|
  {
    hide Reachable;
    hide PushBlock;
    hide PushBlockOwed;
    hide Inv;
    hide SameHeaders;
    hide Unmoved;
    if blocks != [] {
      var n := |blocks| - 1;
      PushAllIsReachable(s, blocks[..n], first);
      var u := PushAll(s, blocks[..n], first).state;
      ReachableInv(u);
      PushOne(u, blocks[n], first + n);
      ReachableStep(u, PushBlockStep(blocks[n], first + n));
    }
  }

  // ---------------------------------------------------------------- undoing

  /** The popped blocks with their times set again by the caller. */
  function WithTimes(blocks: seq<FullBlock>, times: seq<nat>): (r: seq<FullBlock>)
    requires |times| == |blocks|
    ensures |r| == |blocks|
  {
    seq(|blocks|, i requires 0 <= i < |blocks| => blocks[i].(time := times[i]))
  }

  function Times(chain: seq<Block>): (times: seq<nat>)
    ensures |times| == |chain|
  {
    seq(|chain|, i requires 0 <= i < |chain| => chain[i].time)
  }

  /** The blocks above the fork can be pushed back onto a state popped to the fork. */
  lemma {:induction false} SuffixIsOwed(s: State, u: State, blocks: seq<FullBlock>, fork: nat)
    requires Inv(s) && Inv(u) && fork < |s.blocks.confirmed|
    requires fork + 1 + |blocks| <= |s.blocks.confirmed|
    requires u.blocks.confirmed == s.blocks.confirmed[..fork + 1] && u.chain == s.chain[..fork + 1]
    requires SameHeaders(s.blocks, u.blocks) && Unmoved(s.table, u.table)
    requires forall i :: 0 <= i < |blocks| ==>
               && RereadOf(s, blocks[i].(time := NO_TIME), s.blocks.confirmed[fork + 1 + i])
               && blocks[i].time == s.chain[fork + 1 + i].time
    ensures AllOwed(u, blocks, fork + 1)
    ensures PushAll(u, blocks, fork + 1).state.chain == s.chain[..fork + 1 + |blocks|]
    ensures PushAll(u, blocks, fork + 1).state.blocks.confirmed == s.blocks.confirmed[..fork + 1 + |blocks|]
    decreases |blocks|
  {
    hide Inv;
    hide Unmoved;
    hide SameHeaders;
    hide PushBlockOwed;
    hide PushBlock;
    hide RereadOf;
    hide LedgerBlock;
    ChainMatchesIndex(s);
    if blocks != [] {
      var n := |blocks| - 1;
      SuffixIsOwed(s, u, blocks[..n], fork);
      PushAllExact(u, blocks[..n], fork + 1);
      var v := PushAll(u, blocks[..n], fork + 1).state;
      SameHeadersTransitive(s.blocks, u.blocks, v.blocks);
      UnmovedTransitive(s.table, u.table, v.table);
      NextOfSuffix(s, v, blocks[n], fork + 1 + n);
      PushOne(v, blocks[n], fork + 1 + n);
      TakeOneMore(s.chain, fork + 1 + n);
      TakeOneMore(s.blocks.confirmed, fork + 1 + n);
    }
  }

  lemma TakeOneMore<T>(xs: seq<T>, n: nat)
    requires n < |xs|
    ensures xs[..n] + [xs[n]] == xs[..n + 1]
  {
  }

  lemma NextOfSuffix(s: State, v: State, block: FullBlock, k: nat)
    requires Inv(s) && 1 <= k < |s.blocks.confirmed|
    requires v.blocks.confirmed == s.blocks.confirmed[..k] && v.chain == s.chain[..k]
    requires SameHeaders(s.blocks, v.blocks) && Unmoved(s.table, v.table)
    requires RereadOf(s, block.(time := NO_TIME), s.blocks.confirmed[k]) && block.time == s.chain[k].time
    ensures PushBlockOwed(v, block, k)
    ensures LedgerBlock(v.table, block.TxLinks(), block.time) == s.chain[k]
    ensures block.header.hash == s.blocks.confirmed[k]
  {
    hide Agrees;
    hide Unmoved;
    hide ValidNext;
    hide Marks;
    hide Tree;
    hide Ranges;
    hide Legal;
    hide IsValid;
    var x := s.blocks.confirmed[k];
    assert TiedAt(s, k);
    var links := s.blocks.LinksOf(x);
    assert block.TxLinks() == links by {
      assert block.TxLinks() == block.(time := NO_TIME).TxLinks();
    }
    ValidPrefix(s.chain, k);
    LedgerBlockIs(s.table, s.chain[k]);
    LedgerBlockUnmoved(s.table, v.table, links, block.time);
    StoredLinks(s.table, v.table, s.chain[k].txs);
    BlockNotEmpty(s.chain[..k], s.chain[k]);
    assert x in s.blocks.confirmed;
  }

  lemma BlockNotEmpty(chain: seq<Block>, block: Block)
    requires ValidNext(chain, block)
    ensures block.txs != []
  {
  }

  lemma LedgerBlockIs(t: Table, block: Block)
    requires AllStored(t, block.txs)
    ensures LedgerBlock(t, Links(block.txs), block.time) == block
  {
    forall i | 0 <= i < |block.txs| ensures TxOf(t, block.txs[i].hash) == block.txs[i] {
      assert block.txs[i] in block.txs && Stored(t, block.txs[i]);
    }
  }

  lemma StoredLinks(t: Table, u: Table, txs: seq<Tx>)
    requires AllStored(t, txs) && Unmoved(t, u)
    ensures LinksStored(u, Links(txs))
  {
    StoredLinksOf(t, txs);
  }

  /** What a row says about confirmation: where the transaction sits, if anywhere, and each output's spender. */
  function ConfirmedView(row: Row): (Option<(nat, nat, nat)>, seq<nat>) {
    (if row.HasPosition() then Some((row.height, row.position, row.time)) else None,
     seq(|row.outputs|, i requires 0 <= i < |row.outputs| => row.outputs[i].spender))
  }

  /** Two tables that agree with one summary show the same confirmations. */
  lemma ViewIsDetermined(t: Table, u: Table, m: Summary, h: Hash)
    requires Agrees(t, m) && Agrees(u, m) && Unmoved(t, u) && h in t
    ensures ConfirmedView(u[h]) == ConfirmedView(t[h])
  {
    assert RowUnmoved(t[h], u[h]);
    assert RowAgrees(h, t[h], m) && RowAgrees(h, u[h], m);
    forall i | 0 <= i < |t[h].outputs| ensures t[h].outputs[i].spender == u[h].outputs[i].spender {
      assert t[h].outputs[i].spender == SpenderOf(m, Point(h, i));
      assert u[h].outputs[i].spender == SpenderOf(m, Point(h, i));
    }
    assert ConfirmedView(u[h]).1 == ConfirmedView(t[h]).1;
  }

  /** Reorganizing back with the blocks that were handed out, their times set, always succeeds and restores
      both indexes, every confirmed location and every spender height. */
  lemma ReorganizeIsUndone(s: State, fork: nat, incoming: seq<FullBlock>)
    requires Inv(s) && fork < |s.blocks.confirmed|
    requires AllOwed(PopAbove(s, fork).state, incoming, fork + 1)
    ensures var there := Reorganize(s, fork, incoming);
            && |there.outgoing| == |Times(s.chain[fork + 1..])|
            && var back := Reorganize(there.state, fork, WithTimes(there.outgoing, Times(s.chain[fork + 1..])));
               && back.ok && Inv(back.state)
               && back.state.blocks.confirmed == s.blocks.confirmed
               && back.state.blocks.candidate == s.blocks.candidate
               && back.state.chain == s.chain && back.state.marked == s.marked
               && back.state.table.Keys == s.table.Keys
               && (forall h :: h in s.table ==> ConfirmedView(back.state.table[h]) == ConfirmedView(s.table[h]))
               && (forall h :: h in s.table ==> RowUnmoved(s.table[h], back.state.table[h]))
  {
    hide Unmoved;
    hide SameHeaders;
    hide RereadOf;
    hide Deconfirmed;
    hide Indexed;
    hide Marks;
    hide Tied;
    hide Agrees;
    hide LedgerBlock;
    hide Reorganize;
    hide Inv;
    ReorganizeExact(s, fork, incoming);
    ChainMatchesIndex(s);
    var there := Reorganize(s, fork, incoming);
    var blocks := WithTimes(there.outgoing, Times(s.chain[fork + 1..]));
    PushBack(s, there.state, there.outgoing, fork);
    UndoneView(s, Reorganize(there.state, fork, blocks).state);
  }

  /** Popping a reorganized state to the fork and pushing the replaced blocks restores the chain. */
  lemma PushBack(s: State, r: State, outgoing: seq<FullBlock>, fork: nat)
    requires Inv(s) && Inv(r) && fork < |s.blocks.confirmed| == |s.chain| && fork < |r.blocks.confirmed| == |r.chain|
    requires r.blocks.confirmed[..fork + 1] == s.blocks.confirmed[..fork + 1]
    requires r.chain[..fork + 1] == s.chain[..fork + 1]
    requires r.blocks.candidate == s.blocks.candidate && r.marked == s.marked
    requires SameHeaders(s.blocks, r.blocks) && Unmoved(s.table, r.table)
    requires OutgoingIs(s, outgoing, fork)
    ensures |outgoing| == |Times(s.chain[fork + 1..])|
    ensures var back := Reorganize(r, fork, WithTimes(outgoing, Times(s.chain[fork + 1..])));
            && back.ok && Inv(back.state)
            && back.state.blocks.confirmed == s.blocks.confirmed && back.state.chain == s.chain
            && back.state.blocks.candidate == s.blocks.candidate && back.state.marked == s.marked
            && Unmoved(s.table, back.state.table)
  {
    hide Inv;
    hide Unmoved;
    hide SameHeaders;
    hide RereadOf;
    hide Deconfirmed;
    hide LedgerBlock;
    hide PopAbove;
    hide AllOwed;
    var blocks := WithTimes(outgoing, Times(s.chain[fork + 1..]));
    PopAboveExact(r, fork);
    var u := PopAbove(r, fork).state;
    SameHeadersTransitive(s.blocks, r.blocks, u.blocks);
    UnmovedTransitive(s.table, r.table, u.table);
    forall i | 0 <= i < |blocks|
      ensures RereadOf(s, blocks[i].(time := NO_TIME), s.blocks.confirmed[fork + 1 + i])
      ensures blocks[i].time == s.chain[fork + 1 + i].time
    {
      TimeOfReread(s, outgoing[i], s.blocks.confirmed[fork + 1 + i]);
    }
    SuffixIsOwed(s, u, blocks, fork);
    PushAllExact(u, blocks, fork + 1);
    var back := PushAll(u, blocks, fork + 1).state;
    UnmovedTransitive(s.table, u.table, back.table);
    assert s.chain[..fork + 1 + |blocks|] == s.chain;
    assert s.blocks.confirmed[..fork + 1 + |blocks|] == s.blocks.confirmed;
  }

  lemma TimeOfReread(s: State, block: FullBlock, hash: Hash)
    requires RereadOf(s, block, hash)
    ensures forall time :: block.(time := time).(time := NO_TIME) == block
  {
  }

  lemma UndoneView(s: State, u: State)
    requires Inv(s) && Inv(u) && u.chain == s.chain && Unmoved(s.table, u.table)
    ensures u.table.Keys == s.table.Keys
    ensures forall h :: h in s.table ==>
              ConfirmedView(u.table[h]) == ConfirmedView(s.table[h]) && RowUnmoved(s.table[h], u.table[h])
  {
    forall h | h in s.table ensures ConfirmedView(u.table[h]) == ConfirmedView(s.table[h]) {
      ViewIsDetermined(s.table, u.table, Summarize(s.chain), h);
    }
  }
}
