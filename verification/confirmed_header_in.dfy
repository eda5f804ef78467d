/** A confirmed block can be brought in as a candidate: the case in which undoing a header reorganization
    does not restore a row. */
module ConfirmedHeaderIn {
  import opened Types
  import opened Record
  import opened BlockState
  import opened BlockTable
  import opened TransactionTable
  import opened Ledger
  import opened Agreement
  import opened CandidateSpends
  import opened ChainState
  import opened Invariants
  import opened Steps
  import opened Runs
  import opened Branch
  import opened BranchFilling
  import opened Progress
  import Headers = HeaderReorganization
  import Reorganization

  // ---------------------------------------------------------------- a block with only a coinbase

  /** The block has one new transaction, and that spends nothing. */
  ghost predicate CoinbaseOnly(s: State, block: FullBlock) {
    && |block.txs| == 1 && block.txs[0].hash !in s.table && block.time <= MAX_UINT32
    && Spends(AsTx(block.txs[0])) == {}
  }

  lemma StoredCoinbase(t: Table, block: FullBlock)
    requires |block.txs| == 1 && block.txs[0].hash !in t
    ensures var u := Each(t, block.txs, Storing()).table;
            && LedgerBlock(u, block.TxLinks(), block.time) == AsBlock(block)
            && AllStored(u, AsBlock(block).txs)
  {
    hide Each;
    hide Stored;
    StoredByStoring(t, block.txs);
    var u := Each(t, block.txs, Storing()).table;
    var ledger := AsBlock(block);
    assert ledger.txs == [AsTx(block.txs[0])];
    assert block.txs[0] in block.txs;
    Reorganization.LedgerBlockIs(u, ledger);
  }

  lemma CoinbaseIsValid(s: State, block: FullBlock)
    requires Inv(s) && CoinbaseOnly(s, block) && |s.chain| <= MAX_HEIGHT
    ensures ValidNext(s.chain, AsBlock(block))
  {
    hide Indexed;
    hide Marks;
    hide ValidChain;
    hide Agrees;
    var ledger := AsBlock(block);
    var tx := AsTx(block.txs[0]);
    assert ledger.txs == [tx] && ledger.txs[..0] == [];
    assert s.chain != [] by {
      NotEmptyChain(s);
    }
    forall b, x | b in s.chain && x in b.txs ensures x.hash != tx.hash {
      var k :| 0 <= k < |s.chain| && s.chain[k] == b;
      assert TiedAt(s, k) && Stored(s.table, x);
    }
    assert SpendsUnspent(Utxo(s.chain), []);
  }

  lemma NotEmptyChain(s: State)
    requires Inv(s)
    ensures s.chain != [] && |s.chain| == |s.blocks.confirmed|
  {
  }

  /** The block is a new coinbase-only child of the top that both indexes share. */
  ghost predicate NewCoinbaseBlock(s: State, block: FullBlock) {
    && |s.blocks.candidate| == |s.blocks.confirmed| && 0 < |s.blocks.confirmed| <= MAX_HEIGHT
    && var n := |s.blocks.confirmed|;
       && s.blocks.candidate[n - 1] == s.blocks.confirmed[n - 1] == block.header.previous
       && block.header.hash !in s.blocks.rows && block.header.hash != NULL_HASH
       && |s.blocks.links| <= MAX_UINT32 && CoinbaseOnly(s, block)
  }

  lemma CoinbaseBlockIsNew(s: State, block: FullBlock)
    requires Inv(s) && NewCoinbaseBlock(s, block)
    ensures NewValidBlock(s, block) && Identified(s.table, block.txs) && Distinct(block.txs)
  {
    hide Inv;
    hide ValidNext;
    hide LedgerBlock;
    hide Each;
    NotEmptyChain(s);
    CoinbaseIsValid(s, block);
    StoredCoinbase(s.table, block);
  }

  // ---------------------------------------------------------------- popping a block that spends nothing

  /** The transactions at these links are stored and spend nothing. */
  ghost predicate Quiet(t: Table, links: seq<Hash>) {
    LinksReady(t, links) && BlockPoints(t, links) == {}
  }

  lemma QuietStays(t: Table, u: Table, links: seq<Hash>)
    requires Quiet(t, links) && SameTransactions(t, u)
    ensures Quiet(u, links)
  {
    ReadyFrame(t, u, links);
  }

  lemma CoinbaseIsQuiet(t: Table, block: FullBlock)
    requires |block.txs| == 1 && Spends(AsTx(block.txs[0])) == {} && AllStored(t, AsBlock(block).txs)
    ensures Quiet(t, block.TxLinks())
  {
    var txs := AsBlock(block).txs;
    assert txs == [AsTx(block.txs[0])];
    BlockPointsAreSpends(t, txs);
    StoredLinksOf(t, txs);
  }

  // ---------------------------------------------------------------- the run

  /** The block is stored and valid, with its coinbase. */
  ghost predicate Ready(s: State, block: FullBlock) {
    Filled(s, block) && Quiet(s.table, block.TxLinks())
  }

  /** Pushing the header, updating the block and validating it. */
  lemma StoreAndValidate(s: State, block: FullBlock)
    requires Reachable(s) && NewCoinbaseBlock(s, block)
    ensures var n := |s.blocks.confirmed|;
            var u1 := PushHeader(s, block.header, false, n, block.time).state;
            var u3 := Invalidate(Update(u1, block).state, block.header.hash, 0).state;
            && Reachable(u3) && Inv(u3) && Ready(u3, block)
            && u3.blocks.candidate == s.blocks.candidate + [block.header.hash]
            && u3.blocks.confirmed == s.blocks.confirmed && u3.chain == s.chain
  {
    hide Reachable;
    hide Inv;
    hide Each;
    hide AllStored;
    hide ValidNext;
    hide SameTransactions;
    hide OthersKept;
    hide IsValid;
    hide IsFailed;
    hide Quiet;
    hide UpdateConfirmation;
    hide UpdateValidation;
    hide UpdateOwed;
    hide PushHeaderOwed;
    hide NewValidBlock;
    hide Update;
    hide PushHeader;
    hide Identified;
    var n, hash := |s.blocks.confirmed|, block.header.hash;
    ReachableInv(s);
    CoinbaseBlockIsNew(s, block);
    HeaderIsOwed(s, block);
    HeaderSucceeds(s, block, n);
    ReachableStep(s, PushHeaderStep(block.header, false, n, block.time));
    var u1 := PushHeader(s, block.header, false, n, block.time).state;
    UpdateEffect(u1, block, n);
    ReachableStep(u1, UpdateStep(block, n));
    var u2 := Update(u1, block).state;
    InvalidateKeepsInv(u2, hash, 0);
    ReachableStep(u2, InvalidateStep(hash, 0));
    ValidationBits(u2.blocks.rows[hash].state, true);
    CoinbaseIsQuiet(u2.table, block);
  }

  lemma PopQuiet(s: State, block: FullBlock)
    requires Inv(s) && Ready(s, block) && |s.blocks.candidate| >= 2
    requires s.blocks.candidate[|s.blocks.candidate| - 1] == block.header.hash
    ensures PopHeaderOwed(s) && LinksReady(s.table, block.TxLinks())
    ensures var u := PopHeader(s, |s.blocks.candidate| - 1).state;
            && PopHeader(s, |s.blocks.candidate| - 1).ok && Inv(u) && Ready(u, block)
            && u.blocks.candidate == s.blocks.candidate[..|s.blocks.candidate| - 1]
            && u.blocks.confirmed == s.blocks.confirmed && u.chain == s.chain
            && !IsConfirmed(u.blocks.rows[block.header.hash].state)
  {
    hide Inv;
    hide LinksReady;
    hide AllStored;
    hide IsValid;
    hide IsConfirmed;
    hide SameTransactions;
    hide UpdateConfirmation;
    Headers.PopOne(s);
    var u := PopHeader(s, |s.blocks.candidate| - 1).state;
    ConfirmationBits(s.blocks.rows[block.header.hash].state, false, true);
    QuietStays(s.table, u.table, block.TxLinks());
    AllStoredStays(s.table, u.table, AsBlock(block).txs);
  }

  lemma PushReady(s: State, block: FullBlock)
    requires Inv(s) && Ready(s, block) && s.blocks.confirmed != []
    requires block.header.previous == s.blocks.confirmed[|s.blocks.confirmed| - 1]
    requires block.txs != [] && ValidNext(s.chain, AsBlock(block))
    ensures var n := |s.blocks.confirmed|;
            var u := PushBlock(s, block, n).state;
            && PushBlockOwed(s, block, n) && PushBlock(s, block, n).ok && Inv(u) && Ready(u, block)
            && u.blocks.candidate == s.blocks.candidate && IsConfirmed(u.blocks.rows[block.header.hash].state)
  {
    hide Inv;
    hide LinksReady;
    hide BlockPoints;
    hide Stored;
    hide IsValid;
    hide IsConfirmed;
    hide Unmoved;
    hide ValidNext;
    hide LedgerBlock;
    hide UpdateConfirmation;
    var n := |s.blocks.confirmed|;
    Reorganization.LedgerBlockIs(s.table, AsBlock(block));
    StoredLinksOf(s.table, AsBlock(block).txs);
    Reorganization.PushOne(s, block, n);
    var u := PushBlock(s, block, n).state;
    ConfirmationBits(s.blocks.rows[block.header.hash].state, true, false);
    AllStoredUnmoved(s.table, u.table, AsBlock(block).txs);
    UnmovedIsSame(s.table, u.table);
    QuietStays(s.table, u.table, block.TxLinks());
  }

  lemma UnmovedIsSame(t: Table, u: Table)
    requires Unmoved(t, u)
    ensures SameTransactions(t, u)
  {
    UnmovedSameMarks(t, u);
  }

  // ---------------------------------------------------------------- the row that is not restored

  /** A confirmed block that is not on the candidate index is reorganized in there and out again, and its row
      is not restored: it is not confirmed any more. */
  ghost predicate LosesConfirmation(s: State, fork: nat, incoming: seq<Headers.Incoming>, x: Hash) {
    && fork < |s.blocks.candidate| && Headers.PopsOwed(s, fork)
    && Headers.PushesOwed(Headers.PopAbove(s, fork).state, incoming, fork + 1)
    && Headers.IncomingApart(s, fork, incoming)
    && var there := Headers.Reorganize(s, fork, incoming);
       && x in s.blocks.rows && x !in s.blocks.candidate && x in Headers.IncomingHashes(incoming)
       && IsConfirmed(s.blocks.rows[x].state)
       && var back := Headers.Reorganize(there.state, fork, Headers.AsKnown(there.outgoing)).state;
          x in back.blocks.rows && back.blocks.rows[x] != s.blocks.rows[x]
  }

  lemma BringIn(s: State, block: FullBlock)
    requires Inv(s) && Ready(s, block) && IsConfirmed(s.blocks.rows[block.header.hash].state)
    requires 0 < |s.blocks.candidate| <= MAX_HEIGHT && block.header.hash !in s.blocks.candidate
    requires s.blocks.candidate[|s.blocks.candidate| - 1] == block.header.previous
    ensures LosesConfirmation(s, |s.blocks.candidate| - 1, [Headers.Incoming(block.header, true, NO_TIME)],
                              block.header.hash)
  {
    hide Inv;
    hide AllStored;
    hide LinksReady;
    hide BlockPoints;
    hide IsValid;
    hide IsConfirmed;
    hide UpdateConfirmation;
    hide PopHeader;
    hide PopHeaderOwed;
    var n := |s.blocks.candidate|;
    var incoming := [Headers.Incoming(block.header, true, NO_TIME)];
    NotNull(s, block);
    OneIsOwed(s, incoming[0], n);
    Headers.PushAllExact(s, incoming, n);
    var r := Headers.PushAll(s, incoming, n).state;
    assert Headers.PopAbove(s, n - 1) == Headers.Popped(true, s, []);
    PushKeepsReady(s, r, block);
    PopQuiet(r, block);
    var hash := block.header.hash;
    assert Headers.IncomingHashes(incoming)[0] == hash;
    assert !Headers.Restores(s.blocks, hash, n - 1, Headers.IncomingHashes(incoming));
    PopsFromTop(r, n - 1);
    Headers.ReorganizeIsUndone(s, n - 1, incoming);
  }

  /** Only the top header is above the fork. */
  lemma PopsFromTop(s: State, fork: nat)
    requires |s.blocks.candidate| == fork + 2 && PopHeaderOwed(s)
    requires LinksReady(s.table, s.blocks.LinksOf(s.blocks.candidate[fork + 1]))
    requires |PopHeader(s, fork + 1).state.blocks.candidate| == fork + 1
    ensures Headers.PopsOwed(s, fork)
  {
    hide PopHeader;
    hide PopHeaderOwed;
    hide LinksReady;
  }

  lemma NotNull(s: State, block: FullBlock)
    requires Inv(s) && block.header.hash in s.blocks.rows
    ensures block.header.hash != NULL_HASH
  {
  }

  lemma OneIsOwed(s: State, x: Headers.Incoming, height: nat)
    requires PushHeaderOwed(s, x.header, x.known, height)
    ensures Headers.PushesOwed(s, [x], height)
  {
    hide PushHeaderOwed;
    assert [x][..0] == [];
  }

  lemma PushKeepsReady(s: State, r: State, block: FullBlock)
    requires Ready(s, block) && r == s.(blocks := r.blocks) && r.blocks.links == s.blocks.links
    requires block.header.hash in r.blocks.rows
    requires var row := s.blocks.rows[block.header.hash];
             r.blocks.rows[block.header.hash] == row.(state := UpdateConfirmation(row.state, true, true))
    ensures Ready(r, block)
  {
    hide IsValid;
    hide AllStored;
    hide Quiet;
    hide UpdateConfirmation;
    ConfirmationBits(s.blocks.rows[block.header.hash].state, true, true);
  }

  /** From every reachable state whose indexes share their top, a coinbase-only block leads to such a case: its
      header is pushed, the block updated and validated, the header popped, and the block pushed. */
  lemma ConfirmedHeaderCanComeIn(s: State, block: FullBlock)
    requires Reachable(s) && NewCoinbaseBlock(s, block)
    ensures exists u, fork, incoming :: Reachable(u) && LosesConfirmation(u, fork, incoming, block.header.hash)
  {
    hide Reachable;
    hide Inv;
    hide Ready;
    hide PushHeader;
    hide Update;
    hide Invalidate;
    hide PopHeader;
    hide PushBlock;
    hide PopHeaderOwed;
    hide PushBlockOwed;
    hide LinksReady;
    hide ValidNext;
    hide LosesConfirmation;
    hide IsConfirmed;
    var n := |s.blocks.confirmed|;
    ReachableInv(s);
    StoreAndValidate(s, block);
    var u1 := PushHeader(s, block.header, false, n, block.time).state;
    var u3 := Invalidate(Update(u1, block).state, block.header.hash, 0).state;
    PopQuiet(u3, block);
    ReachableStep(u3, PopHeaderStep(n));
    var u4 := PopHeader(u3, n).state;
    NotEmptyChain(s);
    CoinbaseIsValid(s, block);
    PushReady(u4, block);
    ReachableStep(u4, PushBlockStep(block, n));
    var u5 := PushBlock(u4, block, n).state;
    CandidatesAreStored(s);
    ReadyIsStored(u5, block);
    BringIn(u5, block);
  }

  lemma CandidatesAreStored(s: State)
    requires Inv(s)
    ensures forall x :: x in s.blocks.candidate ==> x in s.blocks.rows
  {
  }

  lemma ReadyIsStored(s: State, block: FullBlock)
    requires Ready(s, block)
    ensures block.header.hash in s.blocks.rows
  {
  }
}
