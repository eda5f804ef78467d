/** What a header reorganization does in the ordinary order of operations, and cannot undo by itself: a block
    that was candidated loses its marks, and one that was confirmed its confirmation bit. */
module OrdinaryCases {
  import opened Types
  import opened Record
  import opened BlockState
  import opened BlockTable
  import opened TransactionTable
  import opened Ledger
  import opened Agreement
  import opened CandidateSpends
  import opened ChainState
  import opened Invariants
  import opened Steps
  import opened Runs
  import opened Progress
  import opened ConfirmedHeaders
  import opened CandidateFlags
  import Headers = HeaderReorganization
  import HeaderMarks
  import Reorganization

  // ---------------------------------------------------------------- the hypotheses of the undo theorems

  /** The headers above the fork can be popped and pushed back. */
  ghost predicate CanPopAndPushBack(s: State, fork: nat) {
    && fork < |s.blocks.candidate| && Headers.PopsOwed(s, fork)
    && Headers.PushesOwed(Headers.PopAbove(s, fork).state, [], fork + 1)
    && Headers.IncomingApart(s, fork, [])
  }

  /** The state after popping the headers above the fork and pushing them back. */
  function PoppedAndPushedBack(s: State, fork: nat): State {
    var there := Headers.Reorganize(s, fork, []);
    Headers.Reorganize(there.state, fork, Headers.AsKnown(there.outgoing)).state
  }

  /** Indexes of one length that share their top are one. */
  lemma SharedTopSharesAll(s: State)
    requires Inv(s) && |s.blocks.candidate| == |s.blocks.confirmed|
    requires s.blocks.candidate[|s.blocks.candidate| - 1] == s.blocks.confirmed[|s.blocks.confirmed| - 1]
    ensures s.blocks.candidate == s.blocks.confirmed
  {
    hide Linked;
    var n := |s.blocks.candidate| - 1;
    forall k | 0 <= k < |s.blocks.candidate| ensures s.blocks.candidate[k] == s.blocks.confirmed[k] {
      IndexesAgreeBelow(s.blocks, s.blocks.candidate, s.blocks.confirmed, n, n, k);
    }
  }

  // ---------------------------------------------------------------- a candidated block

  /** A valid next block spends nothing that a block of the chain spends. */
  lemma NextSpendsApart(chain: seq<Block>, block: Block, j: nat)
    requires ValidChain(chain) && ValidNext(chain, block) && j < |chain|
    ensures AllSpends(chain[j].txs) !! AllSpends(block.txs)
  {
    hide ValidChain;
    hide ValidNext;
    hide Summarize;
    hide AllSpends;
    NextIsNew(chain, block);
    forall p ensures !(p in AllSpends(chain[j].txs) && p in AllSpends(block.txs)) {
      SpentWhereItIsSpent(chain, p, j);
    }
  }

  /** The block was candidated on top of the indexes that were shared. */
  ghost predicate CandidatedOnTop(u: State, block: FullBlock) {
    var n := |u.blocks.confirmed|;
    && u.blocks.candidate == u.blocks.confirmed + [block.header.hash] && block.header.hash in u.marked
    && u.blocks.LinksInRange(block.header.hash) && u.blocks.LinksOf(block.header.hash) == block.TxLinks()
    && LinksStored(u.table, block.TxLinks())
    && ValidNext(u.chain, LedgerBlock(u.table, block.TxLinks(), block.time))
  }

  lemma PointsOfLedger(t: Table, links: seq<Hash>, time: nat)
    requires LinksStored(t, links)
    ensures BlockPoints(t, links) == AllSpends(LedgerBlock(t, links, time).txs)
  {
    LedgerBlockStored(t, links, time);
    BlockPointsAreSpends(t, LedgerBlock(t, links, time).txs);
  }

  lemma CandidatedCanBePopped(u: State, block: FullBlock)
    requires Inv(u) && CandidatedOnTop(u, block)
    ensures 0 < |u.blocks.confirmed| && CanPopAndPushBack(u, |u.blocks.confirmed| - 1)
    ensures Headers.Poppable(u, |u.blocks.confirmed| - 1)
  {
    hide Inv;
    hide LinksReady;
    hide BlockPoints;
    hide AllSpends;
    hide ValidNext;
    hide LedgerBlock;
    hide Headers.PopAbove;
    var n, x := |u.blocks.confirmed|, block.header.hash;
    var ledger := LedgerBlock(u.table, block.TxLinks(), block.time);
    NotEmptyIndex(u);
    ChainIsValid(u);
    MarkedReady(u, x);
    PointsOfLedger(u.table, block.TxLinks(), block.time);
    assert u.blocks.candidate[..n] == u.blocks.confirmed && u.blocks.candidate[n] == x;
    forall y | y in u.marked && y in u.blocks.candidate[..n] && u.blocks.LinksInRange(y)
      ensures BlockPoints(u.table, u.blocks.LinksOf(y)) !! BlockPoints(u.table, block.TxLinks())
    {
      var j :| 0 <= j < n && u.blocks.confirmed[j] == y;
      ConfirmedIsReady(u, j);
      NextSpendsApart(u.chain, ledger, j);
    }
    assert Headers.PoppableAt(u, n);
    Headers.PopsOwedExactly(u, n - 1);
  }

  lemma NotEmptyIndex(u: State)
    requires Inv(u)
    ensures 0 < |u.blocks.confirmed|
  {
  }

  lemma MarkedReady(u: State, x: Hash)
    requires Inv(u) && x in u.marked
    ensures u.blocks.LinksInRange(x) && LinksReady(u.table, u.blocks.LinksOf(x))
  {
    hide Indexed;
    hide Tied;
    hide Confirmations;
    hide Populated;
    hide LinksReady;
    assert MarkedBlock(u, x);
  }

  /** Pushing the header of a new valid block, updating and candidating it puts it on top. */
  lemma CandidatesOnTop(s: State, block: FullBlock)
    requires Reachable(s) && NewValidBlock(s, block)
    ensures var n := |s.blocks.confirmed|;
            var u1 := PushHeader(s, block.header, false, n, block.time).state;
            var u := CandidateBlock(Update(u1, block).state, block).state;
            && Reachable(u) && Inv(u) && CandidatedOnTop(u, block) && PushBlockOwed(u, block, n)
            && u.blocks.confirmed == s.blocks.confirmed
            && LedgerBlock(u.table, block.TxLinks(), block.time)
               == LedgerBlock(Each(s.table, block.txs, Storing()).table, block.TxLinks(), block.time)
  {
    hide Reachable;
    hide Inv;
    hide PushHeader;
    hide Update;
    hide CandidateBlock;
    hide UpdateOwed;
    hide CandidateOwed;
    hide PushHeaderOwed;
    hide LinksReady;
    hide ValidNext;
    hide LedgerBlock;
    hide Each;
    hide UpdateConfirmation;
    var n := |s.blocks.confirmed|;
    ReachableInv(s);
    SharedTopSharesAll(s);
    HeaderIsOwed(s, block);
    var u1 := PushHeader(s, block.header, false, n, block.time).state;
    HeaderSucceeds(s, block, n);
    ReachableStep(s, PushHeaderStep(block.header, false, n, block.time));
    CandidateIsOwed(u1, block);
    var u2 := Update(u1, block).state;
    StepKeepsInv(u1, UpdateStep(block, n));
    ReachableStep(u1, UpdateStep(block, n));
    PushIsOwed(u2, block);
    ReachableStep(u2, CandidateStep(block));
    HeaderMarks.CandidateOne(u2, block);
    CandidatedStays(u2, CandidateBlock(u2, block).state, block);
  }

  lemma CandidatedStays(v: State, w: State, block: FullBlock)
    requires LinksReady(v.table, block.TxLinks()) && CandidateBlock(v, block).ok && w == CandidateBlock(v, block).state
    requires CandidateOwed(v, block)
    ensures LinksStored(w.table, block.TxLinks())
    ensures LedgerBlock(w.table, block.TxLinks(), block.time) == LedgerBlock(v.table, block.TxLinks(), block.time)
    ensures w.blocks.candidate == v.blocks.candidate
    ensures w.blocks.LinksInRange(block.header.hash) && w.blocks.LinksOf(block.header.hash) == block.TxLinks()
  {
    hide LinksReady;
    hide LedgerBlock;
    hide Each;
    hide UpdateValidation;
    MarkedStays(v, w, block);
  }

  /** The hypotheses of the undo theorems hold, and undoing does not bring every candidate-spent byte back. */
  ghost predicate LosesMarks(u: State, fork: nat) {
    CanPopAndPushBack(u, fork) && !HeaderMarks.SameSpentMarks(u.table, PoppedAndPushedBack(u, fork).table)
  }

  /** In every reachable state whose indexes share their top, a new valid block that spends an output loses its
      marks when it is candidated and its header is reorganized out and back. */
  lemma MarksAreLost(s: State, block: FullBlock)
    requires Reachable(s) && NewValidBlock(s, block)
    requires AllSpends(LedgerBlock(Each(s.table, block.txs, Storing()).table, block.TxLinks(), block.time).txs) != {}
    ensures exists u, fork :: Reachable(u) && LosesMarks(u, fork)
  {
    hide Reachable;
    hide Inv;
    hide PushHeader;
    hide Update;
    hide CandidateBlock;
    hide NewValidBlock;
    hide LedgerBlock;
    hide AllSpends;
    hide BlockPoints;
    hide Each;
    hide ValidNext;
    hide PushBlockOwed;
    hide HeaderMarks.SameSpentMarks;
    CandidatesOnTop(s, block);
    var u1 := PushHeader(s, block.header, false, |s.blocks.confirmed|, block.time).state;
    var u := CandidateBlock(Update(u1, block).state, block).state;
    var n, x := |u.blocks.confirmed|, block.header.hash;
    CandidatedCanBePopped(u, block);
    PointsOfLedger(u.table, block.TxLinks(), block.time);
    assert u.blocks.candidate[n..] == [x];
    assert !HeaderMarks.MarkedAboveSpendNothing(u, n - 1);
    HeaderMarks.MarksSurviveExactly(u, n - 1, []);
    assert LosesMarks(u, n - 1);
  }

  // ---------------------------------------------------------------- a confirmed block

  /** The hypotheses of the undo theorems hold; the block is confirmed, and after undoing it is a candidate. */
  ghost predicate BecomesCandidate(u: State, fork: nat, x: Hash) {
    && CanPopAndPushBack(u, fork) && x in u.blocks.rows && x in u.blocks.candidate[fork + 1..]
    && IsConfirmed(u.blocks.rows[x].state) && !IsCandidate(u.blocks.rows[x].state)
    && var back := PoppedAndPushedBack(u, fork);
       x in back.blocks.rows && IsCandidate(back.blocks.rows[x].state) && !IsConfirmed(back.blocks.rows[x].state)
  }

  lemma PushedWord(s: State, block: FullBlock, height: nat)
    requires Inv(s) && PushBlockOwed(s, block, height)
    ensures var u := PushBlock(s, block, height).state;
            && block.header.hash in u.blocks.rows
            && IsConfirmed(u.blocks.rows[block.header.hash].state)
            && !IsCandidate(u.blocks.rows[block.header.hash].state)
  {
    hide Inv;
    hide Unmoved;
    hide ValidNext;
    hide LedgerBlock;
    hide IsConfirmed;
    hide IsCandidate;
    hide UpdateConfirmation;
    Reorganization.PushOne(s, block, height);
    ConfirmationBits(s.blocks.rows[block.header.hash].state, true, false);
  }

  lemma ConfirmedTopTurns(u: State, x: Hash)
    requires Inv(u) && u.blocks.candidate == u.blocks.confirmed && |u.blocks.candidate| >= 2
    requires x == u.blocks.candidate[|u.blocks.candidate| - 1] && x in u.blocks.rows
    requires IsConfirmed(u.blocks.rows[x].state) && !IsCandidate(u.blocks.rows[x].state)
    ensures BecomesCandidate(u, |u.blocks.candidate| - 2, x)
  {
    hide Inv;
    hide IsConfirmed;
    hide IsCandidate;
    hide UpdateConfirmation;
    hide Headers.PopsOwed;
    hide Headers.PopAbove;
    hide Headers.SameChain;
    hide Headers.SameConstants;
    var fork := |u.blocks.candidate| - 2;
    ConfirmedHeadersCanBePopped(u, fork);
    assert u.blocks.candidate[fork + 1..] == [x];
    Headers.ReorganizeIsUndone(u, fork, []);
    ConfirmationBits(u.blocks.rows[x].state, true, true);
  }

  /** In every reachable state whose indexes share their top, a new valid block that is confirmed in the ordinary
      order turns from confirmed to candidate when its header is reorganized out and back. */
  lemma ConfirmedTurnsCandidate(s: State, block: FullBlock)
    requires Reachable(s) && NewValidBlock(s, block)
    ensures exists u, fork :: Reachable(u) && BecomesCandidate(u, fork, block.header.hash)
  {
    hide Reachable;
    hide Inv;
    hide PushHeader;
    hide Update;
    hide CandidateBlock;
    hide PushBlock;
    hide PushBlockOwed;
    hide NewValidBlock;
    hide LedgerBlock;
    hide Each;
    hide ValidNext;
    hide Unmoved;
    hide IsConfirmed;
    hide IsCandidate;
    hide BecomesCandidate;
    hide Reorganization.SameHeaders;
    CandidatesOnTop(s, block);
    var u1 := PushHeader(s, block.header, false, |s.blocks.confirmed|, block.time).state;
    var u := CandidateBlock(Update(u1, block).state, block).state;
    var n, x := |u.blocks.confirmed|, block.header.hash;
    PushedWord(u, block, n);
    Reorganization.PushOne(u, block, n);
    ReachableStep(u, PushBlockStep(block, n));
    var w := PushBlock(u, block, n).state;
    NotEmptyIndex(u);
    ConfirmedTopTurns(w, x);
  }

  // ---------------------------------------------------------------- a confirmed block that is candidated again

  /** The block was confirmed on top, and can be candidated again. */
  lemma ConfirmedOnTop(u: State, block: FullBlock)
    requires Reachable(u) && Inv(u) && CandidatedOnTop(u, block) && PushBlockOwed(u, block, |u.blocks.confirmed|)
    ensures var n := |u.blocks.confirmed|;
            var w := PushBlock(u, block, n).state;
            && Reachable(w) && CandidateOwed(w, block)
            && |w.chain| == |w.blocks.confirmed| == n + 1 && w.blocks.confirmed[n] == block.header.hash
            && w.chain[n] == LedgerBlock(u.table, block.TxLinks(), block.time)
  {
    hide Reachable;
    hide Inv;
    hide PushBlock;
    hide Unmoved;
    hide ValidNext;
    hide LedgerBlock;
    hide IsConfirmed;
    hide IsCandidate;
    hide IsValid;
    hide IsFailed;
    var n, x := |u.blocks.confirmed|, block.header.hash;
    PushedWord(u, block, n);
    Reorganization.PushOne(u, block, n);
    assert Next(u, PushBlockStep(block, n)) == PushBlock(u, block, n);
    ReachableStep(u, PushBlockStep(block, n));
    var w := PushBlock(u, block, n).state;
    StateWordsAreLegal(w, x);
    TopMatches(w);
    NonEmpty(u.table, block, u.chain);
  }

  /** In every reachable state whose indexes share their top, a new valid block that spends an output of one of its
      own transactions, confirmed in the ordinary order and then candidated again, makes the assertion fail. */
  lemma ConfirmedCandidatedAgain(s: State, block: FullBlock, p: Point)
    requires Reachable(s) && NewValidBlock(s, block) && p.hash in block.TxLinks()
    requires p in AllSpends(LedgerBlock(Each(s.table, block.txs, Storing()).table, block.TxLinks(), block.time).txs)
    ensures exists u, fork :: Reachable(u) && !QueryAsserts(u.table, p, fork)
  {
    hide Reachable;
    hide Inv;
    hide PushHeader;
    hide Update;
    hide CandidateBlock;
    hide PushBlock;
    hide PushBlockOwed;
    hide NewValidBlock;
    hide CandidateOwed;
    hide CandidatedOnTop;
    hide LedgerBlock;
    hide AllSpends;
    hide BlockPoints;
    hide Each;
    hide QueryAsserts;
    CandidatesOnTop(s, block);
    var u1 := PushHeader(s, block.header, false, |s.blocks.confirmed|, block.time).state;
    var u := CandidateBlock(Update(u1, block).state, block).state;
    ConfirmedOnTop(u, block);
    var n := |u.blocks.confirmed|;
    var w := PushBlock(u, block, n).state;
    ReachableInv(w);
    ConfirmedIsReady(w, n);
    LinksOfOwed(w, block);
    assert SpentAt(w, p, n);
    CandidatingSpentFails(w, block, p, n);
  }

  lemma LinksOfOwed(w: State, block: FullBlock)
    requires CandidateOwed(w, block)
    ensures w.blocks.LinksInRange(block.header.hash) && w.blocks.LinksOf(block.header.hash) == block.TxLinks()
  {
  }
}
