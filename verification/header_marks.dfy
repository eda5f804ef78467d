/** The marks that a header reorganization takes away come back when its blocks are candidated again. */
module HeaderMarks {
  import opened Types
  import opened Record
  import opened BlockState
  import opened BlockTable
  import opened TransactionTable
  import opened Agreement
  import opened CandidateSpends
  import opened ChainState
  import opened Invariants
  import opened Steps
  import opened HeaderReorganization

  /** Candidate blocks one after the other. */
  function CandidateAll(s: State, blocks: seq<FullBlock>): Done {
    if blocks == [] then Done(true, s)
    else
      var n := |blocks| - 1;
      var front := CandidateAll(s, blocks[..n]);
      if front.ok then CandidateBlock(front.state, blocks[n]) else front
  }

  function BlockSet(blocks: seq<FullBlock>): set<Hash> {
    set block | block in blocks :: block.header.hash
  }

  /** Each block can be candidated where it is, and the outputs it spends are stored. */
  ghost predicate AllReady(s: State, blocks: seq<FullBlock>) {
    forall block :: block in blocks ==> CandidateOwed(s, block) && LinksReady(s.table, block.TxLinks())
  }

  /** Both hold the same chain, transactions, indexes and headers; only states and marks may differ. */
  ghost predicate SameButMarks(s: State, u: State) {
    && SameChain(s, u) && SameConstants(s.blocks, u.blocks)
    && u.blocks.candidate == s.blocks.candidate && u.blocks.confirmed == s.blocks.confirmed
  }

  lemma SameButMarksTransitive(s: State, u: State, v: State)
    requires SameButMarks(s, u) && SameButMarks(u, v)
    ensures SameButMarks(s, v)
  {
    hide SameChain;
    hide SameConstants;
    SameChainTransitive(s, u, v);
    SameConstantsTransitive(s.blocks, u.blocks, v.blocks);
  }

  lemma ReadyStays(s: State, u: State, block: FullBlock)
    requires SameButMarks(s, u) && CandidateOwed(s, block) && LinksReady(s.table, block.TxLinks())
    ensures CandidateOwed(u, block) && LinksReady(u.table, block.TxLinks())
  {
    hide IsFailed;
    hide LinksReady;
    ReadyFrame(s.table, u.table, block.TxLinks());
  }

  lemma CandidateOne(s: State, block: FullBlock)
    requires Inv(s) && CandidateOwed(s, block) && LinksReady(s.table, block.TxLinks())
    ensures var d := CandidateBlock(s, block);
            d.ok && Inv(d.state) && SameButMarks(s, d.state) && d.state.marked == s.marked + {block.header.hash}
  {
    hide Inv;
    hide LinksReady;
    hide MarkedAs;
    hide IsFailed;
    hide UpdateValidation;
    CandidateKeepsInv(s, block);
    var links, u := block.TxLinks(), CandidateBlock(s, block).state;
    MarkBlock(s.table, links, true);
    MarkedKeeps(s.table, u.table, BlockPoints(s.table, links), LinkSet(links), true);
    MarkedKeys(s.table, u.table, BlockPoints(s.table, links), LinkSet(links), true);
    ValidationBits(s.blocks.rows[block.header.hash].state, true);
  }

  /** Candidating blocks that are ready always succeeds and marks exactly them. */
  lemma {:induction false} CandidateAllExact(s: State, blocks: seq<FullBlock>)
    requires Inv(s) && AllReady(s, blocks)
    ensures var d := CandidateAll(s, blocks);
            d.ok && Inv(d.state) && SameButMarks(s, d.state) && d.state.marked == s.marked + BlockSet(blocks)
    decreases |blocks|
  {
    hide Inv;
    hide LinksReady;
    hide CandidateOwed;
    hide CandidateBlock;
    hide SameButMarks;
    if blocks == [] {
      SameButMarksReflexive(s);
    } else {
      var n := |blocks| - 1;
      CandidateAllExact(s, blocks[..n]);
      var u := CandidateAll(s, blocks[..n]).state;
      ReadyStays(s, u, blocks[n]);
      CandidateOne(u, blocks[n]);
      SameButMarksTransitive(s, u, CandidateBlock(u, blocks[n]).state);
      assert blocks == blocks[..n] + [blocks[n]];
    }
  }

  lemma SameButMarksReflexive(s: State)
    ensures SameButMarks(s, s)
  {
  }

  /** States that mark the same blocks, with the same links and transactions, mark the same outputs. */
  lemma MarksAreDetermined(s: State, u: State, h: Hash, i: nat)
    requires Inv(s) && Inv(u) && SameChain(s, u) && SameConstants(s.blocks, u.blocks) && u.marked == s.marked
    requires h in s.table && i < |s.table[h].outputs|
    ensures h in u.table && i < |u.table[h].outputs|
    ensures u.table[h].outputs[i].candidateSpent == s.table[h].outputs[i].candidateSpent
  {
    hide Indexed;
    hide Tied;
    hide Confirmations;
    hide Populated;
    hide IsFailed;
    assert SameTransaction(s.table[h], u.table[h]);
    forall x | x in s.marked
      ensures s.blocks.LinksInRange(x) && u.blocks.LinksInRange(x)
      ensures BlockPoints(u.table, u.blocks.LinksOf(x)) == BlockPoints(s.table, s.blocks.LinksOf(x))
    {
      assert MarkedBlock(s, x);
      ReadyFrame(s.table, u.table, s.blocks.LinksOf(x));
    }
    assert MarkedSpends(u, Point(h, i)) <==> MarkedSpends(s, Point(h, i));
  }

  /** Both tables hold the same outputs, with the same candidate-spent bytes. */
  ghost predicate SameSpentMarks(t: Table, u: Table) {
    && u.Keys == t.Keys
    && forall h, i :: h in t && 0 <= i < |t[h].outputs| ==>
         i < |u[h].outputs| && u[h].outputs[i].candidateSpent == t[h].outputs[i].candidateSpent
  }

  lemma AllMarksAreDetermined(s: State, u: State)
    requires Inv(s) && Inv(u) && SameChain(s, u) && SameConstants(s.blocks, u.blocks) && u.marked == s.marked
    ensures SameSpentMarks(s.table, u.table)
  {
    hide Inv;
    hide SameConstants;
    forall h, i | h in s.table && 0 <= i < |s.table[h].outputs|
      ensures i < |u.table[h].outputs|
      ensures u.table[h].outputs[i].candidateSpent == s.table[h].outputs[i].candidateSpent
    {
      MarksAreDetermined(s, u, h, i);
    }
  }

  // ---------------------------------------------------------------- which marks survive

  /** No block marked above the fork spends anything. */
  ghost predicate MarkedAboveSpendNothing(s: State, fork: nat)
    requires fork < |s.blocks.candidate|
  {
    forall x :: x in s.marked && x in s.blocks.candidate[fork + 1..] ==>
      s.blocks.LinksInRange(x) && BlockPoints(s.table, s.blocks.LinksOf(x)) == {}
  }

  /** An output spent by a block marked above the fork is spent by no block marked at or below it. */
  lemma SpentByOneSide(s: State, fork: nat, x: Hash, y: Hash)
    requires Inv(s) && fork < |s.blocks.candidate| && Poppable(s, fork)
    requires x in s.marked && x in s.blocks.candidate[fork + 1..]
    requires y in s.marked && y !in s.blocks.candidate[fork + 1..]
    ensures s.blocks.LinksInRange(x) && s.blocks.LinksInRange(y)
    ensures BlockPoints(s.table, s.blocks.LinksOf(x)) !! BlockPoints(s.table, s.blocks.LinksOf(y))
  {
    hide Inv;
    hide LinksReady;
    hide BlockPoints;
    MarkedOnIndex(s);
    var index := s.blocks.candidate;
    var i :| 0 <= i < |index[fork + 1..]| && index[fork + 1..][i] == x;
    var k := fork + 1 + i;
    assert PoppableAt(s, k) && index[k] == x;
    BelowFork(index, fork + 1, k, y);
  }

  lemma BelowFork(index: seq<Hash>, first: nat, k: nat, y: Hash)
    requires first <= k <= |index| && y in index && y !in index[first..]
    ensures y in index[..k]
  {
    assert index == index[..first] + index[first..];
    var j :| 0 <= j < first && index[..first][j] == y;
    assert index[..k][j] == y;
  }

  /** The outputs marked in u, whose marked blocks are those of s at or below the fork. */
  lemma MarkedSpendsBelow(s: State, u: State, fork: nat, p: Point)
    requires Inv(s) && Inv(u) && fork < |s.blocks.candidate|
    requires SameChain(s, u) && SameConstants(s.blocks, u.blocks)
    requires u.marked == s.marked - HashSet(s.blocks.candidate[fork + 1..])
    ensures MarkedSpends(u, p) <==>
            exists y :: y in s.marked && y !in s.blocks.candidate[fork + 1..]
                        && s.blocks.LinksInRange(y) && p in BlockPoints(s.table, s.blocks.LinksOf(y))
  {
    hide Inv;
    hide IsFailed;
    hide SameChain;
    hide BlockPoints;
    MarkedOnIndex(s);
    LinksOfStored(s);
    CandidateInRows(s);
    forall y | y in s.marked
      ensures u.blocks.LinksInRange(y) && s.blocks.LinksInRange(y)
      ensures BlockPoints(u.table, u.blocks.LinksOf(y)) == BlockPoints(s.table, s.blocks.LinksOf(y))
    {
      LinksAlike(s, u, y);
    }
  }

  lemma ByteIsMark(s: State, h: Hash, i: nat)
    requires Inv(s) && h in s.table && i < |s.table[h].outputs|
    ensures s.table[h].outputs[i].candidateSpent <==> MarkedSpends(s, Point(h, i))
  {
    hide Indexed;
    hide Tied;
    hide Confirmations;
    hide Populated;
  }

  /** What a marked block spends is stored. */
  lemma MarkedOutputIsStored(s: State, x: Hash, p: Point)
    requires Inv(s) && x in s.marked && s.blocks.LinksInRange(x) && p in BlockPoints(s.table, s.blocks.LinksOf(x))
    ensures OutputExists(s.table, p) && MarkedSpends(s, p)
  {
    hide Indexed;
    hide Tied;
    hide Confirmations;
    hide Populated;
    hide BlockPoints;
    assert MarkedBlock(s, x);
  }

  lemma SurvivesIf(s: State, u: State, fork: nat)
    requires Inv(s) && Inv(u) && fork < |s.blocks.candidate| && MarkedAboveSpendNothing(s, fork)
    requires SameChain(s, u) && SameConstants(s.blocks, u.blocks)
    requires u.marked == s.marked - HashSet(s.blocks.candidate[fork + 1..])
    ensures SameSpentMarks(s.table, u.table)
  {
    hide Inv;
    hide SameConstants;
    hide BlockPoints;
    MarkedOnIndex(s);
    forall h, i | h in s.table && 0 <= i < |s.table[h].outputs|
      ensures i < |u.table[h].outputs|
      ensures u.table[h].outputs[i].candidateSpent == s.table[h].outputs[i].candidateSpent
    {
      assert SameTransaction(s.table[h], u.table[h]);
      ByteIsMark(s, h, i);
      ByteIsMark(u, h, i);
      MarkedSpendsBelow(s, u, fork, Point(h, i));
    }
  }

  lemma SurvivesOnlyIf(s: State, u: State, fork: nat, x: Hash, p: Point)
    requires Inv(s) && Inv(u) && fork < |s.blocks.candidate| && Poppable(s, fork)
    requires SameChain(s, u) && SameConstants(s.blocks, u.blocks)
    requires u.marked == s.marked - HashSet(s.blocks.candidate[fork + 1..])
    requires x in s.marked && x in s.blocks.candidate[fork + 1..]
    requires s.blocks.LinksInRange(x) && p in BlockPoints(s.table, s.blocks.LinksOf(x))
    ensures OutputExists(s.table, p) && p.hash in u.table && p.index < |u.table[p.hash].outputs|
    ensures s.table[p.hash].outputs[p.index].candidateSpent && !u.table[p.hash].outputs[p.index].candidateSpent
  {
    hide Inv;
    hide SameConstants;
    hide BlockPoints;
    hide Poppable;
    hide MarkedSpends;
    MarkedOutputIsStored(s, x, p);
    assert SameTransaction(s.table[p.hash], u.table[p.hash]);
    assert Point(p.hash, p.index) == p;
    ByteIsMark(s, p.hash, p.index);
    ByteIsMark(u, p.hash, p.index);
    MarkedSpendsBelow(s, u, fork, p);
    forall y | y in s.marked && y !in s.blocks.candidate[fork + 1..] && s.blocks.LinksInRange(y)
      ensures p !in BlockPoints(s.table, s.blocks.LinksOf(y))
    {
      SpentByOneSide(s, fork, x, y);
    }
  }

  /** Reorganizing headers back by itself restores the candidate-spent bytes exactly when no marked block that
      was popped spends anything: each output that one spends loses its mark. */
  lemma MarksSurviveExactly(s: State, fork: nat, incoming: seq<Incoming>)
    requires Inv(s) && fork < |s.blocks.candidate| && PopsOwed(s, fork)
    requires PushesOwed(PopAbove(s, fork).state, incoming, fork + 1)
    requires IncomingApart(s, fork, incoming)
    ensures var there := Reorganize(s, fork, incoming);
            var back := Reorganize(there.state, fork, AsKnown(there.outgoing)).state;
            SameSpentMarks(s.table, back.table) <==> MarkedAboveSpendNothing(s, fork)
  {
    hide Inv;
    hide PopsOwed;
    hide PushesOwed;
    hide IncomingApart;
    hide Reorganize;
    hide Restores;
    hide HashSet;
    hide SameChain;
    hide SameConstants;
    hide Poppable;
    hide BlockPoints;
    ReorganizeIsUndone(s, fork, incoming);
    PopsOwedExactly(s, fork);
    MarkedOnIndex(s);
    var there := Reorganize(s, fork, incoming);
    var back := Reorganize(there.state, fork, AsKnown(there.outgoing)).state;
    if MarkedAboveSpendNothing(s, fork) {
      SurvivesIf(s, back, fork);
    } else {
      var x :| x in s.marked && x in s.blocks.candidate[fork + 1..]
            && BlockPoints(s.table, s.blocks.LinksOf(x)) != {};
      var p :| p in BlockPoints(s.table, s.blocks.LinksOf(x));
      SurvivesOnlyIf(s, back, fork, x, p);
    }
  }

  /** After headers were reorganized and reorganized back, candidating again the popped blocks that had been
      candidated always succeeds and restores every candidate-spent byte. */
  lemma MarksAreRestored(s: State, fork: nat, incoming: seq<Incoming>, blocks: seq<FullBlock>)
    requires Inv(s) && fork < |s.blocks.candidate| && PopsOwed(s, fork)
    requires PushesOwed(PopAbove(s, fork).state, incoming, fork + 1)
    requires IncomingApart(s, fork, incoming)
    requires forall block :: block in blocks ==> CandidateOwed(s, block)
    requires BlockSet(blocks) == s.marked * HashSet(s.blocks.candidate[fork + 1..])
    ensures var there := Reorganize(s, fork, incoming);
            var back := Reorganize(there.state, fork, AsKnown(there.outgoing));
            var again := CandidateAll(back.state, blocks);
            && again.ok && Inv(again.state) && again.state.blocks.candidate == s.blocks.candidate
            && again.state.marked == s.marked && SameSpentMarks(s.table, again.state.table)
  {
    hide Inv;
    hide PopsOwed;
    hide PushesOwed;
    hide Reorganize;
    hide Restores;
    hide HashSet;
    hide BlockSet;
    hide CandidateOwed;
    hide LinksReady;
    hide SameChain;
    hide SameConstants;
    hide SameSpentMarks;
    ReorganizeIsUndone(s, fork, incoming);
    var there := Reorganize(s, fork, incoming);
    var back := Reorganize(there.state, fork, AsKnown(there.outgoing)).state;
    forall block | block in blocks ensures CandidateOwed(back, block) && LinksReady(back.table, block.TxLinks()) {
      MarkedIsReady(s, blocks, block);
      ReadyStays(s, back, block);
    }
    CandidateAllExact(back, blocks);
    var again := CandidateAll(back, blocks).state;
    assert again.marked == s.marked;
    SameButMarksTransitive(s, back, again);
    AllMarksAreDetermined(s, again);
  }

  lemma MarkedIsReady(s: State, blocks: seq<FullBlock>, block: FullBlock)
    requires Inv(s) && block in blocks && BlockSet(blocks) <= s.marked && CandidateOwed(s, block)
    ensures LinksReady(s.table, block.TxLinks())
  {
    hide Indexed;
    hide Tied;
    hide Confirmations;
    hide Populated;
    hide LinksReady;
    assert block.header.hash in BlockSet(blocks);
    assert MarkedBlock(s, block.header.hash);
  }
}
