/** A competing branch can replace the top of the chain: its headers are reorganized in, its blocks are
    updated and candidated, and then reorganized in. */
module CompetingBranch {
  import opened Types
  import opened Record
  import opened BlockState
  import opened BlockTable
  import opened TransactionTable
  import opened Ledger
  import opened Agreement
  import opened CandidateSpends
  import opened ChainState
  import opened Invariants
  import opened Steps
  import opened Runs
  import opened Branch
  import opened BranchFilling
  import opened ConfirmedHeaders
  import Headers = HeaderReorganization
  import Reorganization

  // ---------------------------------------------------------------- pushing the blocks

  ghost predicate AllFilled(s: State, branch: seq<FullBlock>) {
    forall i :: 0 <= i < |branch| ==> Filled(s, branch[i])
  }

  /** Each block is the child of the one before, the first the child of a given block. */
  ghost predicate Chained(branch: seq<FullBlock>, first: Hash) {
    forall i :: 0 <= i < |branch| ==> branch[i].header.previous == HashOf(branch, first, i)
  }

  lemma ChainedFront(branch: seq<FullBlock>, first: Hash)
    requires Chained(branch, first) && branch != []
    ensures Chained(branch[..|branch| - 1], first)
  {
    var front := branch[..|branch| - 1];
    forall i | 0 <= i < |front| ensures front[i].header.previous == HashOf(front, first, i) {
      assert front[i] == branch[i];
    }
  }

  /** A filled branch that is valid on the whole confirmed chain can be pushed onto it. */
  lemma {:induction false} BranchIsOwed(s: State, branch: seq<FullBlock>)
    requires Inv(s) && s.blocks.confirmed != []
    requires AllFilled(s, branch) && Chained(branch, s.blocks.confirmed[|s.blocks.confirmed| - 1])
    requires ValidChain(s.chain + AsBlocks(branch))
    ensures Reorganization.AllOwed(s, branch, |s.blocks.confirmed|)
    ensures Reorganization.PushAll(s, branch, |s.blocks.confirmed|).state.chain == s.chain + AsBlocks(branch)
    decreases |branch|
  {
    hide Inv;
    hide Filled;
    hide Chained;
    hide PushBlock;
    hide PushBlockOwed;
    hide Reorganization.SameHeaders;
    hide Unmoved;
    hide ValidNext;
    hide LedgerBlock;
    if branch == [] {
      assert s.chain + AsBlocks(branch) == s.chain;
    } else {
      var n, first := |branch| - 1, |s.blocks.confirmed|;
      var front := branch[..n];
      ChainedFront(branch, s.blocks.confirmed[first - 1]);
      var chain := s.chain + AsBlocks(branch);
      assert chain[..|chain| - 1] == s.chain + AsBlocks(front) && chain[|chain| - 1] == AsBlock(branch[n]);
      BranchIsOwed(s, front);
      Reorganization.PushAllExact(s, front, first);
      var v := Reorganization.PushAll(s, front, first).state;
      LastBlockIsOwed(s, v, branch);
      Reorganization.PushOne(v, branch[n], first + n);
      assert s.chain + AsBlocks(front) + [AsBlock(branch[n])] == chain;
    }
  }

  lemma LastBlockIsOwed(s: State, v: State, branch: seq<FullBlock>)
    requires branch != [] && s.blocks.confirmed != [] && Filled(s, branch[|branch| - 1])
    requires Chained(branch, s.blocks.confirmed[|s.blocks.confirmed| - 1])
    requires var front := branch[..|branch| - 1];
             && v.blocks.confirmed == s.blocks.confirmed + Reorganization.BlockHashes(front)
             && v.chain == s.chain + AsBlocks(front)
    requires Reorganization.SameHeaders(s.blocks, v.blocks) && Unmoved(s.table, v.table)
    requires ValidNext(v.chain, AsBlock(branch[|branch| - 1]))
    ensures var n := |branch| - 1;
            && PushBlockOwed(v, branch[n], |s.blocks.confirmed| + n)
            && LedgerBlock(v.table, branch[n].TxLinks(), branch[n].time) == AsBlock(branch[n])
  {
    hide Unmoved;
    hide Stored;
    hide IsValid;
    hide SpendsUnspent;
    hide Utxo;
    var n := |branch| - 1;
    var block := AsBlock(branch[n]);
    AllStoredUnmoved(s.table, v.table, block.txs);
    Reorganization.LedgerBlockIs(v.table, block);
    StoredLinksOf(v.table, block.txs);
    assert branch[n].header.previous == HashOf(branch, s.blocks.confirmed[|s.blocks.confirmed| - 1], n);
  }

  lemma FilledUnmoved(s: State, u: State, block: FullBlock)
    requires Filled(s, block) && Reorganization.SameHeaders(s.blocks, u.blocks) && Unmoved(s.table, u.table)
    ensures Filled(u, block)
  {
    hide Unmoved;
    hide IsValid;
    hide AllStored;
    AllStoredUnmoved(s.table, u.table, AsBlock(block).txs);
  }

  // ---------------------------------------------------------------- all of it

  lemma ChainFits(chain: seq<Block>)
    requires ValidChain(chain)
    ensures |chain| <= MAX_HEIGHT + 1
  {
  }

  /** Popping the headers above the fork leaves the branch as new as it was. */
  lemma HeadersAreOut(s: State, fork: nat, branch: seq<FullBlock>)
    requires Inv(s) && NewValidBranch(s, fork, branch) && s.blocks.candidate <= s.blocks.confirmed
    ensures Headers.PopsOwed(s, fork)
    ensures var p := Headers.PopAbove(s, fork);
            && p.ok && Inv(p.state) && NewHeaders(p.state.blocks, branch, Top(p.state))
            && p.state.blocks.candidate == s.blocks.confirmed[..fork + 1]
            && p.state.blocks.confirmed == s.blocks.confirmed && p.state.blocks.links == s.blocks.links
            && Headers.SameChain(s, p.state)
  {
    hide Inv;
    hide NewValidBranch;
    hide UpdateConfirmation;
    hide Headers.PopsOwed;
    hide Headers.PopAbove;
    hide Headers.OutgoingIs;
    hide Headers.HashSet;
    hide Headers.SameChain;
    hide NewHeaders;
    hide PopHeader;
    hide Headers.Moved;
    CommonFork(s, fork, branch);
    ConfirmedHeadersCanBePopped(s, fork);
    Headers.PopAboveExact(s, fork);
    var p := Headers.PopAbove(s, fork).state;
    MovedIs(s.blocks, p.blocks, Headers.HashSet(s.blocks.candidate[fork + 1..]));
    NewHeadersStay(s.blocks, p.blocks, branch, s.blocks.confirmed[fork]);
    assert s.blocks.candidate[..fork + 1] == s.blocks.confirmed[..fork + 1];
  }

  lemma CommonFork(s: State, fork: nat, branch: seq<FullBlock>)
    requires NewValidBranch(s, fork, branch)
    ensures fork < |s.blocks.candidate| && fork < |s.blocks.confirmed|
    ensures NewHeaders(s.blocks, branch, s.blocks.confirmed[fork])
  {
  }

  lemma MovedIs(b: Blocks, c: Blocks, moved: set<Hash>)
    requires Headers.Moved(b, c, moved, false)
    ensures c.confirmed == b.confirmed && c.links == b.links
  {
  }

  lemma NewHeadersStay(b: Blocks, c: Blocks, branch: seq<FullBlock>, first: Hash)
    requires NewHeaders(b, branch, first) && c.rows.Keys == b.rows.Keys
    ensures NewHeaders(c, branch, first)
  {
  }

  /** Pushing the headers of the branch leaves its blocks ready to be filled. */
  lemma BranchIsOnCandidates(s: State, p: State, u: State, fork: nat, branch: seq<FullBlock>)
    requires NewValidBranch(s, fork, branch) && Headers.SameChain(s, p)
    requires p.blocks.links == s.blocks.links && |p.blocks.candidate| == fork + 1
    requires u == p.(blocks := u.blocks) && u.blocks.links == p.blocks.links
    requires u.blocks.candidate == p.blocks.candidate + Headers.IncomingHashes(Incomings(branch))
    ensures OnCandidates(u, branch, fork + 1)
  {
    hide ValidChain;
    hide Identified;
    hide Headers.SameChain;
    SameChainIs(s, p);
    forall block | block in branch ensures Identified(u.table, block.txs) {
      IdentifiedStays(s, p, block.txs);
    }
  }

  lemma SameChainIs(s: State, p: State)
    requires Headers.SameChain(s, p)
    ensures p.chain == s.chain
  {
  }

  /** What reorganizing the headers in leaves is ready to be filled. */
  lemma HeadersAreIn(s: State, fork: nat, branch: seq<FullBlock>)
    requires Inv(s) && NewValidBranch(s, fork, branch) && s.blocks.candidate <= s.blocks.confirmed
    ensures Headers.PopsOwed(s, fork)
    ensures Headers.PushesOwed(Headers.PopAbove(s, fork).state, Incomings(branch), fork + 1)
    ensures var r := Headers.Reorganize(s, fork, Incomings(branch));
            && r.ok && Inv(r.state) && OnCandidates(r.state, branch, fork + 1) && AllFresh(r.state.blocks, branch, 0)
            && r.state.chain == s.chain && r.state.blocks.confirmed == s.blocks.confirmed
            && r.state.blocks.candidate == s.blocks.confirmed[..fork + 1] + Headers.IncomingHashes(Incomings(branch))
  {
    hide Inv;
    hide NewValidBranch;
    hide NewHeaders;
    hide OnCandidates;
    hide AllFresh;
    hide HeaderHashes;
    hide UpdateConfirmation;
    hide Headers.PopsOwed;
    hide Headers.PushesOwed;
    hide Headers.PopAbove;
    hide Headers.PushAll;
    hide Headers.HashSet;
    hide Headers.SameChain;
    hide Headers.IncomingHashes;
    BranchFits(s, fork, branch);
    HeadersAreOut(s, fork, branch);
    var p := Headers.PopAbove(s, fork).state;
    NewHeadersAreOwed(p, branch);
    Headers.PushAllExact(p, Incomings(branch), fork + 1);
    SameChainIs(s, p);
    BranchIsOnCandidates(s, p, Headers.PushAll(p, Incomings(branch), fork + 1).state, fork, branch);
  }

  lemma BranchFits(s: State, fork: nat, branch: seq<FullBlock>)
    requires NewValidBranch(s, fork, branch)
    ensures fork + 1 + |branch| <= MAX_HEIGHT + 1 && fork < |s.blocks.confirmed|
  {
    hide ValidChain;
    ChainFits(s.chain[..fork + 1] + AsBlocks(branch));
  }

  lemma IdentifiedStays(s: State, p: State, txs: seq<Transaction>)
    requires Identified(s.table, txs) && Headers.SameChain(s, p)
    ensures Identified(p.table, txs)
  {
    forall tx | tx in txs && tx.hash in p.table ensures Stored(p.table, AsTx(tx)) {
      StoredStays(s.table, p.table, AsTx(tx));
    }
  }

  /** The filled blocks can be reorganized in. */
  lemma BlocksCanComeIn(s: State, w: State, fork: nat, branch: seq<FullBlock>)
    requires Inv(s) && NewValidBranch(s, fork, branch)
    requires Inv(w) && AllFilled(w, branch) && w.chain == s.chain && w.blocks.confirmed == s.blocks.confirmed
    ensures fork < |w.blocks.confirmed|
    ensures Reorganization.AllOwed(Reorganization.PopAbove(w, fork).state, branch, fork + 1)
    ensures Reorganization.Reorganize(w, fork, branch).state.chain == s.chain[..fork + 1] + AsBlocks(branch)
  {
    hide Inv;
    hide ValidChain;
    hide Filled;
    hide Reorganization.PopAbove;
    hide Reorganization.PushAll;
    hide Reorganization.AllOwed;
    hide Reorganization.SameHeaders;
    hide Reorganization.OutgoingIs;
    hide Unmoved;
    hide Deconfirmed;
    hide Identified;
    hide NewValidBranch;
    hide Chained;
    hide AllFilled;
    hide Reorganization.BlockHashes;
    BranchFits(s, fork, branch);
    Reorganization.PopAboveExact(w, fork);
    var v := Reorganization.PopAbove(w, fork).state;
    AllFilledPopped(w, v, branch);
    BranchIsChained(s, fork, branch);
    assert v.blocks.confirmed[|v.blocks.confirmed| - 1] == s.blocks.confirmed[fork];
    BranchIsOwed(v, branch);
  }

  lemma AllFilledPopped(w: State, v: State, branch: seq<FullBlock>)
    requires AllFilled(w, branch) && Reorganization.SameHeaders(w.blocks, v.blocks) && Unmoved(w.table, v.table)
    ensures AllFilled(v, branch)
  {
    hide Filled;
    hide Unmoved;
    hide Reorganization.SameHeaders;
    forall i | 0 <= i < |branch| ensures Filled(v, branch[i]) {
      FilledUnmoved(w, v, branch[i]);
    }
  }

  lemma BranchIsChained(s: State, fork: nat, branch: seq<FullBlock>)
    requires NewValidBranch(s, fork, branch)
    ensures Chained(branch, s.blocks.confirmed[fork]) && ValidChain(s.chain[..fork + 1] + AsBlocks(branch))
    ensures fork < |s.chain|
  {
    hide ValidChain;
    hide Identified;
  }

  /** From every reachable state whose candidate index runs along its confirmed one, a branch of new blocks that
      is valid on a common block can replace what is above it: its headers can be reorganized in, each of its
      blocks updated and candidated, and its blocks reorganized in. Nothing else is owed, everything succeeds,
      and both indexes end in the branch. */
  lemma CompetingBranchCanReplace(s: State, fork: nat, branch: seq<FullBlock>)
    requires Reachable(s) && NewValidBranch(s, fork, branch) && s.blocks.candidate <= s.blocks.confirmed
    ensures Headers.PopsOwed(s, fork)
    ensures Headers.PushesOwed(Headers.PopAbove(s, fork).state, Incomings(branch), fork + 1)
    ensures var headers := Headers.Reorganize(s, fork, Incomings(branch));
            var filled := Fill(headers.state, branch, fork + 1);
            && headers.ok && FillOwed(headers.state, branch, fork + 1) && filled.ok
            && fork < |filled.state.blocks.confirmed|
            && Reorganization.AllOwed(Reorganization.PopAbove(filled.state, fork).state, branch, fork + 1)
            && var blocks := Reorganization.Reorganize(filled.state, fork, branch);
               && blocks.ok && Reachable(blocks.state)
               && blocks.state.blocks.confirmed == s.blocks.confirmed[..fork + 1] + Reorganization.BlockHashes(branch)
               && blocks.state.blocks.candidate == blocks.state.blocks.confirmed
               && blocks.state.chain == s.chain[..fork + 1] + AsBlocks(branch)
  {
    hide Reachable;
    hide Inv;
    hide NewValidBranch;
    hide OnCandidates;
    hide AllFresh;
    hide FillOwed;
    hide Fill;
    hide Filled;
    hide ChainHashes;
    hide SameTransactions;
    hide Unmoved;
    hide Headers.PopsOwed;
    hide Headers.PushesOwed;
    hide Headers.PopAbove;
    hide Headers.Reorganize;
    hide Reorganization.PopAbove;
    hide Reorganization.AllOwed;
    hide Reorganization.Reorganize;
    hide Reorganization.SameHeaders;
    hide Reorganization.OutgoingIs;
    ReachableInv(s);
    CommonFork(s, fork, branch);
    HeadersAreIn(s, fork, branch);
    Headers.ReorganizeIsReachable(s, fork, Incomings(branch));
    var u := Headers.Reorganize(s, fork, Incomings(branch)).state;
    FillExact(u, branch, fork + 1, |branch|);
    assert branch[..|branch|] == branch;
    FillIsReachable(u, branch, fork + 1);
    var w := Fill(u, branch, fork + 1).state;
    BlocksCanComeIn(s, w, fork, branch);
    Reorganization.ReorganizeExact(w, fork, branch);
    Reorganization.ReorganizeIsReachable(w, fork, branch);
    assert Headers.IncomingHashes(Incomings(branch)) == Reorganization.BlockHashes(branch);
  }
}
