/** Updating and candidating the blocks of a branch whose headers are on the candidate index. */
module BranchFilling {
  import opened Types
  import opened Record
  import opened BlockState
  import opened BlockTable
  import opened TransactionTable
  import opened Ledger
  import opened Agreement
  import opened CandidateSpends
  import opened ChainState
  import opened Invariants
  import opened Steps
  import opened Runs
  import opened Branch
  import Progress

  /** Update and candidate blocks in order, the first at a given height. */
  function Fill(s: State, branch: seq<FullBlock>, first: nat): Done {
    if branch == [] then Done(true, s)
    else
      var n := |branch| - 1;
      var front := Fill(s, branch[..n], first);
      if !front.ok then front
      else
        var updated := Update(front.state, branch[n]);
        if updated.ok then CandidateBlock(updated.state, branch[n]) else updated
  }

  /** Each of these operations is owed when it is reached. */
  ghost predicate FillOwed(s: State, branch: seq<FullBlock>, first: nat) {
    branch == [] ||
    (var n := |branch| - 1;
     var u := Fill(s, branch[..n], first).state;
     && FillOwed(s, branch[..n], first)
     && UpdateOwed(u, branch[n], first + n)
     && CandidateOwed(Update(u, branch[n]).state, branch[n]))
  }

  /** The block is stored with its transactions, and valid. */
  ghost predicate Filled(s: State, block: FullBlock) {
    && block.header.hash in s.blocks.rows
    && s.blocks.rows[block.header.hash].previous == block.header.previous
    && IsValid(s.blocks.rows[block.header.hash].state)
    && s.blocks.LinksInRange(block.header.hash) && s.blocks.LinksOf(block.header.hash) == block.TxLinks()
    && AllStored(s.table, AsBlock(block).txs)
  }

  /** The first blocks of the branch are filled, the others only stored as headers. */
  ghost predicate FilledTo(s: State, u: State, branch: seq<FullBlock>, k: nat)
    requires k <= |branch|
  {
    && u.blocks.candidate == s.blocks.candidate && u.blocks.confirmed == s.blocks.confirmed && u.chain == s.chain
    && |u.blocks.links| == |s.blocks.links| + LinkCount(branch[..k])
    && SameTransactions(s.table, u.table)
    && u.table.Keys == s.table.Keys + ChainHashes(AsBlocks(branch[..k]))
    && (forall i :: 0 <= i < k ==> Filled(u, branch[i]))
    && AllFresh(u.blocks, branch, k)
  }

  // Storing the transactions of a block.

  lemma StoringLast(t: Table, txs: seq<Transaction>)
    requires txs != []
    ensures var n := |txs| - 1;
            Each(t, txs, Storing())
            == Storize(Each(t, txs[..n], Storing()).table, txs[n], UNVERIFIED, NO_TIME, UNCONFIRMED)
  {
    hide Agrees;
    hide SameMarks;
    var n := |txs| - 1;
    StoreAllKeeps(t, txs[..n]);
    assert Each(t, txs, Storing()) == Storing()(Each(t, txs[..n], Storing()).table, n, txs[n]);
  }

  function TxHashes(txs: seq<Transaction>): set<Hash> {
    set tx | tx in txs :: tx.hash
  }

  ghost predicate Distinct(txs: seq<Transaction>) {
    forall i, j :: 0 <= i < j < |txs| ==> txs[i].hash != txs[j].hash
  }

  /** Storing transactions that are new or identified stores just them. */
  lemma {:induction false} StoredByStoring(t: Table, txs: seq<Transaction>)
    requires Identified(t, txs) && Distinct(txs)
    ensures var u := Each(t, txs, Storing()).table;
            && SameTransactions(t, u) && u.Keys == t.Keys + TxHashes(txs)
            && forall tx :: tx in txs ==> Stored(u, AsTx(tx))
    decreases |txs|
  {
    hide Each;
    hide Stored;
    hide SameTransactions;
    if txs == [] {
      NothingStored(t);
    } else {
      var n := |txs| - 1;
      var front := txs[..n];
      StoredByStoring(t, front);
      var u := Each(t, front, Storing()).table;
      StoringLast(t, txs);
      var v := Each(t, txs, Storing()).table;
      LastIsDistinct(txs);
      StoredOne(t, u, txs[n]);
      SameTransactionsTransitive(t, u, v);
      assert txs == front + [txs[n]];
      forall tx | tx in front ensures Stored(v, AsTx(tx)) {
        StoredStays(u, v, AsTx(tx));
      }
    }
  }

  lemma NothingStored(t: Table)
    ensures Each(t, [], Storing()).table == t && SameTransactions(t, t)
  {
  }

  lemma LastIsDistinct(txs: seq<Transaction>)
    requires Distinct(txs) && txs != []
    ensures Distinct(txs[..|txs| - 1])
    ensures txs[|txs| - 1].hash !in TxHashes(txs[..|txs| - 1])
    ensures TxHashes(txs) == TxHashes(txs[..|txs| - 1]) + {txs[|txs| - 1].hash}
  {
    assert txs == txs[..|txs| - 1] + [txs[|txs| - 1]];
  }

  lemma SameTransactionsTransitive(t: Table, u: Table, v: Table)
    requires SameTransactions(t, u) && SameTransactions(u, v)
    ensures SameTransactions(t, v)
  {
    forall h | h in t ensures SameTransaction(t[h], v[h]) {
      assert SameTransaction(t[h], u[h]) && SameTransaction(u[h], v[h]);
    }
  }

  lemma StoredStays(t: Table, u: Table, tx: Tx)
    requires Stored(t, tx) && SameTransactions(t, u)
    ensures Stored(u, tx)
  {
    assert SameTransaction(t[tx.hash], u[tx.hash]);
    assert u[tx.hash].Points() == t[tx.hash].Points();
  }

  lemma StoredOne(t: Table, u: Table, tx: Transaction)
    requires SameTransactions(t, u)
    requires tx.hash in u ==> tx.hash in t && Stored(t, AsTx(tx))
    ensures var v := Storize(u, tx, UNVERIFIED, NO_TIME, UNCONFIRMED).table;
            Stored(v, AsTx(tx)) && SameTransactions(u, v) && v.Keys == u.Keys + {tx.hash}
  {
    var v := Storize(u, tx, UNVERIFIED, NO_TIME, UNCONFIRMED).table;
    if tx.hash in u {
      assert SameTransaction(t[tx.hash], u[tx.hash]);
      assert u[tx.hash].Points() == t[tx.hash].Points();
    } else {
      assert v[tx.hash].Points() == AsTx(tx).inputs;
    }
  }

  // The outputs a block of the branch spends are stored.

  lemma {:induction false} UtxoComesFrom(chain: seq<Block>, p: Point)
    requires p in Utxo(chain)
    ensures exists block, tx :: block in chain && tx in block.txs && p in Creates(tx)
    decreases |chain|
  {
    var n := |chain| - 1;
    if p in Utxo(chain[..n]) {
      UtxoComesFrom(chain[..n], p);
      var block, tx :| block in chain[..n] && tx in block.txs && p in Creates(tx);
      assert block in chain;
    } else {
      Progress.UtxoAfterFrom(Utxo(chain[..n]), chain[n].txs, p);
      assert chain[n] in chain;
    }
  }

  lemma BlockIsReady(t: Table, chain: seq<Block>, block: Block)
    requires ValidNext(chain, block) && AllStored(t, block.txs)
    requires forall b :: b in chain ==> AllStored(t, b.txs)
    ensures LinksReady(t, Links(block.txs))
  {
    hide SpendsUnspent;
    hide Utxo;
    var links := Links(block.txs);
    StoredLinksOf(t, block.txs);
    BlockPointsAreSpends(t, block.txs);
    forall p | p in BlockPoints(t, links) ensures OutputExists(t, p) {
      Progress.SpendsComeFrom(Utxo(chain), block.txs, p);
      if p in Utxo(chain) {
        UtxoComesFrom(chain, p);
        var b, tx :| b in chain && tx in b.txs && p in Creates(tx);
        assert AllStored(t, b.txs) && Stored(t, tx);
      } else {
        var tx :| tx in block.txs && p in Creates(tx);
        assert Stored(t, tx);
      }
    }
  }

  // One block of the branch.

  /** The candidate index holds the branch from a height on, and the branch is valid on the chain below it. */
  ghost predicate OnCandidates(s: State, branch: seq<FullBlock>, first: nat) {
    && first <= |s.chain| && |s.blocks.candidate| == first + |branch|
    && (forall i :: 0 <= i < |branch| ==> s.blocks.candidate[first + i] == branch[i].header.hash)
    && (forall i, j :: 0 <= i < j < |branch| ==> branch[i].header.hash != branch[j].header.hash)
    && ValidChain(s.chain[..first] + AsBlocks(branch))
    && (forall block :: block in branch ==> Identified(s.table, block.txs))
    && |s.blocks.links| + LinkCount(branch) <= MAX_UINT32
  }

  /** The chain a block of the branch is valid on. */
  function Below(s: State, branch: seq<FullBlock>, first: nat, k: nat): seq<Block>
    requires first <= |s.chain| && k <= |branch|
  {
    s.chain[..first] + AsBlocks(branch[..k])
  }

  lemma {:induction false} BranchBlockIsValid(s: State, branch: seq<FullBlock>, first: nat, k: nat)
    requires OnCandidates(s, branch, first) && k < |branch|
    ensures ValidNext(Below(s, branch, first, k), AsBlock(branch[k]))
    ensures branch[k].txs != [] && |branch[k].txs| <= MAX_BLOCK_TXS && Distinct(branch[k].txs)
    ensures TxHashes(branch[k].txs) !! ChainHashes(AsBlocks(branch[..k]))
    ensures LinkCount(branch[..k]) + |branch[k].txs| <= LinkCount(branch)
    ensures LinkCount(branch[..k + 1]) == LinkCount(branch[..k]) + |branch[k].txs|
    ensures ChainHashes(AsBlocks(branch[..k + 1])) == ChainHashes(AsBlocks(branch[..k])) + TxHashes(branch[k].txs)
  {
    hide SpendsUnspent;
    hide Utxo;
    hide ValidChain;
    hide ChainHashes;
    hide LinkCount;
    hide TxHashes;
    var chain := s.chain[..first] + AsBlocks(branch);
    ValidPrefix(chain, first + k);
    assert chain[..first + k] == Below(s, branch, first, k);
    assert chain[first + k] == AsBlock(branch[k]);
    TxHashesOf(branch[k]);
    var txs := AsBlock(branch[k]).txs;
    assert forall i :: 0 <= i < |txs| ==> txs[i].hash == branch[k].txs[i].hash;
    ChainHashesAbove(s.chain[..first], AsBlocks(branch[..k]));
    LinkCountTake(branch, k);
    BranchHashesTake(branch, k);
  }

  lemma BranchHashesTake(branch: seq<FullBlock>, k: nat)
    requires k < |branch|
    ensures LinkCount(branch[..k + 1]) == LinkCount(branch[..k]) + |branch[k].txs|
    ensures ChainHashes(AsBlocks(branch[..k + 1])) == ChainHashes(AsBlocks(branch[..k])) + TxHashes(branch[k].txs)
  {
    hide ChainHashes;
    hide TxHashes;
    assert branch[..k + 1][..k] == branch[..k];
    var more := AsBlocks(branch[..k + 1]);
    assert more[..|more| - 1] == AsBlocks(branch[..k]);
    ChainHashesSnoc(more);
    TxHashesOf(branch[k]);
  }

  lemma TxHashesOf(block: FullBlock)
    ensures Hashes(AsBlock(block).txs) == TxHashes(block.txs)
  {
    var txs := AsBlock(block).txs;
    forall tx | tx in block.txs ensures tx.hash in Hashes(txs) {
      var i :| 0 <= i < |block.txs| && block.txs[i] == tx;
      assert txs[i] in txs;
    }
    forall tx | tx in txs ensures tx.hash in TxHashes(block.txs) {
      var i :| 0 <= i < |txs| && txs[i] == tx;
      assert block.txs[i] in block.txs;
    }
  }

  lemma ChainHashesAbove(a: seq<Block>, b: seq<Block>)
    ensures ChainHashes(b) <= ChainHashes(a + b)
  {
    assert forall block :: block in b ==> block in a + b;
  }

  lemma {:induction false} LinkCountTake(branch: seq<FullBlock>, k: nat)
    requires k < |branch|
    ensures LinkCount(branch[..k]) + |branch[k].txs| <= LinkCount(branch)
    decreases |branch|
  {
    var n := |branch| - 1;
    if k < n {
      assert branch[..n][..k] == branch[..k];
      LinkCountTake(branch[..n], k);
    }
  }

  /** The next block of a branch filled so far can be updated. */
  lemma UpdateNext(s: State, u: State, branch: seq<FullBlock>, first: nat, k: nat)
    requires OnCandidates(s, branch, first) && Inv(u) && k < |branch| && FilledTo(s, u, branch, k)
    ensures UpdateOwed(u, branch[k], first + k)
    ensures Identified(u.table, branch[k].txs) && Distinct(branch[k].txs)
  {
    hide Inv;
    hide ValidChain;
    hide ValidNext;
    hide Filled;
    hide Stored;
    hide IsFailed;
    hide ChainHashes;
    BranchBlockIsValid(s, branch, first, k);
    assert Fresh(u.blocks, branch[k].header);
    assert branch[k] in branch;
    forall tx | tx in branch[k].txs && tx.hash in u.table ensures Stored(u.table, AsTx(tx)) {
      assert tx.hash in TxHashes(branch[k].txs);
      assert tx.hash in s.table;
      StoredStays(s.table, u.table, AsTx(tx));
    }
  }

  /** What updating the next block leaves. */
  ghost predicate UpdatedNext(u: State, v: State, block: FullBlock) {
    var hash := block.header.hash;
    && v.blocks.candidate == u.blocks.candidate && v.blocks.confirmed == u.blocks.confirmed && v.chain == u.chain
    && |v.blocks.links| == |u.blocks.links| + |block.txs|
    && SameTransactions(u.table, v.table) && v.table.Keys == u.table.Keys + TxHashes(block.txs)
    && AllStored(v.table, AsBlock(block).txs)
    && hash in v.blocks.rows && v.blocks.LinksInRange(hash) && v.blocks.LinksOf(hash) == block.TxLinks()
    && hash in u.blocks.rows && v.blocks.rows[hash].previous == u.blocks.rows[hash].previous
    && OthersKept(u.blocks, v.blocks, hash)
  }

  /** Every other block keeps its row and its links. */
  ghost predicate OthersKept(b: Blocks, c: Blocks, hash: Hash) {
    forall x :: x in b.rows && x != hash ==>
      && x in c.rows && c.rows[x] == b.rows[x]
      && (b.LinksInRange(x) ==> c.LinksInRange(x) && c.LinksOf(x) == b.LinksOf(x))
  }

  lemma UpdateEffect(u: State, block: FullBlock, height: nat)
    requires Inv(u) && UpdateOwed(u, block, height) && Identified(u.table, block.txs) && Distinct(block.txs)
    ensures var d := Update(u, block);
            && d.ok && Inv(d.state) && UpdatedNext(u, d.state, block)
            && d.state.blocks.rows[block.header.hash].state == u.blocks.rows[block.header.hash].state
  {
    hide Tied;
    hide Marks;
    hide Confirmations;
    hide Indexed;
    hide Populated;
    hide Stored;
    hide Each;
    hide SameTransactions;
    UpdateKeepsInv(u, block, height);
    StoredByStoring(u.table, block.txs);
    UpdateLinks(u.blocks, block.header.hash, block.TxLinks());
    var v := Update(u, block).state;
    forall tx | tx in AsBlock(block).txs ensures Stored(v.table, tx) {
      var i :| 0 <= i < |block.txs| && AsBlock(block).txs[i] == tx;
      assert block.txs[i] in block.txs;
    }
  }

  /** The block just updated can be candidated. */
  lemma CandidateNext(s: State, u: State, v: State, branch: seq<FullBlock>, first: nat, k: nat)
    requires OnCandidates(s, branch, first) && k < |branch| && FilledTo(s, u, branch, k)
    requires Inv(v) && UpdatedNext(u, v, branch[k])
    requires v.blocks.rows[branch[k].header.hash].state == u.blocks.rows[branch[k].header.hash].state
    ensures CandidateOwed(v, branch[k]) && LinksReady(v.table, branch[k].TxLinks())
  {
    hide Inv;
    hide ValidChain;
    hide ValidNext;
    hide AllStored;
    hide IsFailed;
    hide LinksReady;
    hide OthersKept;
    hide SameTransactions;
    BranchBlockIsValid(s, branch, first, k);
    assert Fresh(u.blocks, branch[k].header);
    assert v.blocks.candidate[first + k] == branch[k].header.hash;
    BelowIsStored(s, u, v, branch, first, k);
    BlockIsReady(v.table, Below(s, branch, first, k), AsBlock(branch[k]));
  }

  lemma BelowIsStored(s: State, u: State, v: State, branch: seq<FullBlock>, first: nat, k: nat)
    requires first <= |s.chain| && k <= |branch| && FilledTo(s, u, branch, k)
    requires Inv(v) && v.chain == s.chain && SameTransactions(u.table, v.table)
    ensures forall b :: b in Below(s, branch, first, k) ==> AllStored(v.table, b.txs)
  {
    hide Inv;
    hide AllStored;
    hide IsValid;
    hide Filled;
    hide AsBlock;
    hide SameTransactions;
    var chain := Below(s, branch, first, k);
    forall b | b in chain ensures AllStored(v.table, b.txs) {
      var i :| 0 <= i < |chain| && chain[i] == b;
      if i < first {
        ChainIsStored(v, i);
      } else {
        assert b == AsBlock(branch[i - first]) && Filled(u, branch[i - first]);
        FilledIsStored(u, branch[i - first]);
        AllStoredStays(u.table, v.table, b.txs);
      }
    }
  }

  lemma FilledIsStored(s: State, block: FullBlock)
    requires Filled(s, block)
    ensures AllStored(s.table, AsBlock(block).txs)
  {
  }

  lemma ChainIsStored(s: State, k: nat)
    requires Inv(s) && k < |s.chain|
    ensures AllStored(s.table, s.chain[k].txs)
  {
    assert TiedAt(s, k);
  }

  lemma AllStoredStays(t: Table, u: Table, txs: seq<Tx>)
    requires AllStored(t, txs) && SameTransactions(t, u)
    ensures AllStored(u, txs)
  {
    hide Stored;
    hide SameTransactions;
    forall tx | tx in txs ensures Stored(u, tx) {
      StoredStays(t, u, tx);
    }
  }

  /** What candidating the updated block leaves. */
  lemma CandidateEffect(v: State, block: FullBlock)
    requires Inv(v) && CandidateOwed(v, block) && LinksReady(v.table, block.TxLinks())
    ensures var d := CandidateBlock(v, block);
            var hash, w := block.header.hash, d.state;
            && d.ok && Inv(w) && SameTransactions(v.table, w.table) && w.table.Keys == v.table.Keys
            && w.blocks.candidate == v.blocks.candidate && w.blocks.confirmed == v.blocks.confirmed
            && w.chain == v.chain
            && w.blocks.links == v.blocks.links && OthersKept(v.blocks, w.blocks, hash)
            && hash in w.blocks.rows && IsValid(w.blocks.rows[hash].state)
            && w.blocks.rows[hash] == v.blocks.rows[hash].(state := w.blocks.rows[hash].state)
  {
    hide Inv;
    hide LinksReady;
    hide MarkedAs;
    hide IsFailed;
    hide IsValid;
    hide UpdateValidation;
    CandidateKeepsInv(v, block);
    var links, w := block.TxLinks(), CandidateBlock(v, block).state;
    MarkBlock(v.table, links, true);
    MarkedKeeps(v.table, w.table, BlockPoints(v.table, links), LinkSet(links), true);
    MarkedKeys(v.table, w.table, BlockPoints(v.table, links), LinkSet(links), true);
    ValidationBits(v.blocks.rows[block.header.hash].state, true);
  }

  lemma FilledStays(u: State, v: State, block: FullBlock, hash: Hash)
    requires Filled(u, block) && OthersKept(u.blocks, v.blocks, hash) && block.header.hash != hash
    requires SameTransactions(u.table, v.table)
    ensures Filled(v, block)
  {
    hide IsValid;
    hide AllStored;
    AllStoredStays(u.table, v.table, AsBlock(block).txs);
  }

  lemma FilledNext(s: State, u: State, v: State, w: State, branch: seq<FullBlock>, first: nat, k: nat)
    requires OnCandidates(s, branch, first) && k < |branch| && FilledTo(s, u, branch, k)
    requires UpdatedNext(u, v, branch[k])
    requires var hash := branch[k].header.hash;
             && SameTransactions(v.table, w.table) && w.table.Keys == v.table.Keys
             && w.blocks.candidate == v.blocks.candidate && w.blocks.confirmed == v.blocks.confirmed
             && w.chain == v.chain
             && w.blocks.links == v.blocks.links && OthersKept(v.blocks, w.blocks, hash)
             && hash in w.blocks.rows && IsValid(w.blocks.rows[hash].state)
             && w.blocks.rows[hash] == v.blocks.rows[hash].(state := w.blocks.rows[hash].state)
    ensures FilledTo(s, w, branch, k + 1)
  {
    hide ValidChain;
    hide ValidNext;
    hide AllStored;
    hide IsValid;
    hide IsFailed;
    hide Filled;
    hide SameTransactions;
    hide OthersKept;
    hide ChainHashes;
    BranchBlockIsValid(s, branch, first, k);
    SameTransactionsTransitive(s.table, u.table, v.table);
    SameTransactionsTransitive(s.table, v.table, w.table);
    forall i | 0 <= i < k + 1 ensures Filled(w, branch[i]) {
      if i < k {
        FilledStays(u, v, branch[i], branch[k].header.hash);
        FilledStays(v, w, branch[i], branch[k].header.hash);
      } else {
        JustFilled(u, v, w, branch[k]);
      }
    }
    forall i | k + 1 <= i < |branch| ensures Fresh(w.blocks, branch[i].header) {
      assert Fresh(u.blocks, branch[i].header);
      FreshKept(u.blocks, v.blocks, branch[i].header, branch[k].header.hash);
      FreshKept(v.blocks, w.blocks, branch[i].header, branch[k].header.hash);
    }
  }

  lemma FreshKept(b: Blocks, c: Blocks, header: Header, hash: Hash)
    requires Fresh(b, header) && OthersKept(b, c, hash) && header.hash != hash
    ensures Fresh(c, header)
  {
  }

  lemma JustFilled(u: State, v: State, w: State, block: FullBlock)
    requires Fresh(u.blocks, block.header) && UpdatedNext(u, v, block)
    requires var hash := block.header.hash;
             && SameTransactions(v.table, w.table) && w.blocks.links == v.blocks.links
             && hash in w.blocks.rows && IsValid(w.blocks.rows[hash].state)
             && w.blocks.rows[hash] == v.blocks.rows[hash].(state := w.blocks.rows[hash].state)
    ensures Filled(w, block)
  {
    hide IsValid;
    hide AllStored;
    hide OthersKept;
    AllStoredStays(v.table, w.table, AsBlock(block).txs);
  }

  lemma {:induction false} FillExact(s: State, branch: seq<FullBlock>, first: nat, k: nat)
    requires Inv(s) && OnCandidates(s, branch, first) && AllFresh(s.blocks, branch, 0) && k <= |branch|
    ensures var d := Fill(s, branch[..k], first);
            d.ok && Inv(d.state) && FilledTo(s, d.state, branch, k) && FillOwed(s, branch[..k], first)
    decreases k
  {
    hide Inv;
    hide OnCandidates;
    hide AllFresh;
    hide FilledTo;
    hide Update;
    hide UpdatedNext;
    hide CandidateBlock;
    hide UpdateOwed;
    hide CandidateOwed;
    hide LinksReady;
    hide SameTransactions;
    hide OthersKept;
    hide Identified;
    hide Distinct;
    if k == 0 {
      NothingFilled(s, branch);
    } else {
      var n := k - 1;
      FillExact(s, branch, first, n);
      assert branch[..k][..n] == branch[..n];
      var u := Fill(s, branch[..n], first).state;
      UpdateNext(s, u, branch, first, n);
      UpdateEffect(u, branch[n], first + n);
      var v := Update(u, branch[n]).state;
      CandidateNext(s, u, v, branch, first, n);
      CandidateEffect(v, branch[n]);
      FilledNext(s, u, v, CandidateBlock(v, branch[n]).state, branch, first, n);
    }
  }

  lemma NothingFilled(s: State, branch: seq<FullBlock>)
    requires AllFresh(s.blocks, branch, 0)
    ensures FilledTo(s, s, branch, 0)
  {
    assert AsBlocks(branch[..0]) == [];
  }

  lemma {:induction false} FillIsReachable(s: State, branch: seq<FullBlock>, first: nat)
    requires Reachable(s) && FillOwed(s, branch, first) && Fill(s, branch, first).ok
    ensures Reachable(Fill(s, branch, first).state)
    decreases |branch|
  {
    hide Reachable;
    hide Update;
    hide CandidateBlock;
    hide UpdateOwed;
    hide CandidateOwed;
    if branch != [] {
      var n := |branch| - 1;
      FillIsReachable(s, branch[..n], first);
      var u := Fill(s, branch[..n], first).state;
      ReachableStep(u, UpdateStep(branch[n], first + n));
      ReachableStep(Update(u, branch[n]).state, CandidateStep(branch[n]));
    }
  }
}
