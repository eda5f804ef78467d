/** Reachable states, with blocks of the shape the network has, in which undoing a header reorganization
    restores less than everything. */
module ConcreteCases {
  import opened Types
  import opened Record
  import opened BlockState
  import opened BlockTable
  import opened TransactionTable
  import opened Ledger
  import opened Agreement
  import opened CandidateSpends
  import opened ChainState
  import opened Invariants
  import opened Steps
  import opened Runs
  import opened Branch
  import opened BranchFilling
  import opened Progress
  import opened ConfirmedHeaderIn
  import opened CandidateFlags
  import opened OrdinaryCases
  import Reorganization

  // ---------------------------------------------------------------- after genesis

  lemma StartIsReachable(genesis: FullBlock)
    requires GenesisOwed(genesis)
    ensures Reachable(PushGenesis(genesis).state)
  {
    var s := PushGenesis(genesis).state;
    assert LegalRun(s, []) && Run(s, []) == s;
  }

  lemma GenesisIs(genesis: FullBlock)
    requires GenesisOwed(genesis)
    ensures var s := PushGenesis(genesis).state;
            && s.blocks.candidate == [genesis.header.hash] && s.blocks.confirmed == [genesis.header.hash]
            && s.blocks.rows.Keys == {genesis.header.hash} && |s.blocks.links| == 1
            && s.table.Keys == {genesis.txs[0].hash}
  {
    hide Each;
    hide UpdateConfirmation;
    hide UpdateValidation;
    hide LedgerBlock;
    hide TransactionTable.ConfirmBlock;
    hide Agrees;
    GenesisEstablishesInv(genesis);
    GenesisIndexes(genesis);
    GenesisKeys(genesis);
  }

  lemma GenesisKeys(genesis: FullBlock)
    requires GenesisOwed(genesis)
    ensures PushGenesis(genesis).state.table.Keys == {genesis.txs[0].hash}
  {
    hide Each;
    hide Agrees;
    hide ValidNext;
    hide Unmoved;
    var t := Each(map[], genesis.txs, Storing()).table;
    StoredByStoring(map[], genesis.txs);
    assert TxHashes(genesis.txs) == {genesis.txs[0].hash};
    GenesisTransactions(genesis);
    LedgerBlockStored(t, genesis.TxLinks(), genesis.time);
    ConfirmBlockAgrees(t, [], LedgerBlock(t, genesis.TxLinks(), genesis.time));
    UnmovedKeys(t, ConfirmBlock(t, genesis.TxLinks(), 0, genesis.time).table);
  }

  lemma UnmovedKeys(t: Table, u: Table)
    requires Unmoved(t, u)
    ensures u.Keys == t.Keys
  {
  }

  // ---------------------------------------------------------------- blocks

  /** A hash of 32 bytes. */
  function HashOf32(first: Byte): (h: Hash)
    ensures |h| == HASH_SIZE && h[0] == first
  {
    [first, 0, 0, 0, 0, 0, 0, 0, 0, 0, 0, 0, 0, 0, 0, 0, 0, 0, 0, 0, 0, 0, 0, 0, 0, 0, 0, 0, 0, 0, 0, 0]
  }

  /** A coinbase has one input, of the null point, and here one output. */
  function Coinbase(hash: Hash): Transaction {
    Transaction(hash, [TransactionOutput(0, [])], [Input(Point(NULL_HASH, NULL_INDEX), [], [], 0)], 0, 0)
  }

  /** A transaction that spends the first output of another. */
  function Spending(hash: Hash, previous: Hash): Transaction {
    Transaction(hash, [TransactionOutput(0, [])], [Input(Point(previous, 0), [], [], 0)], 0, 0)
  }

  lemma CoinbaseSpendsNothing(hash: Hash)
    ensures Spends(AsTx(Coinbase(hash))) == {}
  {
    var inputs := AsTx(Coinbase(hash)).inputs;
    assert |inputs| == 1 && inputs[0] == Point(NULL_HASH, NULL_INDEX);
  }

  function GenesisBlock(): FullBlock {
    FullBlock(Header(HashOf32(1), NULL_HASH), NO_TIME, [Coinbase(HashOf32(2))])
  }

  /** The next block; it may spend the output of its coinbase. */
  function NextBlock(spends: bool): FullBlock {
    FullBlock(Header(HashOf32(3), HashOf32(1)), NO_TIME,
              [Coinbase(HashOf32(4))] + if spends then [Spending(HashOf32(5), HashOf32(4))] else [])
  }

  lemma HashesDiffer(a: Byte, b: Byte)
    requires a != b
    ensures HashOf32(a) != HashOf32(b)
  {
    assert HashOf32(a)[0] != HashOf32(b)[0];
  }

  lemma NotNullHash(a: Byte)
    requires a != 0
    ensures HashOf32(a) != NULL_HASH
  {
    assert HashOf32(a)[0] != NULL_HASH[0];
  }

  /** The state after genesis, and that the next block is new there. */
  lemma AfterGenesis()
    ensures var s := PushGenesis(GenesisBlock()).state;
            && Reachable(s) && Inv(s)
            && s.blocks.candidate == [HashOf32(1)] && s.blocks.confirmed == [HashOf32(1)]
            && s.blocks.rows.Keys == {HashOf32(1)} && |s.blocks.links| == 1 && s.table.Keys == {HashOf32(2)}
            && |s.chain| == 1
  {
    hide PushGenesis;
    hide Reachable;
    hide Inv;
    var genesis := GenesisBlock();
    CoinbaseSpendsNothing(HashOf32(2));
    NotNullHash(1);
    GenesisPoints(genesis.txs[0]);
    StartIsReachable(genesis);
    GenesisIs(genesis);
    ReachableInv(PushGenesis(genesis).state);
    NotEmptyChain(PushGenesis(genesis).state);
  }

  lemma GenesisPoints(tx: Transaction)
    requires Spends(AsTx(tx)) == {}
    ensures RealPoints(seq(|tx.inputs|, i requires 0 <= i < |tx.inputs| => tx.inputs[i].point)) == {}
  {
    assert AsTx(tx).inputs == seq(|tx.inputs|, i requires 0 <= i < |tx.inputs| => tx.inputs[i].point);
    forall p | p in AsTx(tx).inputs ensures p.IsNull() {
      assert p.IsNull() || p in Spends(AsTx(tx));
    }
  }

  lemma ChainHashesAreStored(s: State)
    requires Inv(s)
    ensures ChainHashes(s.chain) <= s.table.Keys
  {
    hide Indexed;
    hide Marks;
    hide Confirmations;
    forall block, tx | block in s.chain && tx in block.txs ensures tx.hash in s.table {
      var k :| 0 <= k < |s.chain| && s.chain[k] == block;
      assert TiedAt(s, k) && Stored(s.table, tx);
    }
  }

  // ---------------------------------------------------------------- the cases

  /** There is a reachable state in which a confirmed block can be brought in and loses its confirmation. */
  lemma ConfirmationCanBeLost()
    ensures exists u, fork, incoming, x :: Reachable(u) && LosesConfirmation(u, fork, incoming, x)
  {
    hide LosesConfirmation;
    hide Reachable;
    hide PushGenesis;
    hide Inv;
    var block := NextBlock(false);
    AfterGenesis();
    CoinbaseSpendsNothing(HashOf32(4));
    NotNullHash(3);
    HashesDiffer(3, 1);
    HashesDiffer(4, 2);
    ConfirmedHeaderCanComeIn(PushGenesis(GenesisBlock()).state, block);
  }

  lemma TwoAreValid(chain: seq<Block>, block: Block)
    requires |chain| == 1 && |block.txs| == 2 && block.time <= MAX_UINT32
    requires DistinctHashes(block.txs) && Hashes(block.txs) !! ChainHashes(chain)
    requires Spends(block.txs[0]) == {} && Spends(block.txs[1]) <= Creates(block.txs[0])
    ensures ValidNext(chain, block)
  {
    var u := Utxo(chain);
    assert block.txs[..1][..0] == [] && block.txs[..2] == block.txs;
    assert SpendsUnspent(u, []);
    assert SpendsUnspent(u, block.txs[..1]);
    assert UtxoAfter(u, block.txs[..1]) == UtxoAfter(u, []) + Creates(block.txs[0]);
    assert SpendsUnspent(u, block.txs);
  }

  /** The next block, with the transaction that spends its coinbase, as the ledger sees it. */
  lemma SpendingBlock()
    ensures var block := AsBlock(NextBlock(true));
            && block.txs == [AsTx(Coinbase(HashOf32(4))), AsTx(Spending(HashOf32(5), HashOf32(4)))]
            && DistinctHashes(block.txs) && Hashes(block.txs) == {HashOf32(4), HashOf32(5)}
            && Spends(block.txs[0]) == {} && Spends(block.txs[1]) <= Creates(block.txs[0])
            && Point(HashOf32(4), 0) in AllSpends(block.txs)
  {
    CoinbaseSpendsNothing(HashOf32(4));
    HashesDiffer(4, 5);
    var txs := AsBlock(NextBlock(true)).txs;
    var p := Point(HashOf32(4), 0);
    assert txs[0] == AsTx(Coinbase(HashOf32(4))) && txs[1] == AsTx(Spending(HashOf32(5), HashOf32(4)));
    assert txs[1].inputs == [p] && txs[0].outputs == 1;
    assert p in Creates(txs[0]);
    assert txs[1] in txs && p in Spends(txs[1]);
  }

  lemma SpendingBlockIsNew()
    ensures var s, block := PushGenesis(GenesisBlock()).state, NextBlock(true);
            && NewValidBlock(s, block)
            && Point(HashOf32(4), 0)
               in AllSpends(LedgerBlock(Each(s.table, block.txs, Storing()).table, block.TxLinks(), block.time).txs)
  {
    hide PushGenesis;
    hide Inv;
    hide Each;
    hide ValidNext;
    hide Stored;
    hide AllSpends;
    hide Spends;
    hide Creates;
    var s, block := PushGenesis(GenesisBlock()).state, NextBlock(true);
    AfterGenesis();
    NotNullHash(3);
    HashesDiffer(3, 1);
    HashesDiffer(4, 2);
    HashesDiffer(5, 2);
    SpendingBlock();
    ChainHashesAreStored(s);
    StoredAsBlock(s.table, block);
    TwoAreValid(s.chain, AsBlock(block));
  }

  lemma StoredAsBlock(t: Table, block: FullBlock)
    requires DistinctHashes(AsBlock(block).txs) && forall tx :: tx in block.txs ==> tx.hash !in t
    ensures LedgerBlock(Each(t, block.txs, Storing()).table, block.TxLinks(), block.time) == AsBlock(block)
  {
    hide Each;
    hide Stored;
    var txs := AsBlock(block).txs;
    assert forall i :: 0 <= i < |txs| ==> txs[i].hash == block.txs[i].hash;
    StoredByStoring(t, block.txs);
    var u := Each(t, block.txs, Storing()).table;
    forall tx | tx in txs ensures Stored(u, tx) {
      var i :| 0 <= i < |txs| && txs[i] == tx;
      assert block.txs[i] in block.txs;
    }
    Reorganization.LedgerBlockIs(u, AsBlock(block));
  }

  /** There is a reachable state in which undoing a header reorganization loses candidate-spent bytes. */
  lemma MarksCanBeLost()
    ensures exists u, fork :: Reachable(u) && LosesMarks(u, fork)
  {
    hide LosesMarks;
    hide Reachable;
    hide PushGenesis;
    hide NewValidBlock;
    hide Each;
    hide LedgerBlock;
    AfterGenesis();
    SpendingBlockIsNew();
    MarksAreLost(PushGenesis(GenesisBlock()).state, NextBlock(true));
  }

  /** There is a reachable state in which undoing a header reorganization turns a confirmed block into a candidate. */
  lemma ConfirmedCanTurnCandidate()
    ensures exists u, fork, x :: Reachable(u) && BecomesCandidate(u, fork, x)
  {
    hide BecomesCandidate;
    hide Reachable;
    hide PushGenesis;
    hide NewValidBlock;
    hide Each;
    hide LedgerBlock;
    AfterGenesis();
    SpendingBlockIsNew();
    ConfirmedTurnsCandidate(PushGenesis(GenesisBlock()).state, NextBlock(true));
  }

  /** There is a reachable state in which the assertion that ends the previous-output query fails. */
  lemma AssertionCanFail()
    ensures exists u, p, fork :: Reachable(u) && !QueryAsserts(u.table, p, fork)
  {
    hide QueryAsserts;
    hide Reachable;
    hide PushGenesis;
    hide NewValidBlock;
    hide Each;
    hide LedgerBlock;
    hide AllSpends;
    var block, p := NextBlock(true), Point(HashOf32(4), 0);
    AfterGenesis();
    SpendingBlockIsNew();
    assert block.TxLinks()[0] == p.hash;
    ConfirmedCandidatedAgain(PushGenesis(GenesisBlock()).state, block, p);
  }
}
