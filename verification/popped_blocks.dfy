/** A block that is popped comes back as it was stored: with its header, and with the transactions first handed in
    under the hashes that were stored for it. */
module PoppedBlocks {
  import opened Types
  import opened Record
  import opened BlockState
  import opened BlockTable
  import opened TransactionTable
  import opened Ledger
  import opened Agreement
  import opened ChainState
  import opened Invariants
  import opened Steps
  import opened Runs
  import opened Reorganization
  import opened CandidateFlags
  import opened Provenance
  import opened HeaderOrigins
  import BranchFilling

  /** A transaction is determined by its hash and a row that carries it. */
  lemma CarriesDetermines(row: Row, a: Transaction, b: Transaction)
    requires Carries(row, a) && Carries(row, b) && a.hash == b.hash
    ensures a == b
  {
    forall i | 0 <= i < |a.outputs| ensures a.outputs[i] == b.outputs[i] {
      assert a.outputs[i] == TransactionOutput(row.outputs[i].value, row.outputs[i].script);
    }
    assert a.outputs == b.outputs;
  }

  /** The block has this header and no time, and its transactions are those first handed in under the hashes that the
      run stored for it. */
  ghost predicate IsAsStored(genesis: FullBlock, steps: seq<Step>, previous: Hash, hash: Hash, block: FullBlock) {
    var list, gifts := ListOf(genesis, steps, hash), AllGifts(genesis, steps);
    && block.header == Header(hash, previous) && block.time == NO_TIME
    && |block.txs| == |list|
    && forall j :: 0 <= j < |list| ==>
         FirstOf(gifts, list[j]).Some? && block.txs[j] == FirstOf(gifts, list[j]).value.tx
  }

  lemma RereadIsAsStored(genesis: FullBlock, steps: seq<Step>, s: State, previous: Hash, hash: Hash, block: FullBlock)
    requires RereadOf(s, block, hash) && HoldsFirst(s.table, AllGifts(genesis, steps))
    requires s.blocks.rows[hash].previous == previous && s.blocks.LinksOf(hash) == ListOf(genesis, steps, hash)
    ensures IsAsStored(genesis, steps, previous, hash, block)
  {
    hide Carries;
    hide FirstOf;
    hide AllGifts;
    hide ListOf;
    var list, gifts := ListOf(genesis, steps, hash), AllGifts(genesis, steps);
    assert |block.TxLinks()| == |block.txs|;
    forall j | 0 <= j < |list|
      ensures FirstOf(gifts, list[j]).Some? && block.txs[j] == FirstOf(gifts, list[j]).value.tx
    {
      var tx := block.txs[j];
      assert tx in block.txs && block.TxLinks()[j] == tx.hash == list[j];
      var g := FirstOf(gifts, tx.hash);
      assert Keeps(s.table[tx.hash], g.value);
      CarriesDetermines(s.table[tx.hash], tx, g.value.tx);
    }
  }

  /** After every run from genesis, the blocks that popping to a fork hands back, and so a reorganization, are the old
      top of the index in ascending order, each as it was stored. */
  lemma PoppedAreAsStored(genesis: FullBlock, steps: seq<Step>, fork: nat)
    requires GenesisOwed(genesis) && LegalRun(PushGenesis(genesis).state, steps)
    requires fork < |Run(PushGenesis(genesis).state, steps).blocks.confirmed|
    ensures var s := Run(PushGenesis(genesis).state, steps);
            var outgoing := PopAbove(s, fork).outgoing;
            && |outgoing| + fork + 1 == |s.blocks.confirmed|
            && (forall i :: 0 <= i < |outgoing| ==>
                 IsAsStored(genesis, steps, s.blocks.confirmed[fork + i], s.blocks.confirmed[fork + 1 + i],
                            outgoing[i]))
            && forall incoming :: Reorganize(s, fork, incoming).outgoing == outgoing
  {
    hide PushGenesis;
    hide GenesisOwed;
    hide Inv;
    hide PopAbove;
    hide PushAll;
    hide PoppedFrom;
    hide RereadOf;
    hide IsAsStored;
    hide HoldsFirst;
    hide ListOf;
    var s := Run(PushGenesis(genesis).state, steps);
    RunHoldsFirst(genesis, steps);
    PopAboveExact(s, fork);
    var outgoing := PopAbove(s, fork).outgoing;
    forall i | 0 <= i < |outgoing|
      ensures IsAsStored(genesis, steps, s.blocks.confirmed[fork + i], s.blocks.confirmed[fork + 1 + i], outgoing[i])
    {
      var hash := s.blocks.confirmed[fork + 1 + i];
      LinksAreAsStored(genesis, steps, hash);
      ConfirmedIsLinked(s, fork + 1 + i);
      RereadIsStored(s, outgoing[i], hash);
      RereadIsAsStored(genesis, steps, s, s.blocks.confirmed[fork + i], hash, outgoing[i]);
    }
  }

  lemma ConfirmedIsLinked(s: State, k: nat)
    requires Inv(s) && 0 < k < |s.blocks.confirmed|
    ensures var hash := s.blocks.confirmed[k];
            hash in s.blocks.rows && s.blocks.rows[hash].previous == s.blocks.confirmed[k - 1]
  {
    hide Marks;
    hide Tied;
    hide Confirmations;
    hide Populated;
    assert Linked(s.blocks, s.blocks.confirmed);
  }

  lemma RereadIsStored(s: State, block: FullBlock, hash: Hash)
    requires RereadOf(s, block, hash)
    ensures hash in s.blocks.rows && s.blocks.LinksInRange(hash)
  {
  }

  // ---------------------------------------------------------------- out and back

  lemma {:induction false} RunPrefix(s: State, steps: seq<Step>, k: nat)
    requires LegalRun(s, steps) && k <= |steps|
    ensures LegalRun(s, steps[..k])
    ensures k < |steps| ==> Owed(Run(s, steps[..k]), steps[k]) && Next(Run(s, steps[..k]), steps[k]).ok
    decreases |steps|
  {
    hide Owed;
    hide Next;
    if k == |steps| {
      assert steps[..k] == steps;
    } else {
      var n := |steps| - 1;
      if k < n {
        RunPrefix(s, steps[..n], k);
        assert steps[..n][..k] == steps[..k];
      }
    }
  }

  /** What was first stays first. */
  lemma {:induction false} FirstStaysFirst(genesis: FullBlock, steps: seq<Step>, k: nat, h: Hash)
    requires k <= |steps| && FirstOf(AllGifts(genesis, steps[..k]), h).Some?
    ensures FirstOf(AllGifts(genesis, steps), h) == FirstOf(AllGifts(genesis, steps[..k]), h)
    decreases |steps|
  {
    hide FirstOf;
    hide Gifts;
    if k == |steps| {
      assert steps[..k] == steps;
    } else {
      var n := |steps| - 1;
      assert steps[..n][..k] == steps[..k];
      FirstStaysFirst(genesis, steps[..n], k, h);
      FirstOfBoth(AllGifts(genesis, steps[..n]), Gifts(steps[n]), h);
    }
  }

  lemma {:induction false} FirstInBlock(txs: seq<Transaction>, j: nat)
    requires j < |txs|
    requires BranchFilling.Distinct(txs)
    ensures FirstOf(BlockGifts(txs), txs[j].hash) == Some(Gift(txs[j], UNVERIFIED))
  {
    if j > 0 {
      assert BlockGifts(txs)[1..] == BlockGifts(txs[1..]);
      FirstInBlock(txs[1..], j - 1);
    }
  }

  /** A block whose transactions are new when they are stored is first under all their hashes. */
  lemma NewTransactionsAreFirst(genesis: FullBlock, steps: seq<Step>, k: nat, j: nat)
    requires GenesisOwed(genesis) && LegalRun(PushGenesis(genesis).state, steps)
    requires k < |steps| && steps[k].UpdateStep? && j < |steps[k].block.txs|
    requires BranchFilling.Distinct(steps[k].block.txs)
    requires steps[k].block.txs[j].hash !in Run(PushGenesis(genesis).state, steps[..k]).table
    ensures FirstOf(AllGifts(genesis, steps), steps[k].block.txs[j].hash)
            == Some(Gift(steps[k].block.txs[j], UNVERIFIED))
  {
    hide PushGenesis;
    hide GenesisOwed;
    hide Run;
    hide Inv;
    hide FirstOf;
    var txs := steps[k].block.txs;
    var front := steps[..k + 1];
    RunPrefix(PushGenesis(genesis).state, steps, k);
    StoredIsFirstHandedIn(genesis, steps[..k], txs[j].hash);
    assert front[..k] == steps[..k] && front[k] == steps[k];
    FirstOfBoth(AllGifts(genesis, steps[..k]), BlockGifts(txs), txs[j].hash);
    FirstInBlock(txs, j);
    assert FirstOf(AllGifts(genesis, front), txs[j].hash) == Some(Gift(txs[j], UNVERIFIED));
    FirstStaysFirst(genesis, steps, k + 1, txs[j].hash);
  }

  /** A pushed block has distinct transactions, is on top, and has the links stored for it. */
  lemma PushedOnTop(u: State, block: FullBlock, height: nat)
    requires Inv(u) && PushBlockOwed(u, block, height)
    ensures var s := PushBlock(u, block, height).state;
            && 0 < height && |s.blocks.confirmed| == height + 1
            && s.blocks.confirmed[height - 1] == block.header.previous
            && s.blocks.confirmed[height] == block.header.hash
            && s.blocks.LinksInRange(block.header.hash) && s.blocks.LinksOf(block.header.hash) == block.TxLinks()
    ensures BranchFilling.Distinct(block.txs)
  {
    hide Inv;
    hide Unmoved;
    hide SpendsUnspent;
    hide Utxo;
    hide PushBlock;
    hide IsValid;
    PushOne(u, block, height);
    var ledger := LedgerBlock(u.table, block.TxLinks(), block.time);
    assert forall a :: 0 <= a < |block.txs| ==> ledger.txs[a].hash == block.txs[a].hash;
  }

  /** A block of new transactions that is stored, and later pushed, comes back equal to itself when it is popped,
      but for the time, which a popped block does not have. */
  lemma PushedBlockComesBack(genesis: FullBlock, steps: seq<Step>, k: nat)
    requires GenesisOwed(genesis) && LegalRun(PushGenesis(genesis).state, steps) && k + 1 < |steps|
    requires steps[|steps| - 1].PushBlockStep? && steps[k].UpdateStep?
    requires steps[k].block == steps[|steps| - 1].block
    requires forall tx :: tx in steps[k].block.txs ==> tx.hash !in Run(PushGenesis(genesis).state, steps[..k]).table
    ensures var push := steps[|steps| - 1];
            && 0 < push.height
            && PopAbove(Run(PushGenesis(genesis).state, steps), push.height - 1).outgoing
               == [push.block.(time := NO_TIME)]
  {
    hide PushGenesis;
    hide GenesisOwed;
    hide Inv;
    hide Run;
    hide LegalRun;
    hide PopAbove;
    hide AreFirst;
    hide ListOf;
    hide BranchFilling.Distinct;
    var n := |steps| - 1;
    TopAfterPush(genesis, steps);
    AllAreFirst(genesis, steps, k);
    TopComesBack(genesis, steps, steps[n].block, steps[n].height);
  }

  /** After a run that ends with a push, that block is on top, with the transactions that were stored for it. */
  lemma TopAfterPush(genesis: FullBlock, steps: seq<Step>)
    requires GenesisOwed(genesis) && LegalRun(PushGenesis(genesis).state, steps)
    requires steps != [] && steps[|steps| - 1].PushBlockStep?
    ensures var b := Run(PushGenesis(genesis).state, steps).blocks;
            var block, height := steps[|steps| - 1].block, steps[|steps| - 1].height;
            && 0 < height && |b.confirmed| == height + 1
            && b.confirmed[height - 1] == block.header.previous && b.confirmed[height] == block.header.hash
            && ListOf(genesis, steps, block.header.hash) == block.TxLinks()
            && BranchFilling.Distinct(block.txs)
  {
    hide PushGenesis;
    hide GenesisOwed;
    hide Inv;
    hide PushBlock;
    hide PushBlockOwed;
    hide ListOf;
    hide Next;
    hide Owed;
    hide BranchFilling.Distinct;
    var n := |steps| - 1;
    var u := Run(PushGenesis(genesis).state, steps[..n]);
    GenesisEstablishesInv(genesis);
    RunKeepsInv(PushGenesis(genesis).state, steps[..n]);
    PushedBy(u, steps[n]);
    PushedOnTop(u, steps[n].block, steps[n].height);
    LinksAreAsStored(genesis, steps, steps[n].block.header.hash);
    InRangeIsStored(Run(PushGenesis(genesis).state, steps).blocks, steps[n].block.header.hash);
  }

  lemma AllAreFirst(genesis: FullBlock, steps: seq<Step>, k: nat)
    requires GenesisOwed(genesis) && LegalRun(PushGenesis(genesis).state, steps)
    requires k < |steps| && steps[k].UpdateStep?
    requires BranchFilling.Distinct(steps[k].block.txs)
    requires forall tx :: tx in steps[k].block.txs ==> tx.hash !in Run(PushGenesis(genesis).state, steps[..k]).table
    ensures AreFirst(genesis, steps, steps[k].block.txs)
  {
    hide PushGenesis;
    hide GenesisOwed;
    hide LegalRun;
    hide Run;
    hide FirstOf;
    hide AllGifts;
    var txs := steps[k].block.txs;
    forall j | 0 <= j < |txs| ensures FirstOf(AllGifts(genesis, steps), txs[j].hash) == Some(Gift(txs[j], UNVERIFIED)) {
      assert txs[j] in txs;
      NewTransactionsAreFirst(genesis, steps, k, j);
    }
  }

  ghost predicate AreFirst(genesis: FullBlock, steps: seq<Step>, txs: seq<Transaction>) {
    forall j :: 0 <= j < |txs| ==> FirstOf(AllGifts(genesis, steps), txs[j].hash) == Some(Gift(txs[j], UNVERIFIED))
  }

  lemma TopComesBack(genesis: FullBlock, steps: seq<Step>, block: FullBlock, height: nat)
    requires GenesisOwed(genesis) && LegalRun(PushGenesis(genesis).state, steps) && 0 < height
    requires var b := Run(PushGenesis(genesis).state, steps).blocks;
             && |b.confirmed| == height + 1
             && b.confirmed[height - 1] == block.header.previous && b.confirmed[height] == block.header.hash
    requires ListOf(genesis, steps, block.header.hash) == block.TxLinks() && AreFirst(genesis, steps, block.txs)
    ensures PopAbove(Run(PushGenesis(genesis).state, steps), height - 1).outgoing == [block.(time := NO_TIME)]
  {
    hide PushGenesis;
    hide GenesisOwed;
    hide LegalRun;
    hide Run;
    hide PopAbove;
    hide AreFirst;
    hide ListOf;
    hide Reorganize;
    hide IsAsStored;
    PoppedAreAsStored(genesis, steps, height - 1);
    var outgoing := PopAbove(Run(PushGenesis(genesis).state, steps), height - 1).outgoing;
    ComesBackEqual(genesis, steps, block, outgoing[0]);
    assert outgoing == [outgoing[0]];
  }

  lemma PushedBy(u: State, step: Step)
    requires step.PushBlockStep? && Owed(u, step)
    ensures PushBlockOwed(u, step.block, step.height) && Next(u, step) == PushBlock(u, step.block, step.height)
  {
  }

  lemma ComesBackEqual(genesis: FullBlock, steps: seq<Step>, block: FullBlock, back: FullBlock)
    requires IsAsStored(genesis, steps, block.header.previous, block.header.hash, back)
    requires ListOf(genesis, steps, block.header.hash) == block.TxLinks()
    requires AreFirst(genesis, steps, block.txs)
    ensures back == block.(time := NO_TIME)
  {
    hide FirstOf;
    hide AllGifts;
    hide ListOf;
    forall j | 0 <= j < |block.txs| ensures back.txs[j] == block.txs[j] {
      assert block.TxLinks()[j] == block.txs[j].hash;
    }
    assert back.txs == block.txs;
  }
}
