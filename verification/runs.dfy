/** Every run of the database from genesis. */
module Runs {
  import opened Types
  import opened Record
  import opened BlockState
  import opened BlockTable
  import opened TransactionTable
  import opened Ledger
  import opened Agreement
  import opened CandidateSpends
  import opened ChainState
  import opened Invariants
  import opened Steps
  import opened Queries

  datatype Step =
    | StoreStep(tx: Transaction, forks: nat)
    | UpdateStep(block: FullBlock, height: nat)
    | InvalidateStep(hash: Hash, error: nat)
    | CandidateStep(block: FullBlock)
    | PushHeaderStep(header: Header, known: bool, height: nat, time: nat)
    | PopHeaderStep(height: nat)
    | PushBlockStep(block: FullBlock, height: nat)
    | PopBlockStep(height: nat)
    | ConfirmStep(hash: Hash, height: nat)

  function Next(s: State, step: Step): Done {
    match step
    case StoreStep(tx, forks) => StoreTransaction(s, tx, forks)
    case UpdateStep(block, height) => Update(s, block)
    case InvalidateStep(hash, error) => Invalidate(s, hash, error)
    case CandidateStep(block) => CandidateBlock(s, block)
    case PushHeaderStep(header, known, height, time) => PushHeader(s, header, known, height, time)
    case PopHeaderStep(height) => PopHeader(s, height)
    case PushBlockStep(block, height) => PushBlock(s, block, height)
    case PopBlockStep(height) => PopBlock(s, height)
    case ConfirmStep(hash, height) => ConfirmHash(s, hash, height)
  }

  /** What the caller of an operation owes. Popping a block owes only that it is the top one above genesis. */
  ghost predicate Owed(s: State, step: Step) {
    match step
    case StoreStep(tx, forks) => true
    case UpdateStep(block, height) => UpdateOwed(s, block, height)
    case InvalidateStep(hash, error) => InvalidateOwed(s, hash, error)
    case CandidateStep(block) => CandidateOwed(s, block)
    case PushHeaderStep(header, known, height, time) => PushHeaderOwed(s, header, known, height)
    case PopHeaderStep(height) => PopHeaderOwed(s) && height + 1 == |s.blocks.candidate|
    case PushBlockStep(block, height) => PushBlockOwed(s, block, height)
    case PopBlockStep(height) => 1 <= height && height + 1 == |s.blocks.confirmed|
    case ConfirmStep(hash, height) =>
      s.blocks.LinksInRange(hash) && ConfirmOwed(s, hash, s.blocks.LinksOf(hash), height, s.blocks.rows[hash].time)
  }

  ghost predicate PushBlockOwed(s: State, block: FullBlock, height: nat) {
    && VerifyPushBlock(s, block, height)
    && ConfirmOwed(s, block.header.hash, block.TxLinks(), height, block.time)
  }

  /** Every operation keeps the invariants whenever it succeeds; only marking and unmarking a candidate
      block can fail, and they do exactly when an output it spends is not stored. */
  lemma StepKeepsInv(s: State, step: Step)
    requires Inv(s) && Owed(s, step)
    ensures Next(s, step).ok ==> Inv(Next(s, step).state)
    ensures step.CandidateStep? ==> (Next(s, step).ok <==> LinksReady(s.table, step.block.TxLinks()))
    ensures step.PopHeaderStep? ==>
              (Next(s, step).ok <==> LinksReady(s.table, s.blocks.LinksOf(s.blocks.candidate[step.height])))
    ensures !step.CandidateStep? && !step.PopHeaderStep? ==> Next(s, step).ok
  {
    hide Inv;
    hide LinksReady;
    hide UpdateOwed;
    hide InvalidateOwed;
    hide CandidateOwed;
    hide PushHeaderOwed;
    hide ConfirmOwed;
    match step
    case StoreStep(tx, forks) => StoreTransactionKeepsInv(s, tx, forks);
    case UpdateStep(block, height) => UpdateKeepsInv(s, block, height);
    case InvalidateStep(hash, error) => InvalidateKeepsInv(s, hash, error);
    case CandidateStep(block) => CandidateKeepsInv(s, block);
    case PushHeaderStep(header, known, height, time) => PushHeaderKeepsInv(s, header, known, height, time);
    case PopHeaderStep(height) => PopHeaderKeepsInv(s);
    case PushBlockStep(block, height) => ConfirmKeepsInv(s, block.header.hash, block.TxLinks(), height, block.time);
    case PopBlockStep(height) => PopBlockKeepsInv(s);
    case ConfirmStep(hash, height) =>
      ConfirmKeepsInv(s, hash, s.blocks.LinksOf(hash), height, s.blocks.rows[hash].time);
  }

  // ---------------------------------------------------------------- genesis

  ghost predicate GenesisOwed(block: FullBlock) {
    && |block.txs| == 1
    && block.header.hash != NULL_HASH && block.header.previous == NULL_HASH
    && block.time <= MAX_UINT32
    && RealPoints(seq(|block.txs[0].inputs|, i requires 0 <= i < |block.txs[0].inputs| =>
                    block.txs[0].inputs[i].point)) == {}
  }

  /** The state word of the genesis block after it was stored, candidated, validated and confirmed. */
  function GenesisState(): StateWord {
    UpdateConfirmation(UpdateValidation(UpdateConfirmation(CANDIDATE, true, true), true), true, false)
  }

  lemma GenesisWord()
    ensures var word := GenesisState();
            word == VALID | CONFIRMED && Legal(word) && word < 16
            && IsConfirmed(word) && IsValid(word) && !IsCandidate(word)
  {
  }

  lemma GenesisBlocks(block: FullBlock)
    requires GenesisOwed(block)
    ensures var b := PushGenesis(block).state.blocks;
            PushGenesis(block).ok ==>
              && Indexed(b) && b.confirmed == [block.header.hash] && b.candidate == [block.header.hash]
              && b.LinksInRange(block.header.hash) && b.LinksOf(block.header.hash) == block.TxLinks()
  {
    hide PushGenesis;
    hide Indexed;
    GenesisIndexes(block);
    OneBlockIsIndexed(block.header, block.time, block.TxLinks());
  }

  lemma OneBlockIsIndexed(header: Header, time: nat, links: seq<Hash>)
    requires header.hash != NULL_HASH && header.previous == NULL_HASH && |links| == 1
    ensures var word := GenesisState();
            var b := Blocks(map[header.hash := BlockRow(header.previous, time, 0, word, 0, 0, 1)],
                            [header.hash], [header.hash], links);
            Indexed(b) && b.LinksInRange(header.hash) && b.LinksOf(header.hash) == links
  {
    GenesisWord();
  }

  /** The block database once the genesis block is pushed. */
  lemma GenesisIndexes(block: FullBlock)
    requires GenesisOwed(block)
    ensures var word := GenesisState();
            var hash := block.header.hash;
            PushGenesis(block).ok ==>
              PushGenesis(block).state.blocks ==
              Blocks(map[hash := BlockRow(block.header.previous, block.time, 0, word, 0, 0, 1)],
                     [hash], [hash], block.TxLinks())
  {
    hide UpdateConfirmation;
    hide UpdateValidation;
    hide TransactionTable.ConfirmBlock;
    hide Each;
    hide LedgerBlock;
  }

  lemma GenesisTransactions(block: FullBlock)
    requires GenesisOwed(block)
    ensures var t := Each(map[], block.txs, Storing()).table;
            var b := LedgerBlock(t, block.TxLinks(), block.time);
            && LinksStored(t, block.TxLinks()) && ValidNext([], b)
            && Agrees(t, EMPTY) && SameMarks(map[], t)
  {
    hide Each;
    var t := Each(map[], block.txs, Storing()).table;
    StoreAllKeeps(map[], block.txs);
    assert Agrees(map[], EMPTY);
    var tx := block.txs[0];
    assert tx in block.txs;
    assert block.txs[..0] == [];
    GenesisRow(block);
    var b := LedgerBlock(t, block.TxLinks(), block.time);
    SingleIsValid(b);
  }

  lemma SingleIsValid(b: Block)
    requires |b.txs| == 1 && b.time <= MAX_UINT32 && Spends(b.txs[0]) == {}
    ensures ValidNext([], b)
  {
    assert b.txs[..0] == [];
    assert SpendsUnspent({}, []);
    assert SpendsUnspent({}, b.txs);
  }

  lemma GenesisRow(block: FullBlock)
    requires GenesisOwed(block)
    ensures var t := Each(map[], block.txs, Storing()).table;
            var tx := block.txs[0];
            tx.hash in t && Spends(TxOf(t, tx.hash)) == {}
  {
    var tx := block.txs[0];
    assert block.txs[..0] == [];
    var t := Each(map[], block.txs, Storing()).table;
    assert Each(map[], [], Storing()) == Outcome(true, map[]);
    assert t == Storize(map[], tx, UNVERIFIED, NO_TIME, UNCONFIRMED).table;
    assert t[tx.hash].Points() ==
           seq(|tx.inputs|, i requires 0 <= i < |tx.inputs| => tx.inputs[i].point);
  }

  /** Creating the database with the genesis block establishes the invariants. */
  lemma GenesisEstablishesInv(block: FullBlock)
    requires GenesisOwed(block)
    ensures PushGenesis(block).ok && Inv(PushGenesis(block).state)
  {
    hide Agrees;
    hide ValidNext;
    hide Unmoved;
    hide SameMarks;
    hide Each;
    hide Indexed;
    hide Stored;
    hide UpdateConfirmation;
    hide UpdateValidation;
    var s := PushGenesis(block).state;
    var t := Each(map[], block.txs, Storing()).table;
    var b := LedgerBlock(t, block.TxLinks(), block.time);
    GenesisTransactions(block);
    LedgerBlockStored(t, block.TxLinks(), block.time);
    ConfirmBlockAgrees(t, [], b);
    assert [] + [b] == [b];
    ValidAppend([], b);
    GenesisBlocks(block);
    AllStoredUnmoved(t, s.table, b.txs);
    assert TiedAt(s, 0);
    assert s.blocks.rows.Keys == {block.header.hash};
    assert LinksStored(s.table, block.TxLinks()) by {
      StoredLinksOf(s.table, b.txs);
    }
    NothingMarked(t, s);
  }

  lemma StoredLinksOf(t: Table, txs: seq<Tx>)
    requires AllStored(t, txs)
    ensures LinksStored(t, Links(txs))
  {
    forall i | 0 <= i < |txs| ensures Links(txs)[i] in t {
      assert txs[i] in txs && Stored(t, txs[i]);
    }
  }

  lemma NothingMarked(t: Table, s: State)
    requires SameMarks(map[], t) && Unmoved(t, s.table) && s.marked == {}
    ensures Marks(s)
  {
    forall h, i | h in s.table && 0 <= i < |s.table[h].outputs|
      ensures !s.table[h].outputs[i].candidateSpent && !MarkedSpends(s, Point(h, i))
    {
      assert RowUnmoved(t[h], s.table[h]);
    }
  }

  // ---------------------------------------------------------------- all runs

  function Run(s: State, steps: seq<Step>): State {
    if steps == [] then s else Next(Run(s, steps[..|steps| - 1]), steps[|steps| - 1]).state
  }

  /** Each operation of the run succeeded, and its caller did what it owes. */
  ghost predicate LegalRun(s: State, steps: seq<Step>) {
    steps == [] ||
    (var n := |steps| - 1;
     var u := Run(s, steps[..n]);
     LegalRun(s, steps[..n]) && Owed(u, steps[n]) && Next(u, steps[n]).ok)
  }

  ghost predicate Reachable(s: State) {
    exists block, steps ::
      GenesisOwed(block) && LegalRun(PushGenesis(block).state, steps) && s == Run(PushGenesis(block).state, steps)
  }

  lemma {:induction false} RunKeepsInv(s: State, steps: seq<Step>)
    requires Inv(s) && LegalRun(s, steps)
    ensures Inv(Run(s, steps))
    decreases |steps|
  {
    if steps != [] {
      var n := |steps| - 1;
      RunKeepsInv(s, steps[..n]);
      StepKeepsInv(Run(s, steps[..n]), steps[n]);
    }
  }

  /** The invariants hold in every reachable state. */
  lemma ReachableInv(s: State)
    requires Reachable(s)
    ensures Inv(s)
  {
    var block, steps :|
      GenesisOwed(block) && LegalRun(PushGenesis(block).state, steps) && s == Run(PushGenesis(block).state, steps);
    GenesisEstablishesInv(block);
    RunKeepsInv(PushGenesis(block).state, steps);
  }

  /** A successful operation leads from one reachable state to another. */
  lemma ReachableStep(s: State, step: Step)
    requires Reachable(s) && Owed(s, step) && Next(s, step).ok
    ensures Reachable(Next(s, step).state)
  {
    hide Owed;
    hide Next;
    hide GenesisOwed;
    var block, steps :|
      GenesisOwed(block) && LegalRun(PushGenesis(block).state, steps) && s == Run(PushGenesis(block).state, steps);
    var more := steps + [step];
    assert more[..|more| - 1] == steps;
    assert LegalRun(PushGenesis(block).state, more);
  }

  /** In every reachable state, each index is a hash-linked chain from genesis in which every block is stored
      at the height of its position, and no block appears twice. */
  lemma IndexesAreLinkedChains(s: State, candidate: bool, k: nat)
    requires Reachable(s) && k < |s.blocks.Index(candidate)|
    ensures var index := s.blocks.Index(candidate);
            && index[k] in s.blocks.rows && s.blocks.rows[index[k]].height == k
            && s.blocks.rows[index[k]].previous == PreviousBlock(index, k)
            && forall j :: 0 <= j < |index| && index[j] == index[k] ==> j == k
  {
    hide Marks;
    hide Tied;
    hide Confirmations;
    hide Words;
    ReachableInv(s);
    var index := s.blocks.Index(candidate);
    assert Linked(s.blocks, index);
    forall j | 0 <= j < |index| && index[j] == index[k] ensures j == k {
      IndexHasNoRepeats(s.blocks, index, j, k);
    }
  }

  /** In every reachable state, where the indexes hold the same block they agree at every lower height. */
  lemma IndexesShareAPrefix(s: State, i: nat, j: nat, k: nat)
    requires Reachable(s) && i < |s.blocks.candidate| && j < |s.blocks.confirmed|
    requires s.blocks.candidate[i] == s.blocks.confirmed[j] && k <= i
    ensures i == j && s.blocks.candidate[k] == s.blocks.confirmed[k]
  {
    hide Linked;
    ReachableInv(s);
    IndexesAgreeBelow(s.blocks, s.blocks.candidate, s.blocks.confirmed, i, j, k);
  }

  /** In every reachable state every state word is legal, its confirmation bits tell the truth, and the blocks
      on the confirmed index are valid. */
  lemma StateWordsAreLegal(s: State, x: Hash)
    requires Reachable(s) && x in s.blocks.rows
    ensures var word := s.blocks.rows[x].state;
            && !(IsFailed(word) && IsValid(word)) && !(IsCandidate(word) && IsConfirmed(word))
            && (IsConfirmed(word) ==> IsValid(word))
            && (IsCandidate(word) ==> x in s.blocks.candidate)
            && (IsConfirmed(word) ==> x in s.blocks.confirmed)
            && (x in s.blocks.confirmed ==> IsValid(word))
  {
    hide Marks;
    hide Tied;
    hide Confirmations;
    hide Tree;
    hide Linked;
    ReachableInv(s);
  }

  /** In every reachable state an output is marked spent by a candidate exactly when a candidated block that is
      still on the candidate index spends it. */
  lemma CandidateSpentIsOnTheIndex(s: State, h: Hash, i: nat)
    requires Reachable(s) && h in s.table && i < |s.table[h].outputs|
    ensures s.table[h].outputs[i].candidateSpent <==>
            exists x :: x in s.marked && x in s.blocks.candidate && s.blocks.LinksInRange(x)
                        && Point(h, i) in BlockPoints(s.table, s.blocks.LinksOf(x))
  {
    hide Indexed;
    hide Tied;
    hide Confirmations;
    hide BlockPoints;
    hide LinksReady;
    ReachableInv(s);
    assert forall x :: x in s.marked ==> MarkedBlock(s, x);
  }

  /** In every reachable state a stored transaction has a real height and position exactly when it sits
      there in a confirmed block. */
  lemma LocationIsOnTheIndex(s: State, h: Hash, height: nat, position: nat)
    requires Reachable(s) && h in s.table
    ensures s.table[h].HasPosition() && s.table[h].height == height && s.table[h].position == position
            <==> && height < |s.blocks.confirmed|
                 && s.blocks.LinksInRange(s.blocks.confirmed[height])
                 && var links := s.blocks.LinksOf(s.blocks.confirmed[height]);
                    position < |links| && links[position] == h
  {
    ReachableInv(s);
    LocatedWhereItSits(s.chain, h, height, position);
    assert RowAgrees(h, s.table[h], Summarize(s.chain));
    if height < |s.chain| {
      assert TiedAt(s, height);
    }
  }

  /** In every reachable state an output's spender height is the height of the confirmed block that
      spends it, and the not-spent sentinel when none does. */
  lemma SpenderIsOnTheIndex(s: State, h: Hash, i: nat, height: nat)
    requires Reachable(s) && h in s.table && i < |s.table[h].outputs| && height != NOT_SPENT
    ensures s.table[h].outputs[i].spender == height <==>
            && height < |s.blocks.confirmed|
            && s.blocks.LinksInRange(s.blocks.confirmed[height])
            && Point(h, i) in BlockPoints(s.table, s.blocks.LinksOf(s.blocks.confirmed[height]))
    ensures s.table[h].outputs[i].spender == NOT_SPENT || s.table[h].outputs[i].spender < |s.blocks.confirmed|
  {
    ReachableInv(s);
    SpentWhereItIsSpent(s.chain, Point(h, i), height);
    assert RowAgrees(h, s.table[h], Summarize(s.chain));
    assert s.table[h].outputs[i].spender == SpenderOf(Summarize(s.chain), Point(h, i));
    if height < |s.chain| {
      assert TiedAt(s, height);
      BlockPointsAreSpends(s.table, s.chain[height].txs);
    }
    UtxoIsLive(s.chain);
  }

  lemma BlockPointsAreSpends(t: Table, txs: seq<Tx>)
    requires AllStored(t, txs)
    ensures BlockPoints(t, Links(txs)) == AllSpends(txs)
  {
    forall tx | tx in txs
      ensures tx.hash in Links(txs) && Stored(t, tx) && RealPoints(t[tx.hash].Points()) == Spends(tx)
    {
      var k :| 0 <= k < |txs| && txs[k] == tx;
      assert Links(txs)[k] == tx.hash;
    }
    forall link | link in Links(txs) ensures exists tx :: tx in txs && tx.hash == link {
      var k :| 0 <= k < |txs| && Links(txs)[k] == link;
      assert txs[k] in txs;
    }
  }

  /** In every reachable state, for every fork height, the previous-output query finds exactly the outputs
      that are unspent after the confirmed blocks up to the fork. */
  lemma QueryFindsUtxoOfTheIndex(s: State, p: Point, f: nat)
    requires Reachable(s) && AllWellFormed(s.table)
    ensures FoundUnspent(GetOutput(s.table, p, f)) <==> p in Utxo(UpTo(s.chain, f))
    ensures |s.chain| == |s.blocks.confirmed|
    ensures forall k :: 0 <= k < |s.chain| ==> TiedAt(s, k)
  {
    ReachableInv(s);
    GetOutputFindsUtxo(s.table, s.chain, p, f);
  }
}
