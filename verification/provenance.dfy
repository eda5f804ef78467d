/** Over every run, a stored transaction is the one first handed in under its hash, and what its metadata say
    before it is ever confirmed. */
module Provenance {
  import opened Types
  import opened Record
  import opened BlockState
  import opened BlockTable
  import opened TransactionTable
  import opened Ledger
  import opened Agreement
  import opened CandidateSpends
  import opened ChainState
  import opened Invariants
  import opened Steps
  import opened Runs
  import opened CandidateFlags
  import Rows = ReorganizationRows

  // ---------------------------------------------------------------- what is handed in

  /** A transaction handed in to be stored, with the forks it was verified under. */
  datatype Gift = Gift(tx: Transaction, forks: nat)

  function BlockGifts(txs: seq<Transaction>): (r: seq<Gift>)
    ensures |r| == |txs|
  {
    seq(|txs|, i requires 0 <= i < |txs| => Gift(txs[i], UNVERIFIED))
  }

  function Gifts(step: Step): seq<Gift> {
    match step
    case StoreStep(tx, forks) => [Gift(tx, forks)]
    case UpdateStep(block, height) => BlockGifts(block.txs)
    case _ => []
  }

  /** Everything that a run hands in, in order. */
  function AllGifts(genesis: FullBlock, steps: seq<Step>): seq<Gift>
    decreases |steps|
  {
    if steps == [] then BlockGifts(genesis.txs)
    else AllGifts(genesis, steps[..|steps| - 1]) + Gifts(steps[|steps| - 1])
  }

  /** The first of these under a hash. */
  function FirstOf(gifts: seq<Gift>, h: Hash): (r: Option<Gift>)
    ensures r.None? <==> forall g :: g in gifts ==> g.tx.hash != h
    ensures r.Some? ==> r.value in gifts && r.value.tx.hash == h
  {
    if gifts == [] then None
    else if gifts[0].tx.hash == h then Some(gifts[0])
    else FirstOf(gifts[1..], h)
  }

  lemma {:induction false} FirstOfBoth(a: seq<Gift>, b: seq<Gift>, h: Hash)
    ensures FirstOf(a + b, h) == if FirstOf(a, h).Some? then FirstOf(a, h) else FirstOf(b, h)
  {
    if a == [] {
      assert a + b == b;
    } else {
      assert (a + b)[1..] == a[1..] + b && (a + b)[0] == a[0];
      FirstOfBoth(a[1..], b, h);
    }
  }

  // ---------------------------------------------------------------- rows carry what was handed in first

  /** The row carries the transaction; until it is confirmed its height holds the forks, and once it is deconfirmed
      the unverified sentinel. */
  ghost predicate Keeps(row: Row, g: Gift) {
    && Carries(row, g.tx)
    && (!row.HasPosition() ==>
          row.height == (if row.position == UNCONFIRMED then g.forks else UNVERIFIED) && row.time == NO_TIME)
  }

  /** The table holds exactly the transactions handed in, each as it was first. */
  ghost predicate HoldsFirst(t: Table, gifts: seq<Gift>) {
    && (forall h :: h in t <==> FirstOf(gifts, h).Some?)
    && forall h :: h in t ==> Keeps(t[h], FirstOf(gifts, h).value)
  }

  lemma StorizeHoldsFirst(t: Table, gifts: seq<Gift>, tx: Transaction, forks: nat)
    requires HoldsFirst(t, gifts)
    ensures HoldsFirst(Storize(t, tx, forks, NO_TIME, UNCONFIRMED).table, gifts + [Gift(tx, forks)])
  {
    hide Carries;
    hide NewRow;
    hide FirstOf;
    NewRowCarries(tx, forks, NO_TIME, UNCONFIRMED);
    FirstOfOne(Gift(tx, forks));
    forall h ensures FirstOf(gifts + [Gift(tx, forks)], h)
                     == if FirstOf(gifts, h).Some? then FirstOf(gifts, h) else FirstOf([Gift(tx, forks)], h)
    {
      FirstOfBoth(gifts, [Gift(tx, forks)], h);
    }
  }

  lemma FirstOfOne(g: Gift)
    ensures forall h :: FirstOf([g], h) == if g.tx.hash == h then Some(g) else None
  {
  }

  lemma {:induction false} StoringHoldsFirst(t: Table, gifts: seq<Gift>, txs: seq<Transaction>)
    requires HoldsFirst(t, gifts)
    ensures HoldsFirst(Each(t, txs, Storing()).table, gifts + BlockGifts(txs))
    decreases |txs|
  {
    hide HoldsFirst;
    hide Storize;
    if txs == [] {
      assert gifts + BlockGifts(txs) == gifts;
    } else {
      var n := |txs| - 1;
      StoringHoldsFirst(t, gifts, txs[..n]);
      StoringSucceeds(t, txs[..n]);
      StorizeHoldsFirst(Each(t, txs[..n], Storing()).table, gifts + BlockGifts(txs[..n]), txs[n], UNVERIFIED);
      assert gifts + BlockGifts(txs) == gifts + BlockGifts(txs[..n]) + [Gift(txs[n], UNVERIFIED)];
    }
  }

  lemma {:induction false} StoringSucceeds(t: Table, txs: seq<Transaction>)
    ensures Each(t, txs, Storing()).ok
    decreases |txs|
  {
    if txs != [] {
      StoringSucceeds(t, txs[..|txs| - 1]);
    }
  }

  // ---------------------------------------------------------------- what moves the metadata

  /** The operations that place the transactions of a block. */
  predicate Confirms(step: Step) {
    step.PushBlockStep? || step.ConfirmStep?
  }

  predicate Places(step: Step) {
    Confirms(step) || step.PopBlockStep?
  }

  /** Rows stay, and these transactions apart keep height, position and time. */
  ghost predicate MetadataKept(t: Table, u: Table, moved: set<Hash>) {
    && t.Keys <= u.Keys
    && forall h :: h in t && h !in moved ==>
         u[h].height == t[h].height && u[h].position == t[h].position && u[h].time == t[h].time
  }

  lemma TouchedKeepsMetadata(t: Table, u: Table, moved: set<Hash>)
    requires Rows.Touched(t, u, moved)
    ensures MetadataKept(t, u, moved)
  {
  }

  lemma MarkedKeepsMetadata(t: Table, u: Table, ps: set<Point>, flagged: set<Hash>, positive: bool)
    requires MarkedAs(t, u, ps, flagged, positive)
    ensures MetadataKept(t, u, {})
  {
    forall h | h in t ensures RowMarkedAs(h, t[h], u[h], ps, flagged, positive) {
    }
  }

  lemma {:induction false} StoringKeepsRows(t: Table, txs: seq<Transaction>)
    ensures var u := Each(t, txs, Storing()).table;
            t.Keys <= u.Keys && forall h :: h in t ==> u[h] == t[h]
    decreases |txs|
  {
    if txs != [] {
      StoringKeepsRows(t, txs[..|txs| - 1]);
    }
  }

  /** Only confirming and deconfirming change height, position and time, of the transactions they move. */
  lemma StepKeepsMetadata(s: State, step: Step)
    requires Next(s, step).ok
    ensures MetadataKept(s.table, Next(s, step).state.table, if Places(step) then Moves(s, step) else {})
  {
    hide MetadataKept;
    hide Rows.Touched;
    hide Each;
    hide TransactionTable.ConfirmBlock;
    hide UnconfirmBlock;
    hide MarkedAs;
    hide LinksReady;
    hide BlockPoints;
    hide LinkSet;
    hide Storize;
    var t, u := s.table, Next(s, step).state.table;
    match step
    case StoreStep(tx, forks) => StorizeKeepsMetadata(t, tx, forks);
    case UpdateStep(block, height) => StoringKeepsMetadata(t, block.txs);
    case InvalidateStep(hash, error) => NoMetadataMoved(t);
    case CandidateStep(block) =>
      MarkBlock(t, block.TxLinks(), true);
      MarkedKeepsMetadata(t, u, BlockPoints(t, block.TxLinks()), LinkSet(block.TxLinks()), true);
    case PushHeaderStep(header, known, height, time) => NoMetadataMoved(t);
    case PopHeaderStep(height) =>
      var links := s.blocks.LinksOf(s.blocks.candidate[height]);
      MarkBlock(t, links, false);
      MarkedKeepsMetadata(t, u, BlockPoints(t, links), LinkSet(links), false);
    case PushBlockStep(block, height) =>
      Rows.ConfirmBlockTouches(t, block.TxLinks(), height, block.time);
      TouchedKeepsMetadata(t, u, LinkSet(block.TxLinks()));
    case PopBlockStep(height) =>
      var links := s.blocks.LinksOf(s.blocks.confirmed[height]);
      UnconfirmBlockTouches(t, links);
      TouchedKeepsMetadata(t, u, LinkSet(links));
    case ConfirmStep(hash, height) =>
      var links := s.blocks.LinksOf(hash);
      Rows.ConfirmBlockTouches(t, links, height, s.blocks.rows[hash].time);
      TouchedKeepsMetadata(t, u, LinkSet(links));
  }

  lemma NoMetadataMoved(t: Table)
    ensures MetadataKept(t, t, {})
  {
  }

  lemma StorizeKeepsMetadata(t: Table, tx: Transaction, forks: nat)
    ensures MetadataKept(t, Storize(t, tx, forks, NO_TIME, UNCONFIRMED).table, {})
  {
  }

  lemma StoringKeepsMetadata(t: Table, txs: seq<Transaction>)
    ensures MetadataKept(t, Each(t, txs, Storing()).table, {})
  {
    hide Each;
    StoringKeepsRows(t, txs);
  }

  // ---------------------------------------------------------------- transactions stay as they were stored

  /** Operations that hand nothing in keep the keys and the constant part of every row. */
  lemma StepKeepsTransactions(s: State, step: Step)
    requires Inv(s) && Owed(s, step) && Next(s, step).ok && !step.StoreStep? && !step.UpdateStep?
    ensures var u := Next(s, step).state.table; u.Keys == s.table.Keys && SameTransactions(s.table, u)
  {
    hide Inv;
    hide SameTransactions;
    hide Each;
    hide TransactionTable.ConfirmBlock;
    hide UnconfirmBlock;
    hide MarkedAs;
    hide LinksReady;
    hide BlockPoints;
    hide LinkSet;
    hide Unmoved;
    hide Deconfirmed;
    hide LedgerBlock;
    hide ConfirmOwed;
    hide UpdateConfirmation;
    var t, u := s.table, Next(s, step).state.table;
    match step
    case InvalidateStep(hash, error) => SameTransactionsReflexive(t);
    case CandidateStep(block) =>
      var links := block.TxLinks();
      MarkBlock(t, links, true);
      MarkedKeeps(t, u, BlockPoints(t, links), LinkSet(links), true);
      MarkedKeys(t, u, BlockPoints(t, links), LinkSet(links), true);
    case PushHeaderStep(header, known, height, time) => SameTransactionsReflexive(t);
    case PopHeaderStep(height) =>
      var links := s.blocks.LinksOf(s.blocks.candidate[height]);
      MarkBlock(t, links, false);
      MarkedKeeps(t, u, BlockPoints(t, links), LinkSet(links), false);
      MarkedKeys(t, u, BlockPoints(t, links), LinkSet(links), false);
    case PushBlockStep(block, height) =>
      ConfirmKeepsInv(s, block.header.hash, block.TxLinks(), height, block.time);
      UnmovedKeepsTransactions(t, u);
    case PopBlockStep(height) =>
      PopBlockKeepsInv(s);
      UnmovedKeepsTransactions(t, u);
    case ConfirmStep(hash, height) =>
      ConfirmKeepsInv(s, hash, s.blocks.LinksOf(hash), height, s.blocks.rows[hash].time);
      UnmovedKeepsTransactions(t, u);
    case _ =>
  }

  lemma SameTransactionsReflexive(t: Table)
    ensures SameTransactions(t, t)
  {
  }

  lemma UnmovedKeepsTransactions(t: Table, u: Table)
    requires Unmoved(t, u)
    ensures u.Keys == t.Keys && SameTransactions(t, u)
  {
    forall h | h in t ensures SameTransaction(t[h], u[h]) {
      assert RowUnmoved(t[h], u[h]);
    }
  }

  // ---------------------------------------------------------------- which positions are real

  /** The transactions of a block on the confirmed index have real positions. */
  lemma ConfirmedHavePositions(s: State, k: nat, h: Hash)
    requires Inv(s) && k < |s.blocks.confirmed| && s.blocks.LinksInRange(s.blocks.confirmed[k])
    requires h in s.blocks.LinksOf(s.blocks.confirmed[k])
    ensures h in s.table && s.table[h].HasPosition()
  {
    hide Indexed;
    hide Marks;
    hide Populated;
    hide ValidChain;
    hide Summarize;
    assert TiedAt(s, k);
    var txs := s.chain[k].txs;
    var j :| 0 <= j < |txs| && Links(txs)[j] == h;
    assert txs[j] in txs && s.chain[k] in s.chain;
    LocatedAreChainHashes(s.chain);
    assert h in ChainHashes(s.chain);
    assert RowAgrees(h, s.table[h], Summarize(s.chain));
  }

  /** What a block operation leaves of the positions that it moves. */
  lemma MovedPositions(s: State, step: Step, h: Hash)
    requires Inv(s) && Owed(s, step) && Next(s, step).ok && Places(step) && h in Moves(s, step)
    ensures var u := Next(s, step).state;
            && h in s.table && h in u.table
            && (Confirms(step) ==> u.table[h].HasPosition())
            && (!Confirms(step) ==> s.table[h].HasPosition() && u.table[h].position == DECONFIRMED
                                    && u.table[h].height == UNVERIFIED && u.table[h].time == NO_TIME)
  {
    hide Inv;
    hide LedgerBlock;
    hide Unmoved;
    hide Deconfirmed;
    hide ConfirmLinks;
    hide PopBlock;
    hide ValidNext;
    var u := Next(s, step).state;
    match step
    case PushBlockStep(block, height) => ConfirmedMoves(s, block.header.hash, block.TxLinks(), height, block.time, h);
    case ConfirmStep(hash, height) =>
      ConfirmedMoves(s, hash, s.blocks.LinksOf(hash), height, s.blocks.rows[hash].time, h);
    case PopBlockStep(height) => PoppedMoves(s, height, h);
    case _ =>
  }

  lemma ConfirmedMoves(s: State, hash: Hash, links: seq<Hash>, height: nat, time: nat, h: Hash)
    requires Inv(s) && ConfirmOwed(s, hash, links, height, time) && h in links
    ensures var u := ConfirmLinks(s, hash, links, height, time).state;
            h in s.table && h in u.table && u.table[h].HasPosition()
  {
    hide Inv;
    hide LedgerBlock;
    hide Unmoved;
    hide ValidNext;
    hide IsValid;
    hide UpdateConfirmation;
    hide TransactionTable.ConfirmBlock;
    ConfirmKeepsInv(s, hash, links, height, time);
    var u := ConfirmLinks(s, hash, links, height, time).state;
    ConfirmPromotes(s, hash, links, height, time);
    assert u.blocks.LinksInRange(hash) && u.blocks.LinksOf(hash) == links;
    ConfirmedHavePositions(u, height, h);
  }

  lemma PoppedMoves(s: State, height: nat, h: Hash)
    requires Inv(s) && 1 <= height && height + 1 == |s.blocks.confirmed|
    requires h in LinksAt(s.blocks, s.blocks.confirmed, height)
    ensures var u := PopBlock(s, height).state;
            && h in s.table && h in u.table && s.table[h].HasPosition()
            && u.table[h].position == DECONFIRMED && u.table[h].height == UNVERIFIED && u.table[h].time == NO_TIME
  {
    hide Inv;
    hide PopBlock;
    hide Unmoved;
    hide Hashes;
    PopBlockKeepsInv(s);
    ConfirmedHavePositions(s, height, h);
    LinksAreHashes(s, height, h);
  }

  lemma LinksAreHashes(s: State, k: nat, h: Hash)
    requires Inv(s) && k < |s.blocks.confirmed| && h in LinksAt(s.blocks, s.blocks.confirmed, k)
    ensures |s.chain| == |s.blocks.confirmed| && h in Hashes(s.chain[k].txs)
  {
    hide Indexed;
    hide Marks;
    hide Populated;
    hide Confirmations;
    assert TiedAt(s, k);
    var txs := s.chain[k].txs;
    var j :| 0 <= j < |txs| && Links(txs)[j] == h;
    assert txs[j] in txs;
  }

  // ---------------------------------------------------------------- every run

  lemma StepHoldsFirst(s: State, step: Step, gifts: seq<Gift>)
    requires Inv(s) && Owed(s, step) && Next(s, step).ok && HoldsFirst(s.table, gifts)
    ensures HoldsFirst(Next(s, step).state.table, gifts + Gifts(step))
  {
    hide Inv;
    hide Owed;
    hide HoldsFirst;
    hide Storize;
    hide Each;
    match step
    case StoreStep(tx, forks) => StorizeHoldsFirst(s.table, gifts, tx, forks);
    case UpdateStep(block, height) => StoringHoldsFirst(s.table, gifts, block.txs);
    case _ =>
      assert gifts + Gifts(step) == gifts;
      KeptHoldsFirst(s, step, gifts);
  }

  lemma KeptHoldsFirst(s: State, step: Step, gifts: seq<Gift>)
    requires Inv(s) && Owed(s, step) && Next(s, step).ok && HoldsFirst(s.table, gifts)
    requires !step.StoreStep? && !step.UpdateStep?
    ensures HoldsFirst(Next(s, step).state.table, gifts)
  {
    hide Inv;
    hide Owed;
    hide Next;
    hide Moves;
    hide FirstOf;
    var t, u := s.table, Next(s, step).state.table;
    StepKeepsTransactions(s, step);
    StepKeepsMetadata(s, step);
    forall h | h in u ensures Keeps(u[h], FirstOf(gifts, h).value) {
      var g := FirstOf(gifts, h).value;
      assert Keeps(t[h], g) && SameTransaction(t[h], u[h]);
      if Places(step) && h in Moves(s, step) {
        MovedPositions(s, step, h);
      }
    }
  }

  /** Confirming genesis changes no transaction that it stored. */
  lemma GenesisUnmoved(genesis: FullBlock)
    requires GenesisOwed(genesis)
    ensures Unmoved(Each(map[], genesis.txs, Storing()).table, PushGenesis(genesis).state.table)
  {
    hide Each;
    hide Agrees;
    hide Unmoved;
    hide ValidNext;
    hide UpdateConfirmation;
    hide UpdateValidation;
    hide TransactionTable.ConfirmBlock;
    var t := Each(map[], genesis.txs, Storing()).table;
    var links := genesis.TxLinks();
    GenesisTransactions(genesis);
    LedgerBlockStored(t, links, genesis.time);
    ConfirmBlockAgrees(t, [], LedgerBlock(t, links, genesis.time));
    assert PushGenesis(genesis).state.table == TransactionTable.ConfirmBlock(t, links, 0, genesis.time).table;
  }

  lemma GenesisHoldsFirst(genesis: FullBlock)
    requires GenesisOwed(genesis)
    ensures HoldsFirst(PushGenesis(genesis).state.table, BlockGifts(genesis.txs))
  {
    hide Each;
    hide PushGenesis;
    hide GenesisOwed;
    hide Unmoved;
    hide FirstOf;
    hide Carries;
    hide BlockGifts;
    hide HoldsFirst;
    hide SameTransactions;
    var gifts := BlockGifts(genesis.txs);
    var t, u := Each(map[], genesis.txs, Storing()).table, PushGenesis(genesis).state.table;
    NothingHeld();
    assert [] + gifts == gifts;
    StoringHoldsFirst(map[], [], genesis.txs);
    GenesisUnmoved(genesis);
    UnmovedKeepsTransactions(t, u);
    forall h | h in u ensures u[h].HasPosition() {
      GenesisPosition(genesis, h);
    }
    PlacedHoldsFirst(t, u, gifts);
  }

  lemma PlacedHoldsFirst(t: Table, u: Table, gifts: seq<Gift>)
    requires HoldsFirst(t, gifts) && u.Keys == t.Keys && SameTransactions(t, u)
    requires forall h :: h in u ==> u[h].HasPosition()
    ensures HoldsFirst(u, gifts)
  {
    hide FirstOf;
    hide Carries;
    forall h | h in u ensures Keeps(u[h], FirstOf(gifts, h).value) {
      assert Keeps(t[h], FirstOf(gifts, h).value) && SameTransaction(t[h], u[h]);
      CarriesStay(t[h], u[h], FirstOf(gifts, h).value.tx);
    }
  }

  lemma NothingHeld()
    ensures HoldsFirst(map[], [])
  {
  }

  lemma CarriesStay(a: Row, b: Row, tx: Transaction)
    requires Carries(a, tx) && SameTransaction(a, b)
    ensures Carries(b, tx)
  {
  }

  /** The transactions of genesis are those of the first block on the confirmed index. */
  lemma GenesisPosition(genesis: FullBlock, h: Hash)
    requires GenesisOwed(genesis) && h in PushGenesis(genesis).state.table
    ensures h in genesis.TxLinks() && PushGenesis(genesis).state.table[h].HasPosition()
  {
    hide Inv;
    hide PushGenesis;
    hide Indexed;
    var s := PushGenesis(genesis).state;
    GenesisEstablishesInv(genesis);
    GenesisBlocks(genesis);
    GenesisTable(genesis);
    ConfirmedHavePositions(s, 0, h);
  }

  lemma GenesisTable(genesis: FullBlock)
    requires GenesisOwed(genesis)
    ensures forall h :: h in PushGenesis(genesis).state.table ==> h in genesis.TxLinks()
  {
    hide Each;
    hide PushGenesis;
    hide GenesisOwed;
    hide Unmoved;
    var t, u := Each(map[], genesis.txs, Storing()).table, PushGenesis(genesis).state.table;
    GenesisUnmoved(genesis);
    UnmovedKeepsTransactions(t, u);
    StoringKeys(map[], genesis.txs);
    forall h | h in u ensures h in genesis.TxLinks() {
      var tx :| tx in genesis.txs && tx.hash == h;
      var i :| 0 <= i < |genesis.txs| && genesis.txs[i] == tx;
      assert genesis.TxLinks()[i] == h;
    }
  }

  lemma {:induction false} StoringKeys(t: Table, txs: seq<Transaction>)
    ensures forall h :: h in Each(t, txs, Storing()).table ==> h in t || exists tx :: tx in txs && tx.hash == h
    decreases |txs|
  {
    if txs != [] {
      var n := |txs| - 1;
      StoringKeys(t, txs[..n]);
      assert txs == txs[..n] + [txs[n]];
    }
  }

  lemma {:induction false} RunHoldsFirst(genesis: FullBlock, steps: seq<Step>)
    requires GenesisOwed(genesis) && LegalRun(PushGenesis(genesis).state, steps)
    ensures Inv(Run(PushGenesis(genesis).state, steps))
    ensures HoldsFirst(Run(PushGenesis(genesis).state, steps).table, AllGifts(genesis, steps))
    decreases |steps|
  {
    hide HoldsFirst;
    hide GenesisOwed;
    hide PushGenesis;
    hide Inv;
    hide Owed;
    hide Next;
    hide Gifts;
    GenesisEstablishesInv(genesis);
    RunKeepsInv(PushGenesis(genesis).state, steps);
    if steps == [] {
      GenesisHoldsFirst(genesis);
    } else {
      var n := |steps| - 1;
      RunHoldsFirst(genesis, steps[..n]);
      StepHoldsFirst(Run(PushGenesis(genesis).state, steps[..n]), steps[n], AllGifts(genesis, steps[..n]));
    }
  }

  /** After every run from genesis, exactly the transactions handed in are stored, and each row carries the one
      first handed in under its hash: inputs, locktime, version, and each output's value and script. */
  lemma StoredIsFirstHandedIn(genesis: FullBlock, steps: seq<Step>, h: Hash)
    requires GenesisOwed(genesis) && LegalRun(PushGenesis(genesis).state, steps)
    ensures var t, first := Run(PushGenesis(genesis).state, steps).table, FirstOf(AllGifts(genesis, steps), h);
            && (h in t <==> first.Some?)
            && (h in t ==>
                  var row, tx := t[h], first.value.tx;
                  && row.inputs == tx.inputs && row.locktime == tx.locktime && row.version == tx.version
                  && |row.outputs| == |tx.outputs|
                  && forall i :: 0 <= i < |tx.outputs| ==>
                       row.outputs[i].value == tx.outputs[i].value && row.outputs[i].script == tx.outputs[i].script)
  {
    hide PushGenesis;
    hide GenesisOwed;
    hide Inv;
    RunHoldsFirst(genesis, steps);
  }

  // ---------------------------------------------------------------- whether it was ever confirmed

  /** Some operation of the run confirmed a block with this transaction. */
  predicate EverConfirmed(genesis: FullBlock, steps: seq<Step>, h: Hash)
    decreases |steps|
  {
    if steps == [] then h in genesis.TxLinks()
    else
      var n := |steps| - 1;
      || EverConfirmed(genesis, steps[..n], h)
      || (Confirms(steps[n]) && h in Moves(Run(PushGenesis(genesis).state, steps[..n]), steps[n]))
  }

  /** A stored transaction was confirmed when its position says so, or no longer does. */
  lemma StepTellsConfirmed(s: State, step: Step, h: Hash)
    requires Inv(s) && Owed(s, step) && Next(s, step).ok && h in Next(s, step).state.table
    ensures Next(s, step).state.table[h].position != UNCONFIRMED <==>
            || (h in s.table && s.table[h].position != UNCONFIRMED)
            || (Confirms(step) && h in Moves(s, step))
  {
    hide Inv;
    hide Owed;
    hide Next;
    hide Moves;
    StepKeepsMetadata(s, step);
    StepMovesFlags(s, step);
    if Places(step) && h in Moves(s, step) {
      MovedPositions(s, step, h);
    }
  }

  lemma {:induction false} PositionTellsConfirmed(genesis: FullBlock, steps: seq<Step>, h: Hash)
    requires GenesisOwed(genesis) && LegalRun(PushGenesis(genesis).state, steps)
    ensures var t := Run(PushGenesis(genesis).state, steps).table;
            && (h in t ==> (t[h].position != UNCONFIRMED <==> EverConfirmed(genesis, steps, h)))
            && (EverConfirmed(genesis, steps, h) ==> h in t)
    decreases |steps|
  {
    hide GenesisOwed;
    hide PushGenesis;
    hide Inv;
    hide Owed;
    hide Next;
    hide Moves;
    GenesisEstablishesInv(genesis);
    if steps == [] {
      if h in genesis.TxLinks() {
        GenesisStores(genesis, h);
      }
      if h in PushGenesis(genesis).state.table {
        GenesisPosition(genesis, h);
      }
    } else {
      var n := |steps| - 1;
      var s := Run(PushGenesis(genesis).state, steps[..n]);
      PositionTellsConfirmed(genesis, steps[..n], h);
      RunKeepsInv(PushGenesis(genesis).state, steps[..n]);
      StepKeepsMetadata(s, steps[n]);
      if Confirms(steps[n]) && h in Moves(s, steps[n]) {
        MovedPositions(s, steps[n], h);
      }
      if h in Next(s, steps[n]).state.table {
        StepTellsConfirmed(s, steps[n], h);
      }
    }
  }

  lemma GenesisStores(genesis: FullBlock, h: Hash)
    requires GenesisOwed(genesis) && h in genesis.TxLinks()
    ensures h in PushGenesis(genesis).state.table
  {
    hide Inv;
    hide PushGenesis;
    hide Indexed;
    GenesisEstablishesInv(genesis);
    GenesisBlocks(genesis);
    ConfirmedHavePositions(PushGenesis(genesis).state, 0, h);
  }

  /** After every run from genesis, the height of a transaction that was never confirmed holds the forks it was
      first handed in with, its position is the unconfirmed sentinel, and it has no time. */
  lemma PooledHeightIsForks(genesis: FullBlock, steps: seq<Step>, h: Hash)
    requires GenesisOwed(genesis) && LegalRun(PushGenesis(genesis).state, steps)
    requires h in Run(PushGenesis(genesis).state, steps).table && !EverConfirmed(genesis, steps, h)
    ensures var row, first := Run(PushGenesis(genesis).state, steps).table[h], FirstOf(AllGifts(genesis, steps), h);
            && first.Some? && row.height == first.value.forks
            && row.position == UNCONFIRMED && row.time == NO_TIME
  {
    hide PushGenesis;
    hide GenesisOwed;
    hide Inv;
    hide EverConfirmed;
    RunHoldsFirst(genesis, steps);
    PositionTellsConfirmed(genesis, steps, h);
  }
}
