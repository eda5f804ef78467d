/** The candidate flag of a transaction over whole runs, and the assertion that ends the previous-output query. */
module CandidateFlags {
  import opened Types
  import opened Record
  import opened BlockState
  import opened BlockTable
  import opened TransactionTable
  import opened Ledger
  import opened Agreement
  import opened CandidateSpends
  import opened ChainState
  import opened Invariants
  import opened Steps
  import opened Runs
  import Rows = ReorganizationRows

  // ---------------------------------------------------------------- one operation

  function LinksAt(b: Blocks, index: seq<Hash>, height: nat): set<Hash> {
    if height < |index| && b.LinksInRange(index[height]) then LinkSet(b.LinksOf(index[height])) else {}
  }

  /** The transactions that an operation candidates, confirms, or takes back. */
  function Moves(s: State, step: Step): set<Hash> {
    match step
    case CandidateStep(block) => LinkSet(block.TxLinks())
    case PopHeaderStep(height) => LinksAt(s.blocks, s.blocks.candidate, height)
    case PushBlockStep(block, height) => LinkSet(block.TxLinks())
    case PopBlockStep(height) => LinksAt(s.blocks, s.blocks.confirmed, height)
    case ConfirmStep(hash, height) => LinksAt(s.blocks, [hash], 0)
    case _ => {}
  }

  /** These transactions have their flag set, in place, or cleared; the others keep flag and position, and new
      ones have neither. */
  ghost predicate FlagsMoved(t: Table, u: Table, moved: set<Hash>, positive: bool) {
    && t.Keys <= u.Keys && (positive ==> moved <= t.Keys)
    && forall h :: h in u ==>
         && (h in moved ==> u[h].candidate == positive)
         && (h in t && (positive || h !in moved) ==> u[h].position == t[h].position)
         && (h in t && h !in moved ==> u[h].candidate == t[h].candidate)
         && (h !in t ==> !u[h].candidate && u[h].position == UNCONFIRMED)
  }

  lemma TouchedMovesFlags(t: Table, u: Table, moved: set<Hash>)
    requires Rows.Touched(t, u, moved)
    ensures FlagsMoved(t, u, moved, false)
  {
  }

  lemma MarkedMovesFlags(t: Table, u: Table, links: seq<Hash>, positive: bool)
    requires MarkedAs(t, u, BlockPoints(t, links), LinkSet(links), positive) && LinksReady(t, links)
    ensures FlagsMoved(t, u, LinkSet(links), positive)
  {
    forall h | h in u ensures RowMarkedAs(h, t[h], u[h], BlockPoints(t, links), LinkSet(links), positive) {
    }
  }

  lemma {:induction false} StoringMovesNoFlags(t: Table, txs: seq<Transaction>)
    ensures FlagsMoved(t, Each(t, txs, Storing()).table, {}, false)
    decreases |txs|
  {
    if txs != [] {
      StoringMovesNoFlags(t, txs[..|txs| - 1]);
    }
  }

  lemma {:induction false} UnconfirmBlockTouches(t: Table, links: seq<Hash>)
    ensures UnconfirmBlock(t, links).ok ==> Rows.Touched(t, UnconfirmBlock(t, links).table, LinkSet(links))
    decreases |links|
  {
    hide Rows.Touched;
    hide Confirm;
    if links == [] {
      Rows.TouchedNothing(t);
    } else {
      var n := |links| - 1;
      UnconfirmBlockTouches(t, links[..n]);
      LinksSnoc(t, links);
      var u := UnconfirmBlock(t, links[..n]);
      if u.ok {
        Rows.ConfirmTouches(u.table, links[n], UNVERIFIED, NO_TIME, DECONFIRMED);
        var v := Confirm(u.table, links[n], UNVERIFIED, NO_TIME, DECONFIRMED);
        if v.ok {
          Rows.TouchedTransitive(t, u.table, v.table, LinkSet(links[..n]), {links[n]});
        }
      }
    }
  }

  /** Only candidating sets the flag, for the transactions of its block. */
  lemma StepMovesFlags(s: State, step: Step)
    requires Next(s, step).ok
    ensures FlagsMoved(s.table, Next(s, step).state.table, Moves(s, step), step.CandidateStep?)
  {
    hide FlagsMoved;
    hide Rows.Touched;
    hide Each;
    hide TransactionTable.ConfirmBlock;
    hide UnconfirmBlock;
    hide MarkedAs;
    hide LinksReady;
    hide BlockPoints;
    hide LinkSet;
    var t := s.table;
    match step
    case StoreStep(tx, forks) => StorizeMovesNoFlags(t, tx, forks);
    case UpdateStep(block, height) => StoringMovesNoFlags(t, block.txs);
    case InvalidateStep(hash, error) => NoFlagsMoved(t);
    case CandidateStep(block) =>
      MarkBlock(t, block.TxLinks(), true);
      MarkedMovesFlags(t, Next(s, step).state.table, block.TxLinks(), true);
    case PushHeaderStep(header, known, height, time) => NoFlagsMoved(t);
    case PopHeaderStep(height) =>
      var links := s.blocks.LinksOf(s.blocks.candidate[height]);
      MarkBlock(t, links, false);
      MarkedMovesFlags(t, Next(s, step).state.table, links, false);
    case PushBlockStep(block, height) =>
      Rows.ConfirmBlockTouches(t, block.TxLinks(), height, block.time);
      TouchedMovesFlags(t, Next(s, step).state.table, LinkSet(block.TxLinks()));
    case PopBlockStep(height) =>
      var links := s.blocks.LinksOf(s.blocks.confirmed[height]);
      UnconfirmBlockTouches(t, links);
      TouchedMovesFlags(t, Next(s, step).state.table, LinkSet(links));
    case ConfirmStep(hash, height) =>
      var links := s.blocks.LinksOf(hash);
      Rows.ConfirmBlockTouches(t, links, height, s.blocks.rows[hash].time);
      TouchedMovesFlags(t, Next(s, step).state.table, LinkSet(links));
  }

  lemma NoFlagsMoved(t: Table)
    ensures FlagsMoved(t, t, {}, false)
  {
  }

  lemma StorizeMovesNoFlags(t: Table, tx: Transaction, forks: nat)
    ensures FlagsMoved(t, Storize(t, tx, forks, NO_TIME, UNCONFIRMED).table, {}, false)
  {
  }

  // ---------------------------------------------------------------- the last operation decides

  /** The run candidated the transaction at its k-th step, and no later step moved it. */
  ghost predicate LastCandidated(s: State, steps: seq<Step>, k: nat, h: Hash) {
    && k < |steps| && steps[k].CandidateStep? && h in Moves(Run(s, steps[..k]), steps[k])
    && forall j :: k < j < |steps| ==> h !in Moves(Run(s, steps[..j]), steps[j])
  }

  lemma LastCandidatedFront(s: State, steps: seq<Step>, k: nat, h: Hash)
    requires k < |steps| - 1
    ensures LastCandidated(s, steps, k, h) <==>
            && LastCandidated(s, steps[..|steps| - 1], k, h)
            && h !in Moves(Run(s, steps[..|steps| - 1]), steps[|steps| - 1])
  {
    hide Moves;
    hide Run;
    var front := steps[..|steps| - 1];
    assert forall j :: 0 <= j < |steps| ==> front[..j] == steps[..j];
    assert forall j :: 0 <= j < |front| ==> front[j] == steps[j];
  }

  lemma {:induction false} LastOperationDecides(s: State, steps: seq<Step>, h: Hash)
    requires LegalRun(s, steps) && (h in s.table ==> !s.table[h].candidate)
    ensures var t := Run(s, steps).table;
            h in t && t[h].candidate <==> exists k :: LastCandidated(s, steps, k, h)
    decreases |steps|
  {
    hide Moves;
    hide Next;
    hide Owed;
    hide LastCandidated;
    if steps == [] {
      assert forall k :: LastCandidated(s, steps, k, h) ==> false by {
        NeverCandidated(s, h);
      }
    } else {
      var n := |steps| - 1;
      var front := steps[..n];
      var u := Run(s, front);
      LastOperationDecides(s, front, h);
      StepMovesFlags(u, steps[n]);
      JustCandidated(s, steps, h);
      forall k: nat | k < n
        ensures LastCandidated(s, steps, k, h) <==> LastCandidated(s, front, k, h) && h !in Moves(u, steps[n])
      {
        LastCandidatedFront(s, steps, k, h);
      }
      CandidatedInRun(s, steps, h);
      CandidatedInRun(s, front, h);
    }
  }

  lemma NeverCandidated(s: State, h: Hash)
    ensures forall k :: !LastCandidated(s, [], k, h)
  {
  }

  lemma CandidatedInRun(s: State, steps: seq<Step>, h: Hash)
    ensures forall k: nat :: LastCandidated(s, steps, k, h) ==> k < |steps|
  {
  }

  lemma JustCandidated(s: State, steps: seq<Step>, h: Hash)
    requires steps != []
    ensures var n := |steps| - 1;
            LastCandidated(s, steps, n, h) <==> steps[n].CandidateStep? && h in Moves(Run(s, steps[..n]), steps[n])
  {
  }

  lemma GenesisHasNoFlags(block: FullBlock)
    requires GenesisOwed(block)
    ensures forall h :: h in PushGenesis(block).state.table ==> !PushGenesis(block).state.table[h].candidate
  {
    hide Each;
    hide TransactionTable.ConfirmBlock;
    hide Rows.Touched;
    hide LedgerBlock;
    hide UpdateConfirmation;
    var t := Each(map[], block.txs, Storing()).table;
    GenesisEstablishesInv(block);
    StoringMovesNoFlags(map[], block.txs);
    Rows.ConfirmBlockTouches(t, block.TxLinks(), 0, block.time);
    TouchedMovesFlags(t, PushGenesis(block).state.table, LinkSet(block.TxLinks()));
  }

  /** After every run from genesis, a transaction has its candidate flag set exactly when a block with it was
      candidated and since then no block with it was candidated again, popped, or confirmed. */
  lemma CandidateFlagIsLastMove(block: FullBlock, steps: seq<Step>, h: Hash)
    requires GenesisOwed(block) && LegalRun(PushGenesis(block).state, steps)
    ensures var t := Run(PushGenesis(block).state, steps).table;
            h in t && t[h].candidate <==> exists k :: LastCandidated(PushGenesis(block).state, steps, k, h)
  {
    hide PushGenesis;
    hide LegalRun;
    hide LastCandidated;
    GenesisHasNoFlags(block);
    LastOperationDecides(PushGenesis(block).state, steps, h);
  }

  // ---------------------------------------------------------------- a marked block has it

  ghost predicate InMarkedBlock(s: State, h: Hash) {
    exists x :: x in s.marked && s.blocks.LinksInRange(x) && h in s.blocks.LinksOf(x)
  }

  ghost predicate FlagsAreMarked(s: State) {
    forall h :: h in s.table && s.table[h].candidate ==> InMarkedBlock(s, h)
  }

  /** A stored block keeps its links, unless transactions are stored for it. */
  lemma StepLeavesLinks(s: State, step: Step, x: Hash)
    requires Owed(s, step) && Next(s, step).ok && s.blocks.LinksInRange(x)
    requires step.UpdateStep? ==> step.block.header.hash != x
    ensures KeepsLinks(s.blocks, Next(s, step).state.blocks, x)
  {
    hide Each;
    hide TransactionTable.ConfirmBlock;
    hide UnconfirmBlock;
    hide LedgerBlock;
    hide UpdateConfirmation;
    hide UpdateValidation;
    hide UpdateTransactions;
    hide CandidateOwed;
    hide ConfirmOwed;
    hide InvalidateOwed;
    hide PushBlockOwed;
    hide Promote;
    hide Demote;
    hide Blocks.LinksOf;
    hide Blocks.LinksInRange;
    match step
    case UpdateStep(block, height) => UpdateLeavesLinks(s.blocks, block.header.hash, block.TxLinks(), x);
    case InvalidateStep(hash, error) => ValidateLeavesLinks(s.blocks, hash, error, x);
    case CandidateStep(block) => ValidateLeavesLinks(s.blocks, block.header.hash, 0, x);
    case PushHeaderStep(header, known, height, time) => HeaderLeavesLinks(s.blocks, header, known, height, time, x);
    case PopHeaderStep(height) => DemoteLeavesLinks(s.blocks, s.blocks.candidate[height], height, true, x);
    case PushBlockStep(block, height) => PromoteLeavesLinks(s.blocks, block.header.hash, height, false, x);
    case PopBlockStep(height) => DemoteLeavesLinks(s.blocks, s.blocks.confirmed[height], height, false, x);
    case ConfirmStep(hash, height) => PromoteLeavesLinks(s.blocks, hash, height, false, x);
    case StoreStep(tx, forks) =>
  }

  /** A marked block keeps its links, and stays marked unless its header is popped. */
  lemma MarkedStaysMarked(s: State, step: Step, x: Hash)
    requires Inv(s) && Owed(s, step) && Next(s, step).ok && x in s.marked
    ensures var u := Next(s, step).state;
            && s.blocks.LinksInRange(x) && u.blocks.LinksInRange(x) && u.blocks.LinksOf(x) == s.blocks.LinksOf(x)
            && (x in u.marked
                || (step.PopHeaderStep? && step.height < |s.blocks.candidate| && x == s.blocks.candidate[step.height]))
  {
    hide Inv;
    hide Each;
    hide TransactionTable.ConfirmBlock;
    hide UnconfirmBlock;
    hide LedgerBlock;
    hide Validate;
    hide UpdateTransactions;
    hide CandidateOwed;
    hide ConfirmOwed;
    hide InvalidateOwed;
    hide PushBlockOwed;
    hide Promote;
    hide Demote;
    hide Blocks.LinksOf;
    hide Blocks.LinksInRange;
    MarkedHasLinks(s, x);
    StepLeavesLinks(s, step, x);
  }

  ghost predicate KeepsLinks(b: Blocks, c: Blocks, x: Hash)
    requires b.LinksInRange(x)
  {
    c.LinksInRange(x) && c.LinksOf(x) == b.LinksOf(x)
  }

  lemma ValidateLeavesLinks(b: Blocks, hash: Hash, error: nat, x: Hash)
    requires b.LinksInRange(x)
    ensures KeepsLinks(b, Validate(b, hash, error).blocks, x)
  {
  }

  lemma PromoteLeavesLinks(b: Blocks, hash: Hash, height: nat, candidate: bool, x: Hash)
    requires b.LinksInRange(x)
    ensures KeepsLinks(b, Promote(b, hash, height, candidate).blocks, x)
  {
  }

  lemma DemoteLeavesLinks(b: Blocks, hash: Hash, height: nat, candidate: bool, x: Hash)
    requires b.LinksInRange(x)
    ensures KeepsLinks(b, Demote(b, hash, height, candidate).blocks, x)
  {
  }

  lemma HeaderLeavesLinks(b: Blocks, header: Header, known: bool, height: nat, time: nat, x: Hash)
    requires b.LinksInRange(x) && known == (header.hash in b.rows)
    ensures var c := if known then b else StoreHeader(b, header, height, time);
            KeepsLinks(b, Promote(c, header.hash, height, true).blocks, x)
  {
  }

  lemma MarkedHasLinks(s: State, x: Hash)
    requires Inv(s) && x in s.marked
    ensures s.blocks.LinksInRange(x) && s.blocks.rows[x].count > 0
  {
    hide Indexed;
    hide Tied;
    hide Confirmations;
    hide Populated;
    assert MarkedBlock(s, x);
  }

  lemma UpdateLeavesLinks(b: Blocks, hash: Hash, txs: seq<Hash>, x: Hash)
    requires b.LinksInRange(x) && x != hash
    ensures KeepsLinks(b, UpdateTransactions(b, hash, txs).blocks, x)
  {
    var c := UpdateTransactions(b, hash, txs).blocks;
    assert c.links[..|b.links|] == b.links;
  }

  lemma StepKeepsFlagsMarked(s: State, step: Step)
    requires Inv(s) && Owed(s, step) && Next(s, step).ok && FlagsAreMarked(s)
    ensures FlagsAreMarked(Next(s, step).state)
  {
    hide Inv;
    hide Owed;
    hide Next;
    hide Blocks.LinksInRange;
    hide Blocks.LinksOf;
    var u := Next(s, step).state;
    StepMovesFlags(s, step);
    forall h | h in u.table && u.table[h].candidate ensures InMarkedBlock(u, h) {
      if h in Moves(s, step) {
        CandidatedIsMarked(s, step, h);
      } else {
        assert InMarkedBlock(s, h);
        var x :| x in s.marked && s.blocks.LinksInRange(x) && h in s.blocks.LinksOf(x);
        MarkedStaysMarked(s, step, x);
        if x !in u.marked {
          PoppedMoves(s, step, h);
        }
      }
    }
  }

  /** Popping a header moves every transaction of its block. */
  lemma PoppedMoves(s: State, step: Step, h: Hash)
    requires step.PopHeaderStep? && step.height < |s.blocks.candidate|
    requires s.blocks.LinksInRange(s.blocks.candidate[step.height])
    requires h in s.blocks.LinksOf(s.blocks.candidate[step.height])
    ensures h in Moves(s, step)
  {
  }

  lemma CandidatedIsMarked(s: State, step: Step, h: Hash)
    requires Inv(s) && Owed(s, step) && Next(s, step).ok && step.CandidateStep? && h in Moves(s, step)
    ensures InMarkedBlock(Next(s, step).state, h)
  {
    hide Inv;
    hide Each;
    hide UpdateValidation;
    var u := Next(s, step).state;
    assert step.block.header.hash in u.marked && u.blocks.LinksInRange(step.block.header.hash);
  }

  lemma {:induction false} RunKeepsFlagsMarked(s: State, steps: seq<Step>)
    requires Inv(s) && LegalRun(s, steps) && FlagsAreMarked(s)
    ensures FlagsAreMarked(Run(s, steps))
    decreases |steps|
  {
    hide Inv;
    hide Owed;
    hide Next;
    hide FlagsAreMarked;
    if steps != [] {
      var n := |steps| - 1;
      RunKeepsFlagsMarked(s, steps[..n]);
      RunKeepsInv(s, steps[..n]);
      StepKeepsFlagsMarked(Run(s, steps[..n]), steps[n]);
    }
  }

  /** In every reachable state, a transaction with its candidate flag set is in a candidated block that is still
      on the candidate index. */
  lemma CandidateFlagIsOnTheIndex(s: State, h: Hash)
    requires Reachable(s) && h in s.table && s.table[h].candidate
    ensures exists x :: x in s.marked && x in s.blocks.candidate && s.blocks.LinksInRange(x) && h in s.blocks.LinksOf(x)
  {
    hide GenesisOwed;
    hide LegalRun;
    hide Inv;
    hide PushGenesis;
    var block, steps :|
      GenesisOwed(block) && LegalRun(PushGenesis(block).state, steps) && s == Run(PushGenesis(block).state, steps);
    GenesisEstablishesInv(block);
    GenesisHasNoFlags(block);
    RunKeepsFlagsMarked(PushGenesis(block).state, steps);
    RunKeepsInv(PushGenesis(block).state, steps);
    var x :| x in s.marked && s.blocks.LinksInRange(x) && h in s.blocks.LinksOf(x);
    MarkedIsCandidate(s, x);
  }

  lemma MarkedIsCandidate(s: State, x: Hash)
    requires Inv(s) && x in s.marked
    ensures x in s.blocks.candidate
  {
    hide Indexed;
    hide Tied;
    hide Confirmations;
    hide Populated;
    assert MarkedBlock(s, x);
  }

  // ---------------------------------------------------------------- the assertion of the output query

  /** The query may report a confirmed spend, or that the output is a candidate's, and not both. */
  predicate QueryAsserts(t: Table, p: Point, fork: nat) {
    var r := GetOutput(t, p, fork);
    r.Some? ==> !(r.value.confirmedSpent && r.value.candidate)
  }

  /** A confirmed block at or below the height spends the output. */
  ghost predicate SpentBelow(s: State, p: Point, fork: nat) {
    exists k :: 0 <= k < |s.blocks.confirmed| && k <= fork && SpentAt(s, p, k)
  }

  ghost predicate SpentAt(s: State, p: Point, k: nat)
    requires k < |s.blocks.confirmed|
  {
    && s.blocks.LinksInRange(s.blocks.confirmed[k])
    && p in BlockPoints(s.table, s.blocks.LinksOf(s.blocks.confirmed[k]))
  }

  /** In every reachable state, the assertion that ends the query fails exactly when the transaction has its
      candidate flag set while a confirmed block at or below the fork spends the output. */
  lemma AssertionFailsExactly(s: State, p: Point, fork: nat)
    requires Reachable(s) && OutputExists(s.table, p)
    ensures !QueryAsserts(s.table, p, fork) <==> s.table[p.hash].candidate && SpentBelow(s, p, fork)
  {
    hide Reachable;
    hide BlockPoints;
    var row := s.table[p.hash];
    ReachableInv(s);
    SpenderTellsSpent(s, p, fork);
    if row.outputs[p.index].spender != NOT_SPENT {
      SpentIsLocated(s, p);
    }
  }

  /** A spent output is of a transaction that is confirmed above genesis. */
  lemma SpentIsLocated(s: State, p: Point)
    requires Inv(s) && OutputExists(s.table, p) && s.table[p.hash].outputs[p.index].spender != NOT_SPENT
    ensures !p.IsNull() && s.table[p.hash].HasPosition() && s.table[p.hash].height != 0
  {
    hide Indexed;
    hide Tied;
    hide Marks;
    hide Populated;
    hide Summarize;
    hide ValidChain;
    var m := Summarize(s.chain);
    UtxoIsLive(s.chain);
    assert RowAgrees(p.hash, s.table[p.hash], m);
    assert p == Point(p.hash, p.index) && p in m.spent;
    SpentIsReal(s.chain, p);
  }

  lemma SpentIsReal(chain: seq<Block>, p: Point)
    requires ValidChain(chain) && p in Summarize(chain).spent
    ensures !p.IsNull()
  {
    SpentWhereItIsSpent(chain, p, Summarize(chain).spent[p]);
  }

  lemma SpenderTellsSpent(s: State, p: Point, fork: nat)
    requires Reachable(s) && OutputExists(s.table, p)
    ensures var spender := s.table[p.hash].outputs[p.index].spender;
            SpentBelow(s, p, fork) <==> spender != NOT_SPENT && spender <= fork
  {
    hide Reachable;
    hide SpentAt;
    hide Inv;
    var spender := s.table[p.hash].outputs[p.index].spender;
    assert p == Point(p.hash, p.index);
    ReachableInv(s);
    HeightsBelowSentinel(s);
    forall k: nat | k < |s.blocks.confirmed| ensures spender == k <==> SpentAt(s, p, k) {
      SpenderIsThere(s, p, k);
    }
    SpenderIsOnTheIndex(s, p.hash, p.index, 0);
    if spender != NOT_SPENT && spender <= fork {
      assert SpentAt(s, p, spender);
    }
  }

  lemma SpenderIsThere(s: State, p: Point, k: nat)
    requires Reachable(s) && OutputExists(s.table, p) && k < |s.blocks.confirmed| && k != NOT_SPENT
    ensures s.table[p.hash].outputs[p.index].spender == k <==> SpentAt(s, p, k)
  {
    hide Reachable;
    hide BlockPoints;
    assert p == Point(p.hash, p.index);
    SpenderIsOnTheIndex(s, p.hash, p.index, k);
  }

  lemma HeightsBelowSentinel(s: State)
    requires Inv(s)
    ensures |s.blocks.confirmed| <= MAX_HEIGHT + 1 <= NOT_SPENT
  {
    hide Marks;
    hide Tied;
    hide Confirmations;
    hide Populated;
    assert Linked(s.blocks, s.blocks.confirmed);
  }

  /** No confirmed transaction has its candidate flag set. */
  ghost predicate FlagsAreUnconfirmed(t: Table) {
    forall h :: h in t ==> !(t[h].candidate && t[h].HasPosition())
  }

  /** Where no confirmed transaction has its flag set, the assertion holds of every output and every fork. */
  lemma UnconfirmedFlagsAssert(s: State, p: Point, fork: nat)
    requires Inv(s) && FlagsAreUnconfirmed(s.table)
    ensures QueryAsserts(s.table, p, fork)
  {
    hide Inv;
    if OutputExists(s.table, p) && s.table[p.hash].outputs[p.index].spender != NOT_SPENT {
      SpentIsLocated(s, p);
    }
  }

  ghost predicate HoldsNoConfirmed(t: Table, block: FullBlock) {
    forall h :: h in block.TxLinks() && h in t ==> !t[h].HasPosition()
  }

  /** Every operation keeps it that no confirmed transaction has its flag set, except the candidating of a block
      exactly when one of its transactions is confirmed. */
  lemma StepKeepsFlagsUnconfirmed(s: State, step: Step)
    requires FlagsAreUnconfirmed(s.table) && Next(s, step).ok
    ensures FlagsAreUnconfirmed(Next(s, step).state.table) <==>
            (step.CandidateStep? ==> HoldsNoConfirmed(s.table, step.block))
  {
    hide Next;
    StepMovesFlags(s, step);
    if step.CandidateStep? {
      assert Moves(s, step) == LinkSet(step.block.TxLinks());
    }
  }

  /** No block of the run had a confirmed transaction when it was candidated. */
  ghost predicate CandidatesUnconfirmed(s: State, steps: seq<Step>) {
    forall k :: 0 <= k < |steps| && steps[k].CandidateStep? ==>
      HoldsNoConfirmed(Run(s, steps[..k]).table, steps[k].block)
  }

  lemma {:induction false} RunKeepsFlagsUnconfirmed(s: State, steps: seq<Step>)
    requires LegalRun(s, steps) && FlagsAreUnconfirmed(s.table) && CandidatesUnconfirmed(s, steps)
    ensures FlagsAreUnconfirmed(Run(s, steps).table)
    decreases |steps|
  {
    hide Next;
    hide Owed;
    if steps != [] {
      var n := |steps| - 1;
      var front := steps[..n];
      assert CandidatesUnconfirmed(s, front) by {
        forall k: nat | k < n ensures front[..k] == steps[..k] && front[k] == steps[k] {
        }
      }
      RunKeepsFlagsUnconfirmed(s, front);
      StepKeepsFlagsUnconfirmed(Run(s, front), steps[n]);
    }
  }

  /** After every run from genesis in which no block was candidated with a confirmed transaction, the assertion
      holds of every output and every fork. */
  lemma AssertionHoldsInRuns(block: FullBlock, steps: seq<Step>, p: Point, fork: nat)
    requires GenesisOwed(block) && LegalRun(PushGenesis(block).state, steps)
    requires CandidatesUnconfirmed(PushGenesis(block).state, steps)
    ensures QueryAsserts(Run(PushGenesis(block).state, steps).table, p, fork)
  {
    hide PushGenesis;
    hide LegalRun;
    hide Run;
    hide Inv;
    hide CandidatesUnconfirmed;
    GenesisEstablishesInv(block);
    GenesisHasNoFlags(block);
    RunKeepsInv(PushGenesis(block).state, steps);
    RunKeepsFlagsUnconfirmed(PushGenesis(block).state, steps);
    UnconfirmedFlagsAssert(Run(PushGenesis(block).state, steps), p, fork);
  }

  /** Candidating a block that has a transaction with a confirmed spend makes the assertion fail. */
  lemma CandidatingSpentFails(s: State, block: FullBlock, p: Point, fork: nat)
    requires Reachable(s) && CandidateOwed(s, block) && LinksReady(s.table, block.TxLinks())
    requires p.hash in block.TxLinks() && OutputExists(s.table, p) && SpentBelow(s, p, fork)
    ensures var d := CandidateBlock(s, block);
            d.ok && Reachable(d.state) && !QueryAsserts(d.state.table, p, fork)
  {
    hide Reachable;
    hide Inv;
    hide Each;
    hide LinksReady;
    hide BlockPoints;
    hide CandidateOwed;
    hide SpentBelow;
    var links := block.TxLinks();
    ReachableInv(s);
    CandidateKeepsInv(s, block);
    ReachableStep(s, CandidateStep(block));
    SpenderTellsSpent(s, p, fork);
    SpentIsLocated(s, p);
    MarkBlock(s.table, links, true);
    var u := CandidateBlock(s, block).state;
    assert RowMarkedAs(p.hash, s.table[p.hash], u.table[p.hash], BlockPoints(s.table, links), LinkSet(links), true);
  }
}
