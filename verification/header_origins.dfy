/** Over every run, what a block row says is what was handed in for it: parent, height and median time past with its
    header, the transaction links with its block, and the validation state and error code with its last verdict. */
module HeaderOrigins {
  import opened Types
  import opened Record
  import opened BlockState
  import opened BlockTable
  import opened TransactionTable
  import opened Ledger
  import opened Agreement
  import opened ChainState
  import opened Invariants
  import opened Steps
  import opened Runs
  import opened CandidateFlags
  import Headers = HeaderReorganization

  // ---------------------------------------------------------------- a new header

  /** A header that is not stored gets a row with exactly what came with it, as an unvalidated candidate without
      transactions. */
  lemma NewHeaderIsStored(s: State, header: Header, time: nat)
    requires Inv(s) && PushHeaderOwed(s, header, false, |s.blocks.candidate|)
    ensures var b := PushHeader(s, header, false, |s.blocks.candidate|, time).state.blocks;
            && header.hash in b.rows
            && var row := b.rows[header.hash];
               && row.previous == header.previous && row.height == |s.blocks.candidate| && row.time == time
               && row.checksum == 0 && row.count == 0 && b.LinksInRange(header.hash) && b.LinksOf(header.hash) == []
               && IsCandidate(row.state) && !IsConfirmed(row.state) && !IsValid(row.state) && !IsFailed(row.state)
  {
    hide Inv;
    hide UpdateConfirmation;
    hide IsCandidate;
    hide IsConfirmed;
    hide IsValid;
    hide IsFailed;
    NewWord();
    ConfirmationBits(CANDIDATE, true, true);
  }

  lemma NewWord()
    ensures !IsValid(CANDIDATE) && !IsFailed(CANDIDATE)
  {
  }

  // ---------------------------------------------------------------- parent, height and time

  datatype Origin = Origin(previous: Hash, height: nat, time: nat)

  /** What the run stored the header with. */
  function OriginOf(genesis: FullBlock, steps: seq<Step>, x: Hash): Option<Origin>
    decreases |steps|
  {
    if steps == [] then
      if x == genesis.header.hash then Some(Origin(genesis.header.previous, 0, genesis.time)) else None
    else
      var n := |steps| - 1;
      match steps[n]
      case PushHeaderStep(header, known, height, time) =>
        if !known && header.hash == x then Some(Origin(header.previous, height, time))
        else OriginOf(genesis, steps[..n], x)
      case _ => OriginOf(genesis, steps[..n], x)
  }

  ghost predicate HasOrigin(b: Blocks, x: Hash, origin: Option<Origin>) {
    && (x in b.rows <==> origin.Some?)
    && (x in b.rows ==> origin == Some(Origin(b.rows[x].previous, b.rows[x].height, b.rows[x].time)))
  }

  /** Rows stay, and none changes its parent, height or time. */
  ghost predicate KeepsOrigins(b: Blocks, c: Blocks) {
    && b.rows.Keys == c.rows.Keys
    && forall x :: x in b.rows ==>
         && c.rows[x].previous == b.rows[x].previous
         && c.rows[x].height == b.rows[x].height && c.rows[x].time == b.rows[x].time
  }

  lemma StepKeepsOrigins(s: State, step: Step)
    requires Next(s, step).ok && !(step.PushHeaderStep? && !step.known)
    ensures KeepsOrigins(s.blocks, Next(s, step).state.blocks)
  {
    hide Each;
    hide TransactionTable.ConfirmBlock;
    hide UnconfirmBlock;
    hide LedgerBlock;
    hide UpdateConfirmation;
    hide UpdateValidation;
    hide Blocks.LinksOf;
  }

  lemma StepHasOrigin(s: State, genesis: FullBlock, steps: seq<Step>, x: Hash)
    requires steps != [] && Owed(s, steps[|steps| - 1]) && Next(s, steps[|steps| - 1]).ok
    requires HasOrigin(s.blocks, x, OriginOf(genesis, steps[..|steps| - 1], x))
    ensures HasOrigin(Next(s, steps[|steps| - 1]).state.blocks, x, OriginOf(genesis, steps, x))
  {
    hide UpdateConfirmation;
    var step := steps[|steps| - 1];
    if step.PushHeaderStep? && !step.known {
      hide Blocks.LinksOf;
    } else {
      hide Next;
      hide Owed;
      StepKeepsOrigins(s, step);
    }
  }

  lemma GenesisHasOrigin(genesis: FullBlock, x: Hash)
    requires GenesisOwed(genesis)
    ensures HasOrigin(PushGenesis(genesis).state.blocks, x, OriginOf(genesis, [], x))
  {
    hide PushGenesis;
    GenesisEstablishesInv(genesis);
    GenesisIndexes(genesis);
  }

  /** After every run from genesis, exactly the headers that it stored have rows, each with the parent, height and
      median time past that came with the header. */
  lemma {:induction false} RowIsAsStored(genesis: FullBlock, steps: seq<Step>, x: Hash)
    requires GenesisOwed(genesis) && LegalRun(PushGenesis(genesis).state, steps)
    ensures var b, origin := Run(PushGenesis(genesis).state, steps).blocks, OriginOf(genesis, steps, x);
            && (x in b.rows <==> origin.Some?)
            && (x in b.rows ==> b.rows[x].previous == origin.value.previous
                                && b.rows[x].height == origin.value.height && b.rows[x].time == origin.value.time)
    decreases |steps|
  {
    hide PushGenesis;
    hide GenesisOwed;
    hide Owed;
    hide Next;
    if steps == [] {
      GenesisHasOrigin(genesis, x);
    } else {
      var n := |steps| - 1;
      RowIsAsStored(genesis, steps[..n], x);
      StepHasOrigin(Run(PushGenesis(genesis).state, steps[..n]), genesis, steps, x);
    }
  }

  // ---------------------------------------------------------------- links

  /** The transactions that the run stored for the block. */
  function ListOf(genesis: FullBlock, steps: seq<Step>, x: Hash): seq<Hash>
    decreases |steps|
  {
    if steps == [] then if x == genesis.header.hash then genesis.TxLinks() else []
    else
      var n := |steps| - 1;
      if steps[n].UpdateStep? && steps[n].block.header.hash == x then steps[n].block.TxLinks()
      else ListOf(genesis, steps[..n], x)
  }

  ghost predicate HasList(b: Blocks, x: Hash, list: seq<Hash>) {
    if x in b.rows then b.LinksInRange(x) && b.LinksOf(x) == list else list == []
  }

  lemma StepHasList(s: State, genesis: FullBlock, steps: seq<Step>, x: Hash)
    requires steps != [] && Inv(s) && Owed(s, steps[|steps| - 1]) && Next(s, steps[|steps| - 1]).ok
    requires HasList(s.blocks, x, ListOf(genesis, steps[..|steps| - 1], x))
    ensures HasList(Next(s, steps[|steps| - 1]).state.blocks, x, ListOf(genesis, steps, x))
  {
    hide Inv;
    hide Next;
    hide Owed;
    hide Blocks.LinksInRange;
    hide Blocks.LinksOf;
    var step := steps[|steps| - 1];
    if step.UpdateStep? && step.block.header.hash == x {
      UpdatedList(s, step);
    } else if x in s.blocks.rows {
      StepLeavesLinks(s, step, x);
      InRangeIsStored(Next(s, step).state.blocks, x);
    } else {
      NewRowIsEmpty(s, step, x);
    }
  }

  lemma InRangeIsStored(b: Blocks, x: Hash)
    requires b.LinksInRange(x)
    ensures x in b.rows
  {
  }

  lemma UpdatedList(s: State, step: Step)
    requires Inv(s) && Owed(s, step) && step.UpdateStep?
    ensures var b := Next(s, step).state.blocks;
            && step.block.header.hash in b.rows && b.LinksInRange(step.block.header.hash)
            && b.LinksOf(step.block.header.hash) == step.block.TxLinks()
  {
    hide Inv;
    hide UpdateOwed;
    hide Update;
    UpdateKeepsInv(s, step.block, step.height);
  }

  lemma NewRowIsEmpty(s: State, step: Step, x: Hash)
    requires Owed(s, step) && Next(s, step).ok && x !in s.blocks.rows
    ensures var b := Next(s, step).state.blocks; x in b.rows ==> b.LinksInRange(x) && b.LinksOf(x) == []
  {
    hide UpdateConfirmation;
    if !step.PushHeaderStep? || step.known {
      hide Next;
      StepKeepsOrigins(s, step);
    }
  }

  /** After every run from genesis, the links of a stored block are those of the transactions that the run stored
      for it, and none when it stored none. */
  lemma {:induction false} LinksAreAsStored(genesis: FullBlock, steps: seq<Step>, x: Hash)
    requires GenesisOwed(genesis) && LegalRun(PushGenesis(genesis).state, steps)
    ensures var b := Run(PushGenesis(genesis).state, steps).blocks;
            if x in b.rows then b.LinksInRange(x) && b.LinksOf(x) == ListOf(genesis, steps, x)
            else ListOf(genesis, steps, x) == []
    decreases |steps|
  {
    hide PushGenesis;
    hide GenesisOwed;
    hide Inv;
    hide Owed;
    hide Next;
    GenesisEstablishesInv(genesis);
    if steps == [] {
      GenesisHasList(genesis, x);
    } else {
      var n := |steps| - 1;
      LinksAreAsStored(genesis, steps[..n], x);
      RunKeepsInv(PushGenesis(genesis).state, steps[..n]);
      StepHasList(Run(PushGenesis(genesis).state, steps[..n]), genesis, steps, x);
    }
  }

  lemma GenesisHasList(genesis: FullBlock, x: Hash)
    requires GenesisOwed(genesis)
    ensures HasList(PushGenesis(genesis).state.blocks, x, ListOf(genesis, [], x))
  {
    hide PushGenesis;
    hide Indexed;
    GenesisEstablishesInv(genesis);
    GenesisBlocks(genesis);
    GenesisIndexes(genesis);
  }

  // ---------------------------------------------------------------- verdicts

  /** The error code of a verdict on the block; zero is for a valid one. */
  function VerdictOf(step: Step, x: Hash): Option<nat> {
    match step
    case InvalidateStep(hash, error) => if hash == x then Some(error) else None
    case CandidateStep(block) => if block.header.hash == x then Some(0) else None
    case _ => None
  }

  /** The last verdict of the run on the block. */
  function Verdict(genesis: FullBlock, steps: seq<Step>, x: Hash): Option<nat>
    decreases |steps|
  {
    if steps == [] then if x == genesis.header.hash then Some(0) else None
    else
      var n := |steps| - 1;
      if VerdictOf(steps[n], x).Some? then VerdictOf(steps[n], x) else Verdict(genesis, steps[..n], x)
  }

  /** The last error code that the run gave the block; zero when it gave none. */
  function LastError(steps: seq<Step>, x: Hash): nat
    decreases |steps|
  {
    if steps == [] then 0
    else
      var n := |steps| - 1;
      match VerdictOf(steps[n], x)
      case Some(error) => if error != 0 then error else LastError(steps[..n], x)
      case None => LastError(steps[..n], x)
  }

  ghost predicate Judged(b: Blocks, x: Hash, verdict: Option<nat>, error: nat) {
    if x in b.rows then
      && (IsFailed(b.rows[x].state) <==> verdict.Some? && verdict.value != 0)
      && (IsValid(b.rows[x].state) <==> verdict == Some(0))
      && b.rows[x].checksum == error
    else verdict == None && error == 0
  }

  lemma ValidateJudges(b: Blocks, hash: Hash, given: nat, x: Hash, verdict: Option<nat>, error: nat)
    requires hash in b.rows && Judged(b, x, verdict, error)
    ensures Judged(Validate(b, hash, given).blocks, x, if x == hash then Some(given) else verdict,
                   if x == hash && given != 0 then given else error)
  {
    hide UpdateValidation;
    hide IsFailed;
    hide IsValid;
    ValidationBits(b.rows[hash].state, given == 0);
  }

  lemma ConfirmationKeepsVerdict(b: Blocks, hash: Hash, positive: bool, candidate: bool, x: Hash,
                                 verdict: Option<nat>, error: nat)
    requires hash in b.rows && Judged(b, x, verdict, error)
    ensures Judged(SetConfirmation(b, hash, positive, candidate), x, verdict, error)
  {
    hide UpdateConfirmation;
    hide IsFailed;
    hide IsValid;
    ConfirmationBits(b.rows[hash].state, positive, candidate);
  }

  lemma NewHeaderIsNotJudged(b: Blocks, header: Header, height: nat, time: nat, x: Hash, verdict: Option<nat>,
                             error: nat)
    requires header.hash !in b.rows && Judged(b, x, verdict, error)
    ensures Judged(StoreHeader(b, header, height, time), x, verdict, error)
  {
    hide IsFailed;
    hide IsValid;
    NewWord();
  }

  lemma SameRowsSameVerdict(b: Blocks, c: Blocks, x: Hash, verdict: Option<nat>, error: nat)
    requires Judged(b, x, verdict, error)
    requires c.rows.Keys == b.rows.Keys
    requires x in b.rows ==> c.rows[x].state == b.rows[x].state && c.rows[x].checksum == b.rows[x].checksum
    ensures Judged(c, x, verdict, error)
  {
  }

  lemma StepJudges(s: State, step: Step, x: Hash, verdict: Option<nat>, error: nat)
    requires Owed(s, step) && Next(s, step).ok && Judged(s.blocks, x, verdict, error)
    ensures var given := VerdictOf(step, x);
            Judged(Next(s, step).state.blocks, x, if given.Some? then given else verdict,
                   if given.Some? && given.value != 0 then given.value else error)
  {
    hide Each;
    hide TransactionTable.ConfirmBlock;
    hide UnconfirmBlock;
    hide LedgerBlock;
    hide SetConfirmation;
    hide StoreHeader;
    hide Validate;
    hide Judged;
    hide ConfirmOwed;
    hide UpdateOwed;
    hide Blocks.LinksOf;
    hide Blocks.LinksInRange;
    var b, u := s.blocks, Next(s, step).state.blocks;
    match step
    case StoreStep(tx, forks) =>
    case UpdateStep(block, height) => SameRowsSameVerdict(b, u, x, verdict, error);
    case InvalidateStep(hash, given) => ValidateJudges(b, hash, given, x, verdict, error);
    case CandidateStep(block) => ValidateJudges(b, block.header.hash, 0, x, verdict, error);
    case PushHeaderStep(header, known, height, time) =>
      PushedHeaderJudged(b, header, known, height, time, x, verdict, error);
    case PopHeaderStep(height) => DemotedJudged(b, b.candidate[height], height, true, x, verdict, error);
    case PushBlockStep(block, height) => PromotedJudged(b, block.header.hash, height, false, x, verdict, error);
    case PopBlockStep(height) => DemotedJudged(b, b.confirmed[height], height, false, x, verdict, error);
    case ConfirmStep(hash, height) => PromotedJudged(b, hash, height, false, x, verdict, error);
  }

  lemma PromotedJudged(b: Blocks, hash: Hash, height: nat, candidate: bool, x: Hash, verdict: Option<nat>, error: nat)
    requires Judged(b, x, verdict, error)
    ensures Judged(Promote(b, hash, height, candidate).blocks, x, verdict, error)
  {
    hide SetConfirmation;
    hide IsFailed;
    hide IsValid;
    if hash in b.rows {
      ConfirmationKeepsVerdict(b, hash, true, candidate, x, verdict, error);
    }
  }

  lemma DemotedJudged(b: Blocks, hash: Hash, height: nat, candidate: bool, x: Hash, verdict: Option<nat>, error: nat)
    requires Judged(b, x, verdict, error)
    ensures Judged(Demote(b, hash, height, candidate).blocks, x, verdict, error)
  {
    hide SetConfirmation;
    hide IsFailed;
    hide IsValid;
    if hash in b.rows {
      ConfirmationKeepsVerdict(b, hash, false, candidate, x, verdict, error);
    }
  }

  lemma PushedHeaderJudged(b: Blocks, header: Header, known: bool, height: nat, time: nat, x: Hash,
                           verdict: Option<nat>, error: nat)
    requires known == (header.hash in b.rows) && Judged(b, x, verdict, error)
    ensures var c := if known then b else StoreHeader(b, header, height, time);
            Judged(Promote(c, header.hash, height, true).blocks, x, verdict, error)
  {
    hide Judged;
    hide Promote;
    hide StoreHeader;
    if !known {
      NewHeaderIsNotJudged(b, header, height, time, x, verdict, error);
    }
    PromotedJudged(if known then b else StoreHeader(b, header, height, time), header.hash, height, true, x,
                   verdict, error);
  }

  /** After every run from genesis, a block has failed exactly when its last verdict was an error, is valid exactly
      when it was none, and its checksum field holds the last error code that it was given. */
  lemma {:induction false} StateIsLastVerdict(genesis: FullBlock, steps: seq<Step>, x: Hash)
    requires GenesisOwed(genesis) && LegalRun(PushGenesis(genesis).state, steps)
    ensures Judged(Run(PushGenesis(genesis).state, steps).blocks, x, Verdict(genesis, steps, x), LastError(steps, x))
    decreases |steps|
  {
    hide PushGenesis;
    hide GenesisOwed;
    hide Owed;
    hide Next;
    hide Judged;
    if steps == [] {
      GenesisIsJudged(genesis, x);
    } else {
      var n := |steps| - 1;
      StateIsLastVerdict(genesis, steps[..n], x);
      StepJudges(Run(PushGenesis(genesis).state, steps[..n]), steps[n], x,
                 Verdict(genesis, steps[..n], x), LastError(steps[..n], x));
    }
  }

  lemma GenesisIsJudged(genesis: FullBlock, x: Hash)
    requires GenesisOwed(genesis)
    ensures Judged(PushGenesis(genesis).state.blocks, x, Verdict(genesis, [], x), 0)
  {
    hide PushGenesis;
    GenesisEstablishesInv(genesis);
    GenesisIndexes(genesis);
    GenesisWord();
    assert !IsFailed(VALID | CONFIRMED);
  }

  /** After every run from genesis, the checksum field of a failed block holds the error code of the last verdict. */
  lemma FailedKeepsItsError(genesis: FullBlock, steps: seq<Step>, x: Hash)
    requires GenesisOwed(genesis) && LegalRun(PushGenesis(genesis).state, steps)
    requires var b := Run(PushGenesis(genesis).state, steps).blocks; x in b.rows && IsFailed(b.rows[x].state)
    ensures var b := Run(PushGenesis(genesis).state, steps).blocks;
            b.rows[x].checksum != 0 && Verdict(genesis, steps, x) == Some(b.rows[x].checksum)
  {
    hide PushGenesis;
    hide GenesisOwed;
    StateIsLastVerdict(genesis, steps, x);
    LastVerdictIsLastError(genesis, steps, x);
  }

  lemma {:induction false} LastVerdictIsLastError(genesis: FullBlock, steps: seq<Step>, x: Hash)
    ensures var verdict := Verdict(genesis, steps, x);
            verdict.Some? && verdict.value != 0 ==> LastError(steps, x) == verdict.value
    decreases |steps|
  {
    if steps != [] {
      LastVerdictIsLastError(genesis, steps[..|steps| - 1], x);
    }
  }

  // ---------------------------------------------------------------- the times of confirmed blocks

  /** The median time past that the run last confirmed a block of this height with: that of the block pushed, or
      that of the header confirmed by its hash. */
  function TimeAt(genesis: FullBlock, steps: seq<Step>, k: nat): nat
    decreases |steps|
  {
    if steps == [] then genesis.time
    else
      var n := |steps| - 1;
      match steps[n]
      case PushBlockStep(block, height) => if height == k then block.time else TimeAt(genesis, steps[..n], k)
      case ConfirmStep(hash, height) =>
        var origin := OriginOf(genesis, steps[..n], hash);
        if height == k && origin.Some? then origin.value.time else TimeAt(genesis, steps[..n], k)
      case _ => TimeAt(genesis, steps[..n], k)
  }

  /** Only the three block operations change the confirmed blocks. */
  lemma StepMovesChain(s: State, step: Step)
    requires Inv(s) && Owed(s, step) && Next(s, step).ok
    ensures var chain := Next(s, step).state.chain;
            match step
            case PushBlockStep(block, height) =>
              && |s.chain| == height && |chain| == height + 1 && chain[..height] == s.chain
              && chain[height].time == block.time
            case ConfirmStep(hash, height) =>
              && |s.chain| == height && |chain| == height + 1 && chain[..height] == s.chain
              && hash in s.blocks.rows && chain[height].time == s.blocks.rows[hash].time
            case PopBlockStep(height) => |s.chain| == height + 1 && chain == s.chain[..height]
            case _ => chain == s.chain
  {
    hide Inv;
    hide Each;
    hide TransactionTable.ConfirmBlock;
    hide UnconfirmBlock;
    hide ValidNext;
    hide Unmoved;
    hide Deconfirmed;
    hide PopBlock;
    hide ConfirmLinks;
    hide UpdateConfirmation;
    TopMatchesChain(s);
    match step
    case PushBlockStep(block, height) =>
      ConfirmKeepsInv(s, block.header.hash, block.TxLinks(), height, block.time);
    case ConfirmStep(hash, height) =>
      ConfirmKeepsInv(s, hash, s.blocks.LinksOf(hash), height, s.blocks.rows[hash].time);
    case PopBlockStep(height) => PopBlockKeepsInv(s);
    case _ =>
  }

  lemma TopMatchesChain(s: State)
    requires Inv(s)
    ensures |s.chain| == |s.blocks.confirmed|
  {
  }

  /** After every run from genesis, each confirmed block has the time it was confirmed with; one confirmed by its
      hash has the time that came with its header. */
  lemma {:induction false} ChainHasItsTimes(genesis: FullBlock, steps: seq<Step>, k: nat)
    requires GenesisOwed(genesis) && LegalRun(PushGenesis(genesis).state, steps)
    requires k < |Run(PushGenesis(genesis).state, steps).chain|
    ensures Run(PushGenesis(genesis).state, steps).chain[k].time == TimeAt(genesis, steps, k)
    decreases |steps|
  {
    hide PushGenesis;
    hide GenesisOwed;
    hide Inv;
    hide Owed;
    hide Next;
    hide OriginOf;
    GenesisEstablishesInv(genesis);
    if steps == [] {
      GenesisChain(genesis);
    } else {
      var n := |steps| - 1;
      var s := Run(PushGenesis(genesis).state, steps[..n]);
      RunKeepsInv(PushGenesis(genesis).state, steps[..n]);
      StepMovesChain(s, steps[n]);
      if k < |s.chain| {
        ChainHasItsTimes(genesis, steps[..n], k);
      }
      if steps[n].ConfirmStep? {
        RowIsAsStored(genesis, steps[..n], steps[n].hash);
      }
    }
  }

  lemma GenesisChain(genesis: FullBlock)
    requires GenesisOwed(genesis)
    ensures var chain := PushGenesis(genesis).state.chain; |chain| == 1 && chain[0].time == genesis.time
  {
    hide Each;
    hide TransactionTable.ConfirmBlock;
    hide Inv;
    hide UpdateConfirmation;
    hide UpdateValidation;
    GenesisEstablishesInv(genesis);
  }

  /** Confirming a block by its hash gives the block and each of its transactions the time that came with the
      header, and each transaction its height and place. */
  lemma ConfirmedByHashHasHeaderTime(genesis: FullBlock, steps: seq<Step>, hash: Hash, height: nat)
    requires GenesisOwed(genesis) && LegalRun(PushGenesis(genesis).state, steps)
    requires Owed(Run(PushGenesis(genesis).state, steps), ConfirmStep(hash, height))
    ensures var u := Next(Run(PushGenesis(genesis).state, steps), ConfirmStep(hash, height)).state;
            var list := ListOf(genesis, steps, hash);
            && OriginOf(genesis, steps, hash).Some?
            && var time := OriginOf(genesis, steps, hash).value.time;
               && |u.chain| == height + 1 && u.chain[height].time == time
               && forall j :: 0 <= j < |list| ==>
                    && list[j] in u.table && u.table[list[j]].height == height
                    && u.table[list[j]].position == j && u.table[list[j]].time == time
  {
    hide PushGenesis;
    hide GenesisOwed;
    hide Inv;
    hide ConfirmOwed;
    hide Unmoved;
    hide LedgerBlock;
    hide ConfirmLinks;
    hide OriginOf;
    hide ListOf;
    var s, step := Run(PushGenesis(genesis).state, steps), ConfirmStep(hash, height);
    GenesisEstablishesInv(genesis);
    RunKeepsInv(PushGenesis(genesis).state, steps);
    StepKeepsInv(s, step);
    StepMovesChain(s, step);
    RowIsAsStored(genesis, steps, hash);
    LinksAreAsStored(genesis, steps, hash);
    var u := Next(s, step).state;
    StepLeavesLinks(s, step, hash);
    ConfirmedOnTop(s, hash, height);
    var list := ListOf(genesis, steps, hash);
    forall j | 0 <= j < |list|
      ensures list[j] in u.table && u.table[list[j]].height == height && u.table[list[j]].position == j
              && u.table[list[j]].time == u.chain[height].time
    {
      PlacedOnIndex(u, height, j);
    }
  }

  lemma ConfirmedOnTop(s: State, hash: Hash, height: nat)
    requires Inv(s) && Owed(s, ConfirmStep(hash, height))
    ensures var u := Next(s, ConfirmStep(hash, height)).state;
            |u.blocks.confirmed| == height + 1 && u.blocks.confirmed[height] == hash
  {
    hide Inv;
    hide LedgerBlock;
    hide ValidNext;
    hide Unmoved;
    hide ConfirmLinks;
    ConfirmKeepsInv(s, hash, s.blocks.LinksOf(hash), height, s.blocks.rows[hash].time);
  }

  /** A transaction of a confirmed block is stored with that block's height, its place there, and the block's time. */
  lemma PlacedOnIndex(s: State, k: nat, j: nat)
    requires Inv(s) && k < |s.blocks.confirmed| && s.blocks.LinksInRange(s.blocks.confirmed[k])
    requires j < |s.blocks.LinksOf(s.blocks.confirmed[k])|
    ensures var h := s.blocks.LinksOf(s.blocks.confirmed[k])[j];
            && |s.chain| == |s.blocks.confirmed| && h in s.table && s.table[h].HasPosition()
            && s.table[h].height == k && s.table[h].position == j && s.table[h].time == s.chain[k].time
  {
    hide Indexed;
    hide Marks;
    hide Populated;
    hide ValidChain;
    hide Summarize;
    assert TiedAt(s, k);
    var tx := s.chain[k].txs[j];
    assert Links(s.chain[k].txs)[j] == tx.hash && tx in s.chain[k].txs && Stored(s.table, tx);
    LocatedWhereItSits(s.chain, tx.hash, k, j);
    assert RowAgrees(tx.hash, s.table[tx.hash], Summarize(s.chain));
  }

  // ---------------------------------------------------------------- reorganizing headers

  /** The row of a pushed header: one that was stored before differs in its state at most; a new one has what came
      with the header. */
  ghost predicate StoredAs(b: Blocks, c: Blocks, x: Headers.Incoming, height: nat) {
    && x.header.hash in c.rows
    && var row := c.rows[x.header.hash];
       && row.previous == x.header.previous && row.height == height
       && if x.known then x.header.hash in b.rows && row == b.rows[x.header.hash].(state := row.state)
          else x.header.hash !in b.rows && row.time == x.time && row.count == 0 && row.checksum == 0
  }

  ghost predicate OthersAreKept(b: Blocks, c: Blocks, hashes: seq<Hash>) {
    && b.rows.Keys <= c.rows.Keys
    && (forall y :: y in c.rows && y !in b.rows ==> y in hashes)
    && forall y :: y in b.rows && y !in hashes ==> c.rows[y] == b.rows[y]
  }

  lemma PushedRow(u: State, x: Headers.Incoming, height: nat)
    requires Inv(u) && PushHeaderOwed(u, x.header, x.known, height)
    ensures var v := PushHeader(u, x.header, x.known, height, x.time).state;
            && StoredAs(u.blocks, v.blocks, x, height) && OthersAreKept(u.blocks, v.blocks, [x.header.hash])
            && v.blocks.candidate == u.blocks.candidate + [x.header.hash] && x.header.hash !in u.blocks.candidate
  {
    hide UpdateConfirmation;
    hide Marks;
    hide Tied;
    hide Confirmations;
    hide Populated;
    hide Words;
    Headers.PushOne(u, x, height);
    if x.known {
      NextHeight(u.blocks, u.blocks.candidate, x.header.hash);
    }
  }

  lemma StoredAsStays(b: Blocks, c: Blocks, d: Blocks, x: Headers.Incoming, height: nat, last: Hash)
    requires StoredAs(b, c, x, height) && OthersAreKept(c, d, [last]) && x.header.hash != last
    ensures StoredAs(b, d, x, height)
  {
  }

  lemma LastStoredAs(b: Blocks, c: Blocks, d: Blocks, hashes: seq<Hash>, x: Headers.Incoming, height: nat)
    requires OthersAreKept(b, c, hashes) && StoredAs(c, d, x, height) && x.header.hash !in hashes
    ensures StoredAs(b, d, x, height)
  {
  }

  lemma OthersOfBoth(b: Blocks, c: Blocks, d: Blocks, hashes: seq<Hash>, last: Hash)
    requires OthersAreKept(b, c, hashes) && OthersAreKept(c, d, [last])
    ensures OthersAreKept(b, d, hashes + [last])
  {
  }

  lemma {:induction false} PushedRows(s: State, headers: seq<Headers.Incoming>, first: nat)
    requires Inv(s) && Headers.PushesOwed(s, headers, first)
    ensures var c, hashes := Headers.PushAll(s, headers, first).state.blocks, Headers.IncomingHashes(headers);
            && (forall i :: 0 <= i < |headers| ==> StoredAs(s.blocks, c, headers[i], first + i))
            && OthersAreKept(s.blocks, c, hashes) && (forall y :: y in hashes ==> y in c.candidate)
    decreases |headers|
  {
    hide Inv;
    hide PushHeader;
    hide PushHeaderOwed;
    hide StoredAs;
    hide OthersAreKept;
    hide Headers.Moved;
    if headers == [] {
      NothingPushed(s.blocks);
    } else {
      var n := |headers| - 1;
      var front, x := headers[..n], headers[n];
      PushedRows(s, front, first);
      Headers.PushAllExact(s, front, first);
      var u := Headers.PushAll(s, front, first).state;
      PushedRow(u, x, first + n);
      var v := Headers.PushAll(s, headers, first).state;
      var hashes := Headers.IncomingHashes(front);
      assert Headers.IncomingHashes(headers) == hashes + [x.header.hash];
      LastStoredAs(s.blocks, u.blocks, v.blocks, hashes, x, first + n);
      OthersOfBoth(s.blocks, u.blocks, v.blocks, hashes, x.header.hash);
      forall i | 0 <= i < n ensures StoredAs(s.blocks, v.blocks, headers[i], first + i) {
        assert front[i] == headers[i] && hashes[i] == front[i].header.hash && hashes[i] in hashes;
        StoredAsStays(s.blocks, u.blocks, v.blocks, headers[i], first + i, x.header.hash);
      }
    }
  }

  lemma NothingPushed(b: Blocks)
    ensures OthersAreKept(b, b, [])
  {
  }

  /** After a header reorganization each incoming header that was new is stored with the parent, the height and the
      median time past that came with it, and the row of one that was stored differs in its state at most. */
  lemma IncomingAreAsGiven(s: State, fork: nat, incoming: seq<Headers.Incoming>, i: nat)
    requires Inv(s) && fork < |s.blocks.candidate| && Headers.PopsOwed(s, fork)
    requires Headers.PushesOwed(Headers.PopAbove(s, fork).state, incoming, fork + 1) && i < |incoming|
    ensures var c, x := Headers.Reorganize(s, fork, incoming).state.blocks, incoming[i];
            && x.header.hash in c.rows
            && var row := c.rows[x.header.hash];
               && row.previous == x.header.previous && row.height == fork + 1 + i
               && if x.known
                  then x.header.hash in s.blocks.rows && row == s.blocks.rows[x.header.hash].(state := row.state)
                  else x.header.hash !in s.blocks.rows && row.time == x.time && row.count == 0 && row.checksum == 0
  {
    hide Inv;
    hide Headers.PopsOwed;
    hide Headers.PushesOwed;
    hide Headers.PopAbove;
    hide Headers.PushAll;
    hide UpdateConfirmation;
    Headers.PopAboveExact(s, fork);
    PushedRows(Headers.PopAbove(s, fork).state, incoming, fork + 1);
  }
}
