/** Publishing the transaction links of a block while other threads read it: updates and queries as
    interleaved steps over the link array and the start and count fields of the block rows. An agent is
    one update or one query. Every shared read and write of a field or a link is a step of its own. */
module Publication {
  import opened Types

  type Agent = nat

  /** A link cell remembers which update it was allocated for. */
  datatype Cell = Cell(holder: Agent, value: Option<Hash>)

  datatype Fields = Fields(start: nat, count: nat)

  datatype Phase =
    | Idle
    // An update: the links it was given, where they go, and how many are written.
    | Writing(block: Hash, txs: seq<Hash>, start: nat, done: nat)
    | Locked(block: Hash, txs: seq<Hash>, start: nat)         // holds the metadata lock
    | Half(block: Hash, txs: seq<Hash>, start: nat)           // the start field is written
    | Full(block: Hash, txs: seq<Hash>, start: nat)           // the count field is written
    | Published(block: Hash, txs: seq<Hash>, start: nat)      // unlocked
    // A query: the fields are read under the shared lock, the links after it.
    | Looking(block: Hash)
    | SawStart(block: Hash, start: nat)
    | SawBoth(block: Hash, start: nat, count: nat)
    | Walking(block: Hash, start: nat, count: nat, links: seq<Hash>)
  {
    predicate Owns() {
      Locked? || Half? || Full?
    }

    predicate Shares() {
      Looking? || SawStart? || SawBoth?
    }

    predicate Updates() {
      Writing? || Owns() || Published?
    }
  }

  datatype State = State(
    cells: seq<Cell>, rows: map<Hash, Fields>, sharers: set<Agent>, owner: Option<Agent>, phases: map<Agent, Phase>)
  {
    function PhaseOf(a: Agent): Phase {
      if a in phases then phases[a] else Idle
    }

    function With(a: Agent, phase: Phase): State {
      this.(phases := phases[a := phase])
    }
  }

  /** Block headers are stored without transactions. */
  predicate Init(s: State) {
    && s.cells == [] && s.sharers == {} && s.owner == None && s.phases == map[]
    && forall block :: block in s.rows ==> s.rows[block] == Fields(0, 0)
  }

  // ---------------------------------------------------------------- steps

  datatype Step =
    | Associate(block: Hash, txs: seq<Hash>)  // allocate cells for the links
    | WriteLink
    | Lock
    | WriteStart
    | WriteCount
    | Unlock
    | LockShared(block: Hash)
    | ReadStart
    | ReadCount
    | UnlockShared
    | ReadLink

  predicate Enabled(s: State, a: Agent, step: Step) {
    var phase := s.PhaseOf(a);
    match step
    // The fields hold four and two bytes.
    case Associate(block, txs) => phase.Idle? && block in s.rows && |s.cells| <= MAX_UINT32 && |txs| <= MAX_UINT16
    case WriteLink => phase.Writing? && phase.done < |phase.txs| && phase.start + phase.done < |s.cells|
    case Lock => phase.Writing? && phase.done == |phase.txs| && s.owner == None && s.sharers == {}
    case WriteStart => phase.Locked? && phase.block in s.rows
    case WriteCount => phase.Half? && phase.block in s.rows
    case Unlock => phase.Full?
    case LockShared(block) => phase.Idle? && block in s.rows && s.owner == None
    case ReadStart => phase.Looking? && phase.block in s.rows
    case ReadCount => phase.SawStart? && phase.block in s.rows
    case UnlockShared => phase.SawBoth?
    case ReadLink =>
      && phase.Walking? && |phase.links| < phase.count && phase.start + |phase.links| < |s.cells|
      && s.cells[phase.start + |phase.links|].value.Some?
  }

  function NewCells(a: Agent, count: nat): (cells: seq<Cell>)
    ensures |cells| == count
  {
    seq(count, i => Cell(a, None))
  }

  function Next(s: State, a: Agent, step: Step): State
    requires Enabled(s, a, step)
  {
    var phase := s.PhaseOf(a);
    match step
    case Associate(block, txs) =>
      // Nothing is allocated for a block without transactions.
      if txs == [] then s.With(a, Writing(block, txs, 0, 0))
      else s.(cells := s.cells + NewCells(a, |txs|)).With(a, Writing(block, txs, |s.cells|, 0))
    case WriteLink =>
      s.(cells := s.cells[phase.start + phase.done := Cell(a, Some(phase.txs[phase.done]))])
      .With(a, phase.(done := phase.done + 1))
    case Lock => s.(owner := Some(a)).With(a, Locked(phase.block, phase.txs, phase.start))
    case WriteStart =>
      s.(rows := s.rows[phase.block := Fields(phase.start, s.rows[phase.block].count)])
      .With(a, Half(phase.block, phase.txs, phase.start))
    case WriteCount =>
      s.(rows := s.rows[phase.block := Fields(s.rows[phase.block].start, |phase.txs|)])
      .With(a, Full(phase.block, phase.txs, phase.start))
    case Unlock => s.(owner := None).With(a, Published(phase.block, phase.txs, phase.start))
    case LockShared(block) => s.(sharers := s.sharers + {a}).With(a, Looking(block))
    case ReadStart => s.With(a, SawStart(phase.block, s.rows[phase.block].start))
    case ReadCount => s.With(a, SawBoth(phase.block, phase.start, s.rows[phase.block].count))
    case UnlockShared => s.(sharers := s.sharers - {a}).With(a, Walking(phase.block, phase.start, phase.count, []))
    case ReadLink =>
      s.With(a, phase.(links := phase.links + [s.cells[phase.start + |phase.links|].value.value]))
  }

  // ---------------------------------------------------------------- the invariant

  ghost predicate LockedBy(s: State, a: Agent) {
    var phase := s.PhaseOf(a);
    && (a in s.sharers <==> phase.Shares())
    && (s.owner == Some(a) <==> phase.Owns())
  }

  /** The cells of an update are its own, and the links it has written so far are in them. */
  ghost predicate Cells(s: State, a: Agent, txs: seq<Hash>, start: nat, done: nat) {
    && done <= |txs|
    && (txs != [] ==> start + |txs| <= |s.cells|)
    && (txs == [] ==> start == 0)
    && (forall i :: start <= i < start + |txs| ==> s.cells[i].holder == a)
    && (forall i :: 0 <= i < done ==> s.cells[start + i].value == Some(txs[i]))
  }

  /** This update has written both fields of the block, so its links are complete. */
  ghost predicate Complete(s: State, w: Agent, block: Hash, start: nat, count: nat) {
    var phase := s.PhaseOf(w);
    && (phase.Full? || phase.Published?)
    && phase.block == block && phase.start == start && |phase.txs| == count
  }

  /** A block without transactions, or the fields that one update wrote. */
  ghost predicate Consistent(s: State, block: Hash, start: nat, count: nat) {
    (start == 0 && count == 0) || exists w :: Complete(s, w, block, start, count)
  }

  ghost predicate LinksRead(s: State, block: Hash, start: nat, count: nat, links: seq<Hash>) {
    |links| <= count
    && (count == 0 || exists w :: Complete(s, w, block, start, count) && links == s.PhaseOf(w).txs[..|links|])
  }

  ghost predicate Knows(s: State, a: Agent) {
    match s.PhaseOf(a)
    case Idle => true
    case Writing(block, txs, start, done) => block in s.rows && Cells(s, a, txs, start, done)
    case Locked(block, txs, start) => block in s.rows && Cells(s, a, txs, start, |txs|)
    case Half(block, txs, start) => block in s.rows && Cells(s, a, txs, start, |txs|) && s.rows[block].start == start
    case Full(block, txs, start) => block in s.rows && Cells(s, a, txs, start, |txs|)
    case Published(block, txs, start) => block in s.rows && Cells(s, a, txs, start, |txs|)
    case Looking(block) => block in s.rows
    case SawStart(block, start) => block in s.rows && start == s.rows[block].start
    case SawBoth(block, start, count) => Consistent(s, block, start, count)
    case Walking(block, start, count, links) => LinksRead(s, block, start, count, links)
  }

  /** Between the two field writes the row is in no consistent state. */
  ghost predicate Torn(s: State, block: Hash) {
    s.owner.Some? && s.PhaseOf(s.owner.value).Half? && s.PhaseOf(s.owner.value).block == block
  }

  ghost predicate RowsConsistent(s: State) {
    forall block :: block in s.rows ==> Torn(s, block) || Consistent(s, block, s.rows[block].start, s.rows[block].count)
  }

  ghost predicate Inv(s: State) {
    && (s.owner.Some? ==> s.sharers == {})
    && RowsConsistent(s)
    && forall a: Agent :: LockedBy(s, a) && Knows(s, a)
  }

  // ---------------------------------------------------------------- steps keep the invariant

  lemma StepKeepsLock(s: State, a: Agent, step: Step)
    requires (s.owner.Some? ==> s.sharers == {}) && (forall b: Agent :: LockedBy(s, b)) && Enabled(s, a, step)
    ensures var t := Next(s, a, step);
            && (t.owner.Some? ==> t.sharers == {}) && forall b: Agent :: LockedBy(t, b)
  {
    var t := Next(s, a, step);
    assert LockedBy(s, a);
    forall b: Agent ensures LockedBy(t, b) {
      assert LockedBy(s, b);
    }
  }

  /** The cells of another update stay as they are. */
  lemma CellsStay(s: State, a: Agent, step: Step, w: Agent, txs: seq<Hash>, start: nat, done: nat)
    requires Enabled(s, a, step) && Knows(s, a) && w != a && Cells(s, w, txs, start, done)
    ensures Cells(Next(s, a, step), w, txs, start, done)
  {
    if step.WriteLink? {
      var phase := s.PhaseOf(a);
      assert s.cells[phase.start + phase.done].holder == a;
    }
  }

  /** A complete update stays complete. */
  lemma CompleteStays(s: State, a: Agent, step: Step, w: Agent, block: Hash, start: nat, count: nat)
    requires Enabled(s, a, step) && Complete(s, w, block, start, count)
    ensures Complete(Next(s, a, step), w, block, start, count)
    ensures Next(s, a, step).PhaseOf(w).txs == s.PhaseOf(w).txs
  {
  }

  lemma ConsistentStays(s: State, a: Agent, step: Step, block: Hash, start: nat, count: nat)
    requires Enabled(s, a, step) && Consistent(s, block, start, count)
    ensures Consistent(Next(s, a, step), block, start, count)
  {
    hide Complete;
    hide Next;
    hide Enabled;
    if !(start == 0 && count == 0) {
      var w :| Complete(s, w, block, start, count);
      CompleteStays(s, a, step, w, block, start, count);
    }
  }

  lemma LinksReadStay(s: State, a: Agent, step: Step, block: Hash, start: nat, count: nat, links: seq<Hash>)
    requires Enabled(s, a, step) && LinksRead(s, block, start, count, links)
    ensures LinksRead(Next(s, a, step), block, start, count, links)
  {
    hide Next;
    hide Enabled;
    if count != 0 {
      var w :| Complete(s, w, block, start, count) && links == s.PhaseOf(w).txs[..|links|];
      CompleteStays(s, a, step, w, block, start, count);
    }
  }

  /** What another agent knows survives the step. */
  lemma OthersKnow(s: State, a: Agent, step: Step, b: Agent)
    requires Inv(s) && Enabled(s, a, step) && b != a
    ensures Knows(Next(s, a, step), b)
  {
    hide Cells;
    hide Consistent;
    hide LinksRead;
    hide RowsConsistent;
    var t := Next(s, a, step);
    assert LockedBy(s, a) && LockedBy(s, b) && Knows(s, a) && Knows(s, b);
    assert t.PhaseOf(b) == s.PhaseOf(b);
    match s.PhaseOf(b)
    case Writing(block, txs, start, done) => CellsStay(s, a, step, b, txs, start, done);
    case Locked(block, txs, start) => CellsStay(s, a, step, b, txs, start, |txs|);
    case Half(block, txs, start) => CellsStay(s, a, step, b, txs, start, |txs|);
    case Full(block, txs, start) => CellsStay(s, a, step, b, txs, start, |txs|);
    case Published(block, txs, start) => CellsStay(s, a, step, b, txs, start, |txs|);
    case SawBoth(block, start, count) => ConsistentStays(s, a, step, block, start, count);
    case Walking(block, start, count, links) => LinksReadStay(s, a, step, block, start, count, links);
    case _ =>
  }

  lemma UpdaterKnows(s: State, a: Agent, step: Step)
    requires Inv(s) && Enabled(s, a, step) && Next(s, a, step).PhaseOf(a).Updates()
    ensures Knows(Next(s, a, step), a)
  {
    hide Consistent;
    hide LinksRead;
    hide RowsConsistent;
    assert LockedBy(s, a) && Knows(s, a);
  }

  lemma ReaderKnows(s: State, a: Agent, step: Step)
    requires Inv(s) && Enabled(s, a, step) && !Next(s, a, step).PhaseOf(a).Updates()
    ensures Knows(Next(s, a, step), a)
  {
    hide Complete;
    var t := Next(s, a, step);
    assert LockedBy(s, a) && Knows(s, a);
    match step
    case ReadCount =>
      var block := s.PhaseOf(a).block;
      assert Consistent(s, block, s.rows[block].start, s.rows[block].count);
      ConsistentStays(s, a, step, block, s.rows[block].start, s.rows[block].count);
    case UnlockShared => StartsWalking(s, a);
    case ReadLink => WalksOn(s, a);
    case _ =>
  }

  lemma StartsWalking(s: State, a: Agent)
    requires Enabled(s, a, UnlockShared) && Knows(s, a)
    ensures Knows(Next(s, a, UnlockShared), a)
  {
    hide Complete;
    var phase := s.PhaseOf(a);
    if phase.count != 0 {
      var w :| Complete(s, w, phase.block, phase.start, phase.count);
      CompleteStays(s, a, UnlockShared, w, phase.block, phase.start, phase.count);
    }
  }

  lemma WalksOn(s: State, a: Agent)
    requires Inv(s) && Enabled(s, a, ReadLink)
    ensures Knows(Next(s, a, ReadLink), a)
  {
    hide RowsConsistent;
    hide Consistent;
    var phase := s.PhaseOf(a);
    assert Knows(s, a);
    var n := |phase.links|;
    var w :| Complete(s, w, phase.block, phase.start, phase.count) && phase.links == s.PhaseOf(w).txs[..n];
    assert Knows(s, w);
    var txs := s.PhaseOf(w).txs;
    assert s.cells[phase.start + n].value == Some(txs[n]);
    CompleteStays(s, a, ReadLink, w, phase.block, phase.start, phase.count);
    assert phase.links + [txs[n]] == txs[..n + 1];
  }

  lemma RowsStayConsistent(s: State, a: Agent, step: Step)
    requires Inv(s) && Enabled(s, a, step)
    ensures RowsConsistent(Next(s, a, step))
  {
    hide Consistent;
    hide Cells;
    hide LinksRead;
    var t := Next(s, a, step);
    assert LockedBy(s, a) && Knows(s, a);
    forall block | block in t.rows
      ensures Torn(t, block) || Consistent(t, block, t.rows[block].start, t.rows[block].count)
    {
      if step.WriteCount? && block == s.PhaseOf(a).block {
        Completes(s, a);
      } else if !Torn(s, block) && t.rows[block] == s.rows[block] {
        ConsistentStays(s, a, step, block, s.rows[block].start, s.rows[block].count);
      } else if s.owner.Some? {
        assert LockedBy(s, s.owner.value);
      }
    }
  }

  lemma Completes(s: State, a: Agent)
    requires Enabled(s, a, WriteCount) && Knows(s, a)
    ensures var t := Next(s, a, WriteCount);
            var block := s.PhaseOf(a).block;
            Consistent(t, block, t.rows[block].start, t.rows[block].count)
  {
    var t := Next(s, a, WriteCount);
    var block := s.PhaseOf(a).block;
    assert Complete(t, a, block, t.rows[block].start, t.rows[block].count);
  }

  /** Every step of every agent keeps the invariant. */
  lemma StepKeepsInv(s: State, a: Agent, step: Step)
    requires Inv(s) && Enabled(s, a, step)
    ensures Inv(Next(s, a, step))
  {
    hide Next;
    hide Enabled;
    hide Knows;
    hide RowsConsistent;
    var t := Next(s, a, step);
    StepKeepsLock(s, a, step);
    RowsStayConsistent(s, a, step);
    forall b: Agent ensures Knows(t, b) {
      if b != a {
        OthersKnow(s, a, step, b);
      } else if t.PhaseOf(a).Updates() {
        UpdaterKnows(s, a, step);
      } else {
        ReaderKnows(s, a, step);
      }
    }
  }

  // ---------------------------------------------------------------- all interleavings

  ghost predicate Reaches(s: State, schedule: seq<(Agent, Step)>, t: State)
    decreases |schedule|
  {
    if schedule == [] then s == t
    else
      var n := |schedule| - 1;
      exists u :: Reaches(s, schedule[..n], u) && Enabled(u, schedule[n].0, schedule[n].1)
                  && t == Next(u, schedule[n].0, schedule[n].1)
  }

  ghost predicate Reachable(s: State) {
    exists s0, schedule :: Init(s0) && Reaches(s0, schedule, s)
  }

  lemma PublishedStays(s: State, a: Agent, step: Step)
    requires Enabled(s, a, step)
    ensures forall w :: s.PhaseOf(w).Published? ==> Next(s, a, step).PhaseOf(w) == s.PhaseOf(w)
  {
  }

  lemma {:induction false} ScheduleKeepsInv(s: State, schedule: seq<(Agent, Step)>, t: State)
    requires Inv(s) && Reaches(s, schedule, t)
    ensures Inv(t)
    ensures forall w :: s.PhaseOf(w).Published? ==> t.PhaseOf(w) == s.PhaseOf(w)
    decreases |schedule|
  {
    hide Inv;
    hide Enabled;
    hide Next;
    if schedule != [] {
      var n := |schedule| - 1;
      var u :| Reaches(s, schedule[..n], u) && Enabled(u, schedule[n].0, schedule[n].1)
            && t == Next(u, schedule[n].0, schedule[n].1);
      ScheduleKeepsInv(s, schedule[..n], u);
      StepKeepsInv(u, schedule[n].0, schedule[n].1);
      PublishedStays(u, schedule[n].0, schedule[n].1);
    }
  }

  lemma ReachableInv(s: State)
    requires Reachable(s)
    ensures Inv(s)
  {
    var s0, schedule :| Init(s0) && Reaches(s0, schedule, s);
    assert Inv(s0);
    ScheduleKeepsInv(s0, schedule, s);
  }

  /** In every interleaving, what a finished query has read is nothing, or exactly the list that one
      complete update of that block was given. */
  lemma QueriesSeeOneList(s: State, a: Agent)
    requires Reachable(s) && s.PhaseOf(a).Walking? && |s.PhaseOf(a).links| == s.PhaseOf(a).count
    ensures s.PhaseOf(a).links == [] ||
            exists w :: Complete(s, w, s.PhaseOf(a).block, s.PhaseOf(a).start, s.PhaseOf(a).count)
                        && s.PhaseOf(a).links == s.PhaseOf(w).txs
  {
    ReachableInv(s);
    assert Knows(s, a);
    if s.PhaseOf(a).count != 0 {
      var phase := s.PhaseOf(a);
      var w :| Complete(s, w, phase.block, phase.start, phase.count)
               && phase.links == s.PhaseOf(w).txs[..|phase.links|];
      assert s.PhaseOf(w).txs[..|phase.links|] == s.PhaseOf(w).txs;
    }
  }

  /** A query that has read the fields can read every link they announce, without waiting for any update. */
  lemma QueriesNeverWaitForLinks(s: State, a: Agent)
    requires Reachable(s) && s.PhaseOf(a).Walking? && |s.PhaseOf(a).links| < s.PhaseOf(a).count
    ensures Enabled(s, a, ReadLink)
  {
    ReachableInv(s);
    assert Knows(s, a);
    var phase := s.PhaseOf(a);
    var w :| Complete(s, w, phase.block, phase.start, phase.count) && phase.links == s.PhaseOf(w).txs[..|phase.links|];
    assert Knows(s, w);
    assert s.cells[phase.start + |phase.links|].value == Some(s.PhaseOf(w).txs[|phase.links|]);
  }

  lemma PublishedCell(s: State, w: Agent, i: nat)
    requires Inv(s) && s.PhaseOf(w).Published? && i < |s.PhaseOf(w).txs|
    ensures var phase := s.PhaseOf(w);
            phase.start + i < |s.cells| && s.cells[phase.start + i].value == Some(phase.txs[i])
  {
    assert Knows(s, w);
  }

  /** A published list is permanent: whatever any agents do afterwards, its links stay where they are. */
  lemma PublishedIsPermanent(s: State, schedule: seq<(Agent, Step)>, t: State, w: Agent, i: nat)
    requires Reachable(s) && Reaches(s, schedule, t)
    requires s.PhaseOf(w).Published? && i < |s.PhaseOf(w).txs|
    ensures var phase := s.PhaseOf(w);
            && phase.start + i < |s.cells| && phase.start + i < |t.cells|
            && t.cells[phase.start + i].value == s.cells[phase.start + i].value == Some(phase.txs[i])
  {
    hide Inv;
    hide Reaches;
    ReachableInv(s);
    ScheduleKeepsInv(s, schedule, t);
    PublishedCell(s, w, i);
    PublishedCell(t, w, i);
  }

  /** When a block is only ever updated with one list, a finished query reads no transactions or that list. */
  lemma OneListIsAllOrNothing(s: State, a: Agent, txs: seq<Hash>)
    requires Reachable(s) && s.PhaseOf(a).Walking? && |s.PhaseOf(a).links| == s.PhaseOf(a).count
    requires forall w :: s.PhaseOf(w).Updates() && s.PhaseOf(w).block == s.PhaseOf(a).block ==> s.PhaseOf(w).txs == txs
    ensures s.PhaseOf(a).links == [] || s.PhaseOf(a).links == txs
  {
    QueriesSeeOneList(s, a);
  }

  // ---------------------------------------------------------------- what is published is announced

  /** The row of a block announces a complete list as soon as one update has written both fields. */
  ghost predicate Announces(s: State, block: Hash) {
    (exists w, start, count :: Complete(s, w, block, start, count)) ==>
      Torn(s, block)
      || (block in s.rows && exists w :: Complete(s, w, block, s.rows[block].start, s.rows[block].count))
  }

  /** Only writing the count completes an update. */
  lemma CompletedBy(s: State, a: Agent, step: Step, w: Agent, block: Hash, start: nat, count: nat)
    requires Enabled(s, a, step) && Complete(Next(s, a, step), w, block, start, count)
    ensures Complete(s, w, block, start, count) || (step.WriteCount? && s.PhaseOf(a).block == block)
  {
  }

  lemma StepKeepsAnnouncing(s: State, a: Agent, step: Step, block: Hash)
    requires Inv(s) && Enabled(s, a, step) && Announces(s, block)
    ensures Announces(Next(s, a, step), block)
  {
    hide Cells;
    hide Consistent;
    hide LinksRead;
    hide Complete;
    hide RowsConsistent;
    var t := Next(s, a, step);
    assert LockedBy(s, a) && Knows(s, a);
    if step.WriteCount? && s.PhaseOf(a).block == block {
      CompletesRow(s, a);
    } else if exists w, start, count :: Complete(t, w, block, start, count) {
      var w, start, count :| Complete(t, w, block, start, count);
      CompletedBy(s, a, step, w, block, start, count);
      if Torn(s, block) {
        assert LockedBy(s, s.owner.value);
      } else {
        var v :| Complete(s, v, block, s.rows[block].start, s.rows[block].count);
        CompleteStays(s, a, step, v, block, s.rows[block].start, s.rows[block].count);
      }
    }
  }

  lemma CompletesRow(s: State, a: Agent)
    requires Enabled(s, a, WriteCount) && Knows(s, a)
    ensures var t, block := Next(s, a, WriteCount), s.PhaseOf(a).block;
            block in t.rows && Complete(t, a, block, t.rows[block].start, t.rows[block].count)
  {
  }

  lemma {:induction false} ScheduleKeepsAnnouncing(s: State, schedule: seq<(Agent, Step)>, t: State, block: Hash)
    requires Inv(s) && Announces(s, block) && Reaches(s, schedule, t)
    ensures Announces(t, block)
    decreases |schedule|
  {
    hide Inv;
    hide Enabled;
    hide Next;
    hide Announces;
    if schedule != [] {
      var n := |schedule| - 1;
      var u :| Reaches(s, schedule[..n], u) && Enabled(u, schedule[n].0, schedule[n].1)
            && t == Next(u, schedule[n].0, schedule[n].1);
      ScheduleKeepsAnnouncing(s, schedule[..n], u, block);
      ScheduleKeepsInv(s, schedule[..n], u);
      StepKeepsAnnouncing(u, schedule[n].0, schedule[n].1, block);
    }
  }

  /** In every interleaving, once an update of a block is published, the fields of its row are those that one
      complete update of the block wrote, whenever a query can read them. */
  lemma PublishedIsAnnounced(s: State, w: Agent)
    requires Reachable(s) && s.PhaseOf(w).Published? && s.owner == None
    ensures var block := s.PhaseOf(w).block;
            block in s.rows && exists v :: Complete(s, v, block, s.rows[block].start, s.rows[block].count)
  {
    var s0, schedule :| Init(s0) && Reaches(s0, schedule, s);
    var phase := s.PhaseOf(w);
    assert Inv(s0) && Announces(s0, phase.block);
    ScheduleKeepsAnnouncing(s0, schedule, s, phase.block);
    assert Complete(s, w, phase.block, phase.start, |phase.txs|);
  }
}
