/** The lock protocol of a memory mapped file as thread steps: accessors keep pointers into a mapping
    that a reserve may move, and open, flush and close run beside them. An agent is one accessor, from
    its construction to its release, or one call of open, flush or close. */
module StorageAccess {
  import opened Types
  import opened FileStorage

  type Agent = nat

  /** Every mapping that is ever made has its own pointer, also when the address is reused. */
  type Pointer = nat

  datatype Call =
    | Access
    | Reserving(required: nat, minimum: nat, expansion: nat)
    | Opening
    | Flushing
    | Closing

  /** Where an agent is between two steps. */
  datatype Phase =
    | Idle
    | Upgraded(call: Call)                                        // holds the upgrade lock
    | Remapping(call: Call, target: nat)                          // holds the exclusive lock
    | Unmapped(call: Call, target: nat)                           // exclusive, between unmap and map
    | Remapped(call: Call)                                        // exclusive, mapped anew
    | Ready(call: Call)                                           // upgrade, capacity suffices
    | Assigning(call: Call, pointer: Option<Pointer>, fails: bool) // upgrade, the pointer was read
    | Shared(call: Call, pointer: Option<Pointer>, fails: bool)    // shared, the pointer not yet set
    | Live(call: Call, pointer: Option<Pointer>, offset: nat)      // shared, returned to the caller
    | Throwing                                                    // shared, unwinding an exception
    | Alone(call: Call)                                           // exclusive, in open, flush or close
    | Leaving                                                     // exclusive, about to unlock
  {
    predicate HoldsUpgrade() {
      Upgraded? || Ready? || Assigning?
    }

    predicate HoldsShared() {
      Shared? || Live? || Throwing?
    }

    predicate HoldsExclusive() {
      Remapping? || Unmapped? || Remapped? || Alone? || Leaving?
    }
  }

  datatype State = State(
    closed: bool, data: Option<Pointer>, capacity: nat, logical: nat,
    mapping: Option<Pointer>, next: Pointer,
    sharers: set<Agent>, upgrader: Option<Agent>, owner: Option<Agent>,
    phases: map<Agent, Phase>)
  {
    function PhaseOf(a: Agent): Phase {
      if a in phases then phases[a] else Idle
    }

    function With(a: Agent, phase: Phase): State {
      this.(phases := phases[a := phase])
    }

    // The five lock conversions and the two acquisitions of the upgrade mutex.

    predicate CanLockUpgrade() {
      upgrader == None && owner == None
    }

    /** An upgrade becomes exclusive once every shared lock is released. */
    predicate CanLock() {
      sharers == {}
    }

    function LockUpgrade(a: Agent): State {
      this.(upgrader := Some(a))
    }

    function UnlockUpgrade(): State {
      this.(upgrader := None)
    }

    function UnlockUpgradeAndLock(a: Agent): State {
      this.(upgrader := None, owner := Some(a))
    }

    function UnlockAndLockUpgrade(a: Agent): State {
      this.(owner := None, upgrader := Some(a))
    }

    function UnlockUpgradeAndLockShared(a: Agent): State {
      this.(upgrader := None, sharers := sharers + {a})
    }

    function UnlockShared(a: Agent): State {
      this.(sharers := sharers - {a})
    }

    function Unlock(): State {
      this.(owner := None)
    }

    /** The system maps the file somewhere. */
    function Map(size: nat): State {
      this.(data := Some(next), mapping := Some(next), next := next + 1, capacity := size)
    }

    function Unmap(): State {
      this.(data := None, mapping := None, capacity := 0)
    }
  }

  /** An empty or existing file, before it is opened. */
  predicate Init(s: State) {
    && s.closed && s.data == None && s.mapping == None && s.logical == s.capacity
    && s.sharers == {} && s.upgrader == None && s.owner == None && s.phases == map[]
  }

  // ---------------------------------------------------------------- steps

  datatype Step =
    | Begin(call: Call)       // construct the accessor, or lock in open, flush and close
    | Decline                 // open when open, flush or close when closed
    | Enter                   // open, flush or close take exclusive ownership
    | DoOpen(mapped: bool)
    | DoFlush
    | DoClose
    | Leave
    | Read                    // access reads the pointer
    | Refuse                  // reserve finds the storage closed
    | Suffice                 // reserve finds the capacity sufficient
    | Exceed                  // reserve takes exclusive ownership to remap
    | Unmap                   // truncate_mapped without mremap: unmap, then map
    | MapAgain
    | MoveMapping             // truncate_mapped with mremap
    | Return                  // back to upgrade ownership
    | Resize                  // set the logical size and read the pointer
    | Downgrade               // assign: upgrade becomes shared
    | Hand                    // assign: set the pointer, test closed, and return or throw
    | Increment(value: nat)
    | Release                 // destruct the accessor

  /** The agent stands before this step, and the lock lets it through. */
  predicate Enabled(s: State, a: Agent, step: Step) {
    var phase := s.PhaseOf(a);
    match step
    case Begin(call) => phase.Idle? && s.CanLockUpgrade()
    case Decline => phase.Upgraded? && (if phase.call.Opening? then !s.closed
                                        else (phase.call.Flushing? || phase.call.Closing?) && s.closed)
    case Enter => phase.Upgraded? && s.CanLock() && (if phase.call.Opening? then s.closed
                                     else (phase.call.Flushing? || phase.call.Closing?) && !s.closed)
    case DoOpen(mapped) => phase == Alone(Opening) && (mapped ==> s.capacity > 0)
    case DoFlush => phase == Alone(Flushing)
    case DoClose => phase == Alone(Closing)
    case Leave => phase.Leaving?
    case Read => phase == Upgraded(Access)
    case Refuse => phase.Upgraded? && phase.call.Reserving? && s.closed
    case Suffice => phase.Upgraded? && phase.call.Reserving? && !s.closed && phase.call.required <= s.capacity
    case Exceed =>
      phase.Upgraded? && phase.call.Reserving? && !s.closed && phase.call.required > s.capacity && s.CanLock()
    case Unmap => phase.Remapping?
    case MapAgain => phase.Unmapped?
    case MoveMapping => phase.Remapping?
    case Return => phase.Remapped?
    case Resize => phase.Ready?
    case Downgrade => phase.Assigning?
    case Hand => phase.Shared?
    case Increment(value) => phase.Live?
    case Release => phase.Live? || phase.Throwing?
  }

  function Next(s: State, a: Agent, step: Step): State
    requires Enabled(s, a, step)
  {
    var phase := s.PhaseOf(a);
    match step
    case Begin(call) => s.LockUpgrade(a).With(a, Upgraded(call))
    case Decline => s.UnlockUpgrade().With(a, Idle)
    case Enter => s.UnlockUpgradeAndLock(a).With(a, Alone(phase.call))
    case DoOpen(mapped) => (if mapped then s.Map(s.capacity).(closed := false) else s.Unmap()).With(a, Leaving)
    case DoFlush => s.With(a, Leaving)
    // The pointer is left as it was.
    case DoClose => s.(closed := true, mapping := None).With(a, Leaving)
    case Leave => s.Unlock().With(a, Idle)
    case Read => s.With(a, Assigning(phase.call, s.data, false))
    case Refuse => s.With(a, Assigning(phase.call, s.data, true))
    case Suffice => s.With(a, Ready(phase.call))
    case Exceed =>
      var target := Target(phase.call.required, phase.call.minimum, phase.call.expansion);
      s.UnlockUpgradeAndLock(a).With(a, Remapping(phase.call, target))
    case Unmap => s.Unmap().With(a, Unmapped(phase.call, phase.target))
    case MapAgain => s.Map(phase.target).With(a, Remapped(phase.call))
    case MoveMapping => s.Map(phase.target).With(a, Remapped(phase.call))
    case Return => s.UnlockAndLockUpgrade(a).With(a, Ready(phase.call))
    case Resize =>
      s.(logical := if phase.call.Reserving? then phase.call.required else s.logical)
      .With(a, Assigning(phase.call, s.data, false))
    case Downgrade => s.UnlockUpgradeAndLockShared(a).With(a, Shared(phase.call, phase.pointer, phase.fails))
    case Hand =>
      // Access tests for closure only here.
      if phase.fails || (phase.call.Access? && s.closed) then s.With(a, Throwing)
      else s.With(a, Live(phase.call, phase.pointer, 0))
    case Increment(value) => s.With(a, Live(phase.call, phase.pointer, phase.offset + value))
    case Release => s.UnlockShared(a).With(a, Idle)
  }

  // ---------------------------------------------------------------- the invariant

  /** The lock is held by exactly the agents that are in phases that hold it. */
  ghost predicate LockedBy(s: State, a: Agent) {
    var phase := s.PhaseOf(a);
    && (a in s.sharers <==> phase.HoldsShared())
    && (s.upgrader == Some(a) <==> phase.HoldsUpgrade())
    && (s.owner == Some(a) <==> phase.HoldsExclusive())
  }

  /** An owner excludes every other holder. */
  ghost predicate Exclusive(s: State) {
    s.owner.Some? ==> s.sharers == {} && s.upgrader == None
  }

  /** The bytes an accessor was promised when it was returned. */
  function Room(call: Call): nat {
    if call.Reserving? then call.required else 0
  }

  /** What an agent knows of the storage in its phase. */
  ghost predicate Knows(s: State, phase: Phase) {
    match phase
    case Remapping(call, target) =>
      && !s.closed && call.Reserving? && s.logical <= call.required <= target && call.required > s.capacity
      && target == Target(call.required, call.minimum, call.expansion)
    case Unmapped(call, target) =>
      && !s.closed && call.Reserving? && s.logical <= call.required <= target && 0 < target
      && target == Target(call.required, call.minimum, call.expansion)
    case Remapped(call) =>
      && !s.closed && call.Reserving? && call.required <= s.capacity
      && s.capacity == Target(call.required, call.minimum, call.expansion)
    case Ready(call) => !s.closed && call.Reserving? && call.required <= s.capacity
    case Assigning(call, pointer, fails) =>
      && pointer == s.data && fails == (call.Reserving? && s.closed) && (call.Access? || call.Reserving?)
      && (!s.closed ==> Room(call) <= s.capacity)
    case Shared(call, pointer, fails) =>
      && pointer == s.data && fails == (call.Reserving? && s.closed) && (call.Access? || call.Reserving?)
      && (!s.closed ==> Room(call) <= s.capacity)
    case Live(call, pointer, offset) => !s.closed && pointer == s.data && Room(call) <= s.capacity
    case Throwing => s.closed
    case Alone(call) => (call.Opening? && s.closed) || ((call.Flushing? || call.Closing?) && !s.closed)
    case _ => true
  }

  /** The agent is inside truncate_mapped, with nothing mapped. */
  ghost predicate Between(s: State) {
    s.owner.Some? && s.PhaseOf(s.owner.value).Unmapped?
  }

  /** An open storage is mapped where its pointer says, and its contents fit, except inside truncate_mapped;
      a closed storage is not mapped. */
  ghost predicate Mapped(s: State) {
    if s.closed then s.mapping == None && (s.logical <= s.capacity || s.capacity == 0)
    else Between(s) || (s.mapping.Some? && s.data == s.mapping && s.logical <= s.capacity)
  }

  ghost predicate Inv(s: State) {
    && Exclusive(s) && Mapped(s)
    && forall a: Agent :: LockedBy(s, a) && Knows(s, s.PhaseOf(a))
  }

  /** Only the stepping agent moves, and locks of the others stay. */
  ghost predicate OthersStay(s: State, t: State, a: Agent) {
    forall b: Agent :: b != a ==>
      && t.PhaseOf(b) == s.PhaseOf(b) && (b in t.sharers <==> b in s.sharers)
      && (t.upgrader == Some(b) <==> s.upgrader == Some(b)) && (t.owner == Some(b) <==> s.owner == Some(b))
  }

  lemma StepMovesOne(s: State, a: Agent, step: Step)
    requires Exclusive(s) && LockedBy(s, a) && Enabled(s, a, step)
    ensures OthersStay(s, Next(s, a, step), a)
  {
    hide Target;
  }

  lemma StepKeepsLock(s: State, a: Agent, step: Step)
    requires Exclusive(s) && LockedBy(s, a) && Enabled(s, a, step)
    ensures LockedBy(Next(s, a, step), a) && Exclusive(Next(s, a, step))
  {
    hide Target;
  }

  lemma StepKnows(s: State, a: Agent, step: Step)
    requires Inv(s) && Enabled(s, a, step)
    ensures Knows(Next(s, a, step), Next(s, a, step).PhaseOf(a))
  {
    hide Target;
    assert LockedBy(s, a) && Knows(s, s.PhaseOf(a));
    if step.Exceed? {
      var call := s.PhaseOf(a).call;
      TargetSuffices(call.required, call.minimum, call.expansion);
    }
  }

  lemma StepKeepsMapped(s: State, a: Agent, step: Step)
    requires Inv(s) && Enabled(s, a, step)
    ensures Mapped(Next(s, a, step))
  {
    hide Target;
    assert LockedBy(s, a) && Knows(s, s.PhaseOf(a));
    if s.owner.Some? {
      assert LockedBy(s, s.owner.value) && Knows(s, s.PhaseOf(s.owner.value));
    }
  }

  /** What another agent knows survives the step: only an owner changes the mapping, and then it is alone. */
  lemma OthersKnow(s: State, a: Agent, step: Step, b: Agent)
    requires Inv(s) && Enabled(s, a, step) && b != a
    ensures Next(s, a, step).PhaseOf(b) == s.PhaseOf(b)
    ensures Knows(Next(s, a, step), s.PhaseOf(b))
  {
    hide Target;
    assert LockedBy(s, a) && LockedBy(s, b) && Knows(s, s.PhaseOf(b)) && Knows(s, s.PhaseOf(a));
  }

  /** Every step of every agent keeps the invariant. */
  lemma StepKeepsInv(s: State, a: Agent, step: Step)
    requires Inv(s) && Enabled(s, a, step)
    ensures Inv(Next(s, a, step))
  {
    hide Next;
    hide Enabled;
    hide Knows;
    hide Mapped;
    assert LockedBy(s, a);
    StepMovesOne(s, a, step);
    StepKeepsLock(s, a, step);
    StepKnows(s, a, step);
    StepKeepsMapped(s, a, step);
    var t := Next(s, a, step);
    forall b: Agent ensures LockedBy(t, b) && Knows(t, t.PhaseOf(b)) {
      assert LockedBy(s, b);
      if b != a {
        OthersKnow(s, a, step, b);
      }
    }
  }

  // ---------------------------------------------------------------- all interleavings

  /** Any interleaving of the steps of any agents. */
  ghost predicate Reaches(s: State, schedule: seq<(Agent, Step)>, t: State)
    decreases |schedule|
  {
    if schedule == [] then s == t
    else
      var n := |schedule| - 1;
      exists u :: Reaches(s, schedule[..n], u) && Enabled(u, schedule[n].0, schedule[n].1)
                  && t == Next(u, schedule[n].0, schedule[n].1)
  }

  lemma {:induction false} ScheduleKeepsInv(s: State, schedule: seq<(Agent, Step)>, t: State)
    requires Inv(s) && Reaches(s, schedule, t)
    ensures Inv(t)
    decreases |schedule|
  {
    hide Inv;
    hide Enabled;
    hide Next;
    if schedule != [] {
      var n := |schedule| - 1;
      var u :| Reaches(s, schedule[..n], u) && Enabled(u, schedule[n].0, schedule[n].1)
            && t == Next(u, schedule[n].0, schedule[n].1);
      ScheduleKeepsInv(s, schedule[..n], u);
      StepKeepsInv(u, schedule[n].0, schedule[n].1);
    }
  }

  ghost predicate Reachable(s: State) {
    exists s0, schedule :: Init(s0) && Reaches(s0, schedule, s)
  }

  lemma ReachableInv(s: State)
    requires Reachable(s)
    ensures Inv(s)
  {
    var s0, schedule :| Init(s0) && Reaches(s0, schedule, s);
    assert Inv(s0);
    ScheduleKeepsInv(s0, schedule, s);
  }

  /** In every interleaving, an accessor that its caller holds points at the current mapping of an open
      storage, which has at least the bytes it was reserved for. */
  lemma LiveAccessorsAreMapped(s: State, a: Agent)
    requires Reachable(s) && s.PhaseOf(a).Live?
    ensures !s.closed && s.mapping.Some? && s.PhaseOf(a).pointer == s.mapping
    ensures Room(s.PhaseOf(a).call) <= s.capacity
  {
    ReachableInv(s);
    assert LockedBy(s, a) && Knows(s, s.PhaseOf(a));
  }

  /** The mapping changes only while no accessor is held, not even one whose pointer is not yet set. */
  lemma MappingMovesAlone(s: State, a: Agent, step: Step, b: Agent)
    requires Reachable(s) && Enabled(s, a, step)
    requires Next(s, a, step).mapping != s.mapping || Next(s, a, step).data != s.data
    ensures !s.PhaseOf(b).HoldsShared()
    ensures b != a ==> !s.PhaseOf(b).HoldsUpgrade() && !s.PhaseOf(b).HoldsExclusive()
  {
    hide Target;
    ReachableInv(s);
    assert LockedBy(s, a) && LockedBy(s, b);
  }

  /** Close finds the logical size within the capacity, in every interleaving. */
  lemma CloseFits(s: State, a: Agent)
    requires Reachable(s) && s.PhaseOf(a) == Alone(Closing)
    ensures s.logical <= s.capacity && s.mapping.Some? && s.data == s.mapping
  {
    ReachableInv(s);
    assert LockedBy(s, a) && Knows(s, s.PhaseOf(a));
  }

  /** An accessor fails only when the storage is closed, and an assigned one is always released from shared
      ownership: its release is never refused. */
  lemma OnlyClosureThrows(s: State, a: Agent)
    requires Reachable(s) && s.PhaseOf(a).HoldsShared()
    ensures s.PhaseOf(a).Throwing? ==> s.closed
    ensures a in s.sharers && s.owner == None
    ensures Enabled(s, a, Release) || Enabled(s, a, Hand)
  {
    ReachableInv(s);
    assert LockedBy(s, a) && Knows(s, s.PhaseOf(a));
  }

  /** A remap leaves the capacity at the larger of the minimum and what is required with its percentage, rounded
      down. */
  lemma RemapsExactly(s: State, a: Agent)
    requires Reachable(s) && s.PhaseOf(a).Remapped?
    ensures var call := s.PhaseOf(a).call;
            && call.Reserving?
            && var exact := call.required * (100 + call.expansion) / 100;
               s.capacity == if exact < call.minimum then call.minimum else exact
  {
    hide Target;
    ReachableInv(s);
    assert Knows(s, s.PhaseOf(a));
    var call := s.PhaseOf(a).call;
    TargetIsExact(call.required, call.minimum, call.expansion);
  }

  // ---------------------------------------------------------------- the logical size

  /** The call that the agent last began. */
  function LastCall(schedule: seq<(Agent, Step)>, a: Agent): Option<Call>
    decreases |schedule|
  {
    if schedule == [] then None
    else
      var n := |schedule| - 1;
      if schedule[n].0 == a && schedule[n].1.Begin? then Some(schedule[n].1.call) else LastCall(schedule[..n], a)
  }

  /** What the call of the last agent that set the logical size required; the initial size when none did. */
  function LastRequired(schedule: seq<(Agent, Step)>, initial: nat): nat
    decreases |schedule|
  {
    if schedule == [] then initial
    else
      var n := |schedule| - 1;
      var call := LastCall(schedule[..n], schedule[n].0);
      if schedule[n].1.Resize? && call.Some? && call.value.Reserving? then call.value.required
      else LastRequired(schedule[..n], initial)
  }

  /** The agent is in a phase of the call that it last began. */
  ghost predicate InCall(phase: Phase, call: Option<Call>) {
    !phase.Idle? && !phase.Throwing? && !phase.Leaving? ==> call == Some(phase.call)
  }

  lemma StepStaysInCall(s: State, a: Agent, step: Step, b: Agent, schedule: seq<(Agent, Step)>)
    requires Enabled(s, a, step) && InCall(s.PhaseOf(b), LastCall(schedule, b))
    ensures InCall(Next(s, a, step).PhaseOf(b), LastCall(schedule + [(a, step)], b))
  {
    hide Next;
    hide Enabled;
    var more := schedule + [(a, step)];
    assert more[..|more| - 1] == schedule;
    if b == a {
      OwnCall(s, a, step, LastCall(schedule, a));
    } else {
      OtherPhaseStays(s, a, step, b);
    }
  }

  lemma OwnCall(s: State, a: Agent, step: Step, call: Option<Call>)
    requires Enabled(s, a, step) && InCall(s.PhaseOf(a), call)
    ensures InCall(Next(s, a, step).PhaseOf(a), if step.Begin? then Some(step.call) else call)
  {
    hide Target;
  }

  lemma StepSetsLogical(s: State, a: Agent, step: Step)
    requires Inv(s) && Enabled(s, a, step)
    ensures step.Resize? ==>
              && s.PhaseOf(a).Ready? && s.PhaseOf(a).call.Reserving?
              && Next(s, a, step).logical == s.PhaseOf(a).call.required
    ensures !step.Resize? ==> Next(s, a, step).logical == s.logical
  {
    hide Target;
    assert Knows(s, s.PhaseOf(a));
  }

  lemma {:induction false} ScheduleSetsLogical(s0: State, schedule: seq<(Agent, Step)>, t: State)
    requires Init(s0) && Reaches(s0, schedule, t)
    ensures t.logical == LastRequired(schedule, s0.logical)
    ensures forall a: Agent :: InCall(t.PhaseOf(a), LastCall(schedule, a))
    decreases |schedule|
  {
    hide Inv;
    hide Enabled;
    hide Next;
    hide InCall;
    if schedule == [] {
      StartsOutside(s0);
    } else {
      var n := |schedule| - 1;
      var a, step := schedule[n].0, schedule[n].1;
      var u :| Reaches(s0, schedule[..n], u) && Enabled(u, a, step) && t == Next(u, a, step);
      ScheduleSetsLogical(s0, schedule[..n], u);
      StartsInv(s0);
      ScheduleKeepsInv(s0, schedule[..n], u);
      StepSetsLogical(u, a, step);
      ReadyInCall(u.PhaseOf(a), LastCall(schedule[..n], a));
      assert schedule == schedule[..n] + [(a, step)];
      forall b: Agent ensures InCall(t.PhaseOf(b), LastCall(schedule, b)) {
        StepStaysInCall(u, a, step, b, schedule[..n]);
      }
    }
  }

  lemma StartsOutside(s0: State)
    requires Init(s0)
    ensures forall a: Agent :: InCall(s0.PhaseOf(a), LastCall([], a))
  {
  }

  lemma StartsInv(s0: State)
    requires Init(s0)
    ensures Inv(s0)
  {
  }

  lemma ReadyInCall(phase: Phase, call: Option<Call>)
    requires InCall(phase, call)
    ensures phase.Ready? ==> call == Some(phase.call)
  {
  }

  /** In every interleaving, the logical size is what was required by the call that last set it, and that of the file
      when none did. */
  lemma LogicalIsLastRequired(s0: State, schedule: seq<(Agent, Step)>, t: State)
    requires Init(s0) && Reaches(s0, schedule, t)
    ensures t.logical == LastRequired(schedule, s0.logical)
  {
    hide Reaches;
    hide InCall;
    ScheduleSetsLogical(s0, schedule, t);
  }

  // ---------------------------------------------------------------- open and closed

  /** Whether the storage is closed: by the last step that closed it or mapped it, and at first. */
  function LastClosed(schedule: seq<(Agent, Step)>): bool
    decreases |schedule|
  {
    if schedule == [] then true
    else
      match schedule[|schedule| - 1].1
      case DoClose => true
      case DoOpen(mapped) => if mapped then false else LastClosed(schedule[..|schedule| - 1])
      case _ => LastClosed(schedule[..|schedule| - 1])
  }

  /** In every interleaving, the storage is closed when it was last closed and not mapped since, and it is mapped
      exactly when it is open, except inside a remap. */
  lemma {:induction false} ClosedIsLastChange(s0: State, schedule: seq<(Agent, Step)>, t: State)
    requires Init(s0) && Reaches(s0, schedule, t)
    ensures t.closed == LastClosed(schedule)
    ensures !Between(t) ==> (t.mapping.Some? <==> !t.closed)
    decreases |schedule|
  {
    hide Inv;
    hide Next;
    hide Enabled;
    hide Between;
    StartsInv(s0);
    ScheduleKeepsInv(s0, schedule, t);
    if schedule != [] {
      var n := |schedule| - 1;
      var u :| Reaches(s0, schedule[..n], u) && Enabled(u, schedule[n].0, schedule[n].1)
            && t == Next(u, schedule[n].0, schedule[n].1);
      ClosedIsLastChange(s0, schedule[..n], u);
      StepSetsClosed(u, schedule[n].0, schedule[n].1);
    }
    InvTellsMapped(t);
  }

  lemma StepSetsClosed(s: State, a: Agent, step: Step)
    requires Enabled(s, a, step)
    ensures Next(s, a, step).closed
            == if step.DoClose? then true else if step.DoOpen? && step.mapped then false else s.closed
  {
    hide Target;
  }

  lemma InvTellsMapped(t: State)
    requires Inv(t)
    ensures !Between(t) ==> (t.mapping.Some? <==> !t.closed)
  {
  }

  // ---------------------------------------------------------------- the cursor of an accessor

  /** How far the agent has moved its pointer since the call that it last began. */
  function Advanced(schedule: seq<(Agent, Step)>, a: Agent): nat
    decreases |schedule|
  {
    if schedule == [] then 0
    else
      var n := |schedule| - 1;
      if schedule[n].0 != a then Advanced(schedule[..n], a)
      else
        match schedule[n].1
        case Begin(call) => 0
        case Increment(value) => Advanced(schedule[..n], a) + value
        case _ => Advanced(schedule[..n], a)
  }

  ghost predicate AtOffset(phase: Phase, advanced: nat) {
    if phase.Live? then phase.offset == advanced
    else phase.Idle? || phase.Throwing? || phase.Leaving? || advanced == 0
  }

  lemma StepMovesOffset(s: State, a: Agent, step: Step, b: Agent, schedule: seq<(Agent, Step)>)
    requires Enabled(s, a, step) && AtOffset(s.PhaseOf(b), Advanced(schedule, b))
    ensures AtOffset(Next(s, a, step).PhaseOf(b), Advanced(schedule + [(a, step)], b))
  {
    hide Next;
    hide Enabled;
    var more := schedule + [(a, step)];
    assert more[..|more| - 1] == schedule;
    if b == a {
      OwnOffset(s, a, step, Advanced(schedule, a));
    } else {
      OtherPhaseStays(s, a, step, b);
    }
  }

  lemma OtherPhaseStays(s: State, a: Agent, step: Step, b: Agent)
    requires Enabled(s, a, step) && b != a
    ensures Next(s, a, step).PhaseOf(b) == s.PhaseOf(b)
  {
    hide Target;
  }

  lemma OwnOffset(s: State, a: Agent, step: Step, advanced: nat)
    requires Enabled(s, a, step) && AtOffset(s.PhaseOf(a), advanced)
    ensures AtOffset(Next(s, a, step).PhaseOf(a), if step.Begin? then 0
                                                  else if step.Increment? then advanced + step.value else advanced)
  {
    hide Target;
  }

  lemma {:induction false} ScheduleMovesOffset(s0: State, schedule: seq<(Agent, Step)>, t: State, b: Agent)
    requires Init(s0) && Reaches(s0, schedule, t)
    ensures AtOffset(t.PhaseOf(b), Advanced(schedule, b))
    decreases |schedule|
  {
    hide Enabled;
    hide Next;
    if schedule != [] {
      var n := |schedule| - 1;
      var a, step := schedule[n].0, schedule[n].1;
      var u :| Reaches(s0, schedule[..n], u) && Enabled(u, a, step) && t == Next(u, a, step);
      ScheduleMovesOffset(s0, schedule[..n], u, b);
      assert schedule == schedule[..n] + [(a, step)];
      StepMovesOffset(u, a, step, b, schedule[..n]);
    }
  }

  /** In every interleaving, an accessor that its caller holds stands as far into the mapping as its caller has moved
      it since it was made. */
  lemma OffsetIsSumOfIncrements(s0: State, schedule: seq<(Agent, Step)>, t: State, b: Agent)
    requires Init(s0) && Reaches(s0, schedule, t) && t.PhaseOf(b).Live?
    ensures t.PhaseOf(b).offset == Advanced(schedule, b)
  {
    ScheduleMovesOffset(s0, schedule, t, b);
  }
}
