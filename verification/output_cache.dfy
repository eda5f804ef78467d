/** The cache of unspent outputs as a value: a bounded first-in first-out queue keyed by transaction hash. */
module OutputCache {
  import opened Types
  import opened TransactionTable

  type Outputs = map<nat, TransactionOutput>

  datatype Entry = Entry(hash: Hash, height: nat, time: nat, coinbase: bool, confirmed: bool, outputs: Outputs)

  /** The age counter and the retained transactions, the oldest first. */
  datatype Cache = Cache(sequence: nat, entries: seq<Entry>)

  const EMPTY_CACHE := Cache(0, [])

  /** What a hit reports. */
  datatype Hit = Hit(
    height: nat, time: nat, coinbase: bool, candidate: bool, confirmed: bool,
    candidateSpent: bool, confirmedSpent: bool, cache: TransactionOutput)

  datatype Cached = Cached(tx: Transaction, height: nat, time: nat, coinbase: bool, confirmed: bool)

  function AllOutputs(outputs: seq<TransactionOutput>): Outputs {
    map i | 0 <= i < |outputs| :: outputs[i]
  }

  function NewEntry(x: Cached): Entry {
    Entry(x.tx.hash, x.height, x.time, x.coinbase, x.confirmed, AllOutputs(x.tx.outputs))
  }

  /** Where a transaction is in the queue; the length when it is not. */
  function Find(entries: seq<Entry>, h: Hash): (k: nat)
    ensures k <= |entries|
    ensures k < |entries| ==> entries[k].hash == h
    ensures forall j :: 0 <= j < k ==> entries[j].hash != h
    decreases |entries|
  {
    if entries == [] then 0
    else if entries[0].hash == h then 0
    else Find(entries[1..], h) + 1
  }

  predicate Has(entries: seq<Entry>, h: Hash) {
    Find(entries, h) < |entries|
  }

  function Without(entries: seq<Entry>, k: nat): seq<Entry>
    requires k < |entries|
  {
    entries[..k] + entries[k + 1..]
  }

  // ---------------------------------------------------------------- operations

  /** The entries once room is made: none after the counter is used up, and no oldest one when full. */
  function MakeRoom(c: Cache, capacity: nat): seq<Entry>
    requires capacity > 0
  {
    if c.sequence == MAX_UINT32 then []
    else if |c.entries| >= capacity then c.entries[1..]
    else c.entries
  }

  predicate Ignored(capacity: nat, x: Cached) {
    capacity == 0 || x.tx.outputs == []
  }

  function Add(c: Cache, capacity: nat, x: Cached): Cache {
    if Ignored(capacity, x) then c
    else
      var room := MakeRoom(c, capacity);
      Cache(if c.sequence == MAX_UINT32 then 0 else c.sequence + 1,
            if Has(room, x.tx.hash) then room else room + [NewEntry(x)])
  }

  function RemoveTransaction(c: Cache, h: Hash): Cache {
    var k := Find(c.entries, h);
    if k == |c.entries| then c else c.(entries := Without(c.entries, k))
  }

  /** Remove an output; a transaction without outputs goes with its last one. */
  function RemoveOutput(c: Cache, p: Point): Cache {
    var k := Find(c.entries, p.hash);
    if k == |c.entries| then c
    else
      var outputs := c.entries[k].outputs - {p.index};
      c.(entries := if outputs == map[] then Without(c.entries, k)
                    else c.entries[k := c.entries[k].(outputs := outputs)])
  }

  function Populate(c: Cache, p: Point, fork: nat): Option<Hit> {
    var k := Find(c.entries, p.hash);
    if k == |c.entries| || p.index !in c.entries[k].outputs then None
    else
      var e := c.entries[k];
      Some(Hit(e.height, e.time, e.coinbase, false, e.confirmed && e.height <= fork, false, false, e.outputs[p.index]))
  }

  // ---------------------------------------------------------------- any sequence of operations

  datatype Operation =
    | AddStep(x: Cached)
    | RemoveTransactionStep(h: Hash)
    | RemoveOutputStep(p: Point)

  function Apply(c: Cache, capacity: nat, op: Operation): Cache {
    match op
    case AddStep(x) => Add(c, capacity, x)
    case RemoveTransactionStep(h) => RemoveTransaction(c, h)
    case RemoveOutputStep(p) => RemoveOutput(c, p)
  }

  function Run(capacity: nat, ops: seq<Operation>): Cache {
    if ops == [] then EMPTY_CACHE
    else Apply(Run(capacity, ops[..|ops| - 1]), capacity, ops[|ops| - 1])
  }

  /** Within capacity, one entry a transaction, and each entry has an output left. */
  ghost predicate WellKept(c: Cache, capacity: nat) {
    && |c.entries| <= capacity
    && c.sequence <= MAX_UINT32
    && (forall i, j :: 0 <= i < j < |c.entries| ==> c.entries[i].hash != c.entries[j].hash)
    && (forall i :: 0 <= i < |c.entries| ==> c.entries[i].outputs != map[])
  }

  lemma AddKeepsWell(c: Cache, capacity: nat, x: Cached)
    requires WellKept(c, capacity)
    ensures WellKept(Add(c, capacity, x), capacity)
  {
    hide NewEntry;
    if !Ignored(capacity, x) {
      var room := MakeRoom(c, capacity);
      if !Has(room, x.tx.hash) {
        NewEntryHasOutputs(x);
        AppendKeepsWell(room, NewEntry(x));
      }
    }
  }

  lemma NewEntryHasOutputs(x: Cached)
    requires x.tx.outputs != []
    ensures NewEntry(x).outputs != map[] && NewEntry(x).hash == x.tx.hash
  {
    assert 0 in AllOutputs(x.tx.outputs);
  }

  lemma AppendKeepsWell(entries: seq<Entry>, e: Entry)
    requires forall i, j :: 0 <= i < j < |entries| ==> entries[i].hash != entries[j].hash
    requires !Has(entries, e.hash)
    ensures var after := entries + [e];
            forall i, j :: 0 <= i < j < |after| ==> after[i].hash != after[j].hash
  {
  }

  lemma {:induction false} RunKeepsWell(capacity: nat, ops: seq<Operation>)
    ensures WellKept(Run(capacity, ops), capacity)
    decreases |ops|
  {
    if ops != [] {
      var n := |ops| - 1;
      RunKeepsWell(capacity, ops[..n]);
      if ops[n].AddStep? {
        AddKeepsWell(Run(capacity, ops[..n]), capacity, ops[n].x);
      }
    }
  }

  // ---------------------------------------------------------------- duplicates

  /** Adding a transaction that is already cached keeps the entry it has, unless that entry was the oldest
      of a full cache or the counter was used up: then it is replaced. */
  lemma DuplicateKeepsOldEntry(c: Cache, capacity: nat, x: Cached)
    requires WellKept(c, capacity) && !Ignored(capacity, x) && Has(c.entries, x.tx.hash)
    ensures var k := Find(c.entries, x.tx.hash);
            var after := Add(c, capacity, x).entries;
            if c.sequence == MAX_UINT32 || (k == 0 && |c.entries| == capacity)
            then after != [] && after[|after| - 1] == NewEntry(x)
            else c.entries[k] in after && forall e :: e in after ==> e in c.entries
  {
    var k := Find(c.entries, x.tx.hash);
    var room := MakeRoom(c, capacity);
    if c.sequence != MAX_UINT32 && !(k == 0 && |c.entries| == capacity) {
      assert c.entries[k] in room by {
        if |c.entries| == capacity {
          assert room[k - 1] == c.entries[k];
        }
      }
    }
  }

  // ---------------------------------------------------------------- hits

  /** This operation takes the output out of the cache. */
  predicate Erases(op: Operation, p: Point) {
    match op
    case AddStep(x) => false
    case RemoveTransactionStep(h) => h == p.hash
    case RemoveOutputStep(q) => q == p
  }

  /** The entry was added by the k-th operation and nothing since has erased this output of it. */
  ghost predicate AddedAt(ops: seq<Operation>, k: nat, e: Entry, p: Point) {
    && k < |ops| && ops[k].AddStep?
    && ops[k].x.tx.hash == p.hash == e.hash
    && NewEntry(ops[k].x) == e.(outputs := AllOutputs(ops[k].x.tx.outputs))
    && p.index < |ops[k].x.tx.outputs|
    && p.index in e.outputs && e.outputs[p.index] == ops[k].x.tx.outputs[p.index]
    && forall j :: k < j < |ops| ==> !Erases(ops[j], p)
  }

  lemma AddedStays(ops: seq<Operation>, k: nat, e: Entry, p: Point, f: Entry)
    requires ops != [] && AddedAt(ops[..|ops| - 1], k, e, p) && !Erases(ops[|ops| - 1], p)
    requires f == e.(outputs := f.outputs) && p.index in f.outputs && f.outputs[p.index] == e.outputs[p.index]
    ensures AddedAt(ops, k, f, p)
  {
    var front := ops[..|ops| - 1];
    forall j | k < j < |ops| ensures !Erases(ops[j], p) {
      if j < |front| {
        assert ops[j] == front[j];
      }
    }
    assert ops[k] == front[k];
  }

  /** The k-th operation put in an entry for this transaction, and no later operation evicted or removed it. */
  ghost predicate RetainedSince(capacity: nat, ops: seq<Operation>, k: nat, h: Hash) {
    && k < |ops| && Inserts(capacity, ops, k, h)
    && (forall j :: k < j <= |ops| ==> Has(Run(capacity, ops[..j]).entries, h))
    && (forall j :: k < j < |ops| && MakesRoom(capacity, ops[j]) ==>
          Has(MakeRoom(Run(capacity, ops[..j]), capacity), h))
  }

  predicate MakesRoom(capacity: nat, op: Operation) {
    op.AddStep? && !Ignored(capacity, op.x)
  }

  /** The k-th operation adds a transaction that the cache does not hold once room is made. */
  predicate Inserts(capacity: nat, ops: seq<Operation>, k: nat, h: Hash)
    requires k < |ops|
  {
    && MakesRoom(capacity, ops[k]) && ops[k].x.tx.hash == h
    && !Has(MakeRoom(Run(capacity, ops[..k]), capacity), h)
  }

  /** Only one operation is the one that put a retained entry in. */
  lemma InsertionIsUnique(capacity: nat, ops: seq<Operation>, k: nat, l: nat, h: Hash)
    requires RetainedSince(capacity, ops, k, h) && RetainedSince(capacity, ops, l, h)
    ensures k == l
  {
    hide Run;
    hide Has;
    hide MakeRoom;
  }

  lemma StillRetainedSince(capacity: nat, ops: seq<Operation>, k: nat, h: Hash)
    requires ops != [] && RetainedSince(capacity, ops[..|ops| - 1], k, h)
    requires Has(Run(capacity, ops).entries, h)
    requires MakesRoom(capacity, ops[|ops| - 1]) ==> Has(MakeRoom(Run(capacity, ops[..|ops| - 1]), capacity), h)
    ensures RetainedSince(capacity, ops, k, h)
  {
    hide Run;
    hide Has;
    hide MakeRoom;
    var front := ops[..|ops| - 1];
    assert ops[..|ops|] == ops;
    forall j | 0 <= j < |ops| ensures ops[..j] == front[..j] {
    }
  }

  /** Every cached output was put in by some operation, with what that operation was given, is retained since,
      and no later operation erased it. */
  lemma {:induction false} HitsWereAdded(capacity: nat, ops: seq<Operation>, e: Entry, index: nat)
    requires e in Run(capacity, ops).entries && index in e.outputs
    ensures exists k :: AddedAt(ops, k, e, Point(e.hash, index)) && RetainedSince(capacity, ops, k, e.hash)
    decreases |ops|
  {
    hide AddedAt;
    hide RetainedSince;
    hide Has;
    hide MakeRoom;
    var n := |ops| - 1;
    var c := Run(capacity, ops[..n]);
    var p := Point(e.hash, index);
    RunKeepsWell(capacity, ops[..n]);
    HasIs(Run(capacity, ops).entries, e);
    if Inserts(capacity, ops, n, e.hash) {
      InsertedNow(c, capacity, ops[n].x, e);
      HasAdded(ops, e, p);
      RetainedNow(capacity, ops, e.hash);
    } else {
      var f := Earlier(c, capacity, ops[n], e, index);
      HitsWereAdded(capacity, ops[..n], f, index);
      var k :| AddedAt(ops[..n], k, f, p) && RetainedSince(capacity, ops[..n], k, e.hash);
      AddedStays(ops, k, f, p, e);
      StillRetainedSince(capacity, ops, k, e.hash);
    }
  }

  lemma {:induction false} HasIs(entries: seq<Entry>, e: Entry)
    requires e in entries
    ensures Has(entries, e.hash)
  {
    if entries[0] != e {
      HasIs(entries[1..], e);
    }
  }

  lemma RetainedNow(capacity: nat, ops: seq<Operation>, h: Hash)
    requires ops != [] && Inserts(capacity, ops, |ops| - 1, h) && Has(Run(capacity, ops).entries, h)
    ensures RetainedSince(capacity, ops, |ops| - 1, h)
  {
    hide Run;
    hide Has;
    hide MakeRoom;
    assert ops[..|ops|] == ops;
  }

  lemma InsertedNow(c: Cache, capacity: nat, x: Cached, e: Entry)
    requires e in Add(c, capacity, x).entries && !Ignored(capacity, x) && x.tx.hash == e.hash
    requires !Has(MakeRoom(c, capacity), e.hash)
    ensures e == NewEntry(x)
  {
    if e in MakeRoom(c, capacity) {
      HasIs(MakeRoom(c, capacity), e);
    }
  }

  lemma HasAdded(ops: seq<Operation>, e: Entry, p: Point)
    requires ops != [] && ops[|ops| - 1].AddStep? && e == NewEntry(ops[|ops| - 1].x)
    requires p.hash == e.hash && p.index in e.outputs
    ensures AddedAt(ops, |ops| - 1, e, p)
  {
  }

  /** The entry this one comes from. */
  lemma Earlier(c: Cache, capacity: nat, op: Operation, e: Entry, index: nat) returns (f: Entry)
    requires WellKept(c, capacity) && e in Apply(c, capacity, op).entries && index in e.outputs
    requires MakesRoom(capacity, op) && op.x.tx.hash == e.hash ==> Has(MakeRoom(c, capacity), e.hash)
    ensures f in c.entries && e == f.(outputs := e.outputs)
    ensures MakesRoom(capacity, op) ==> Has(MakeRoom(c, capacity), e.hash)
    ensures index in f.outputs && f.outputs[index] == e.outputs[index]
    ensures !Erases(op, Point(e.hash, index))
  {
    f := e;
    match op
    case AddStep(x) =>
      if !Ignored(capacity, x) {
        HasIs(MakeRoom(c, capacity), e);
      }
    case RemoveTransactionStep(h) =>
      var i :| 0 <= i < |Apply(c, capacity, op).entries| && Apply(c, capacity, op).entries[i] == e;
    case RemoveOutputStep(p) =>
      var k := Find(c.entries, p.hash);
      var i :| 0 <= i < |Apply(c, capacity, op).entries| && Apply(c, capacity, op).entries[i] == e;
      if k < |c.entries| && e !in c.entries {
        f := c.entries[k];
      }
  }

  /** The hit reports an output of the transaction that the k-th operation was to add, unerased since. */
  ghost predicate HitOf(ops: seq<Operation>, k: nat, p: Point, fork: nat, hit: Hit) {
    && k < |ops| && ops[k].AddStep?
    && ops[k].x.tx.hash == p.hash && p.index < |ops[k].x.tx.outputs|
    && hit == Hit(ops[k].x.height, ops[k].x.time, ops[k].x.coinbase, false,
                  ops[k].x.confirmed && ops[k].x.height <= fork, false, false, ops[k].x.tx.outputs[p.index])
    && forall j :: k < j < |ops| ==> !Erases(ops[j], p)
  }

  lemma AddedIsHit(ops: seq<Operation>, k: nat, e: Entry, p: Point, fork: nat)
    requires AddedAt(ops, k, e, p)
    ensures HitOf(ops, k, p, fork, Hit(e.height, e.time, e.coinbase, false, e.confirmed && e.height <= fork,
                                       false, false, e.outputs[p.index]))
  {
    hide Erases;
  }

  /** A hit reports an output as the operation gave it that put the retained entry in, unspent since. */
  lemma HitIsARetainedAdd(capacity: nat, ops: seq<Operation>, p: Point, fork: nat)
    requires Populate(Run(capacity, ops), p, fork).Some?
    ensures exists k :: RetainedSince(capacity, ops, k, p.hash)
                        && HitOf(ops, k, p, fork, Populate(Run(capacity, ops), p, fork).value)
  {
    hide AddedAt;
    hide HitOf;
    hide Run;
    hide RetainedSince;
    var entries := Run(capacity, ops).entries;
    var e := entries[Find(entries, p.hash)];
    HitsWereAdded(capacity, ops, e, p.index);
    var k :| AddedAt(ops, k, e, p) && RetainedSince(capacity, ops, k, p.hash);
    AddedIsHit(ops, k, e, p, fork);
  }

  // ---------------------------------------------------------------- retention

  /** How many of the operations from k on are adds that are not ignored. */
  function Adds(capacity: nat, ops: seq<Operation>, k: nat): nat
    requires k <= |ops|
    decreases |ops|
  {
    if |ops| == k then 0
    else
      var n := |ops| - 1;
      Adds(capacity, ops[..n], k) + if ops[n].AddStep? && !Ignored(capacity, ops[n].x) then 1 else 0
  }

  /** No add from k on finds the counter used up. */
  ghost predicate NoWrap(capacity: nat, ops: seq<Operation>, k: nat) {
    forall j :: k <= j < |ops| && ops[j].AddStep? && !Ignored(capacity, ops[j].x) ==>
      Run(capacity, ops[..j]).sequence != MAX_UINT32
  }

  /** Position of the retained entry: at most as many younger entries as there were adds since. */
  ghost predicate Retained(c: Cache, p: Point, younger: nat) {
    var k := Find(c.entries, p.hash);
    k < |c.entries| && p.index in c.entries[k].outputs && |c.entries| - 1 - k <= younger
  }

  /** An output just cached stays cached for as long as fewer adds than the capacity follow it, nothing
      erases it, and the counter is not used up. */
  lemma {:induction false} RecentAddsAreRetained(capacity: nat, ops: seq<Operation>, k: nat, p: Point)
    requires k < |ops| && ops[k].AddStep? && !Ignored(capacity, ops[k].x)
    requires ops[k].x.tx.hash == p.hash && p.index < |ops[k].x.tx.outputs|
    requires !Has(MakeRoom(Run(capacity, ops[..k]), capacity), p.hash)
    requires Adds(capacity, ops, k + 1) < capacity && NoWrap(capacity, ops, k + 1)
    requires forall j :: k < j < |ops| ==> !Erases(ops[j], p)
    ensures Retained(Run(capacity, ops), p, Adds(capacity, ops, k + 1))
    ensures forall fork :: Populate(Run(capacity, ops), p, fork).Some?
    decreases |ops|
  {
    hide Retained;
    hide MakeRoom;
    hide Has;
    hide Apply;
    hide Populate;
    hide NoWrap;
    hide WellKept;
    var n := |ops| - 1;
    var front := ops[..n];
    if k < n {
      NoWrapBefore(capacity, ops, k + 1);
      assert front[..k] == ops[..k];
      RecentAddsAreRetained(capacity, front, k, p);
      RunKeepsWell(capacity, front);
      assert ops[..n] == front;
      StillRetained(Run(capacity, front), capacity, ops[n], p, Adds(capacity, front, k + 1));
    } else {
      JustAdded(Run(capacity, front), capacity, ops[n], p);
    }
    RetainedIsHit(Run(capacity, ops), p, Adds(capacity, ops, k + 1));
  }

  lemma RetainedIsHit(c: Cache, p: Point, younger: nat)
    requires Retained(c, p, younger)
    ensures forall fork :: Populate(c, p, fork).Some?
  {
  }

  lemma NoWrapBefore(capacity: nat, ops: seq<Operation>, k: nat)
    requires NoWrap(capacity, ops, k) && k < |ops|
    ensures NoWrap(capacity, ops[..|ops| - 1], k)
    ensures ops[|ops| - 1].AddStep? && !Ignored(capacity, ops[|ops| - 1].x) ==>
              Run(capacity, ops[..|ops| - 1]).sequence != MAX_UINT32
  {
    hide Run;
    var front := ops[..|ops| - 1];
    forall j | k <= j < |front| && front[j].AddStep? && !Ignored(capacity, front[j].x)
      ensures Run(capacity, front[..j]).sequence != MAX_UINT32
    {
      assert front[..j] == ops[..j] && front[j] == ops[j];
    }
  }

  lemma JustAdded(c: Cache, capacity: nat, op: Operation, p: Point)
    requires op.AddStep? && !Ignored(capacity, op.x) && !Has(MakeRoom(c, capacity), op.x.tx.hash)
    requires op.x.tx.hash == p.hash && p.index < |op.x.tx.outputs|
    ensures Retained(Apply(c, capacity, op), p, 0)
  {
    var x := op.x;
    var room := MakeRoom(c, capacity);
    var after := room + [NewEntry(x)];
    assert after[|room|].hash == p.hash;
    assert forall j :: 0 <= j < |room| ==> after[j] == room[j];
    assert p.index in AllOutputs(x.tx.outputs);
  }

  lemma StillRetained(c: Cache, capacity: nat, op: Operation, p: Point, younger: nat)
    requires WellKept(c, capacity) && Retained(c, p, younger) && !Erases(op, p)
    requires var counts := op.AddStep? && !Ignored(capacity, op.x);
             counts ==> c.sequence != MAX_UINT32 && younger + 1 < capacity
    ensures Retained(Apply(c, capacity, op), p,
                     if op.AddStep? && !Ignored(capacity, op.x) then younger + 1 else younger)
  {
    match op
    case AddStep(x) => AddRetains(c, capacity, x, p, younger);
    case RemoveTransactionStep(h) => RemovalRetains(c, capacity, Find(c.entries, h), p, younger);
    case RemoveOutputStep(q) => OutputRemovalRetains(c, capacity, q, p, younger);
  }

  lemma FoundAt(entries: seq<Entry>, k: nat)
    requires k < |entries| && forall i, j :: 0 <= i < j < |entries| ==> entries[i].hash != entries[j].hash
    ensures Find(entries, entries[k].hash) == k
  {
  }

  lemma AddRetains(c: Cache, capacity: nat, x: Cached, p: Point, younger: nat)
    requires WellKept(c, capacity) && Retained(c, p, younger)
    requires !Ignored(capacity, x) ==> c.sequence != MAX_UINT32 && younger + 1 < capacity
    ensures Retained(Add(c, capacity, x), p, if Ignored(capacity, x) then younger else younger + 1)
  {
    if !Ignored(capacity, x) {
      var k := Find(c.entries, p.hash);
      var room := MakeRoom(c, capacity);
      var at := if |c.entries| >= capacity then k - 1 else k;
      assert 0 <= at < |room| && room[at] == c.entries[k];
      AddKeepsWell(c, capacity, x);
      var after := Add(c, capacity, x).entries;
      assert after[at] == c.entries[k];
      FoundAt(after, at);
    }
  }

  lemma RemovalRetains(c: Cache, capacity: nat, gone: nat, p: Point, younger: nat)
    requires WellKept(c, capacity) && Retained(c, p, younger)
    requires gone <= |c.entries| && (gone < |c.entries| ==> c.entries[gone].hash != p.hash)
    ensures gone < |c.entries| ==> Retained(c.(entries := Without(c.entries, gone)), p, younger)
  {
    if gone < |c.entries| {
      var k := Find(c.entries, p.hash);
      var after := Without(c.entries, gone);
      var at := if gone < k then k - 1 else k;
      assert after[at] == c.entries[k];
      FoundAt(after, at);
    }
  }

  lemma OutputRemovalRetains(c: Cache, capacity: nat, q: Point, p: Point, younger: nat)
    requires WellKept(c, capacity) && Retained(c, p, younger) && q != p
    ensures Retained(RemoveOutput(c, q), p, younger)
  {
    var gone, k := Find(c.entries, q.hash), Find(c.entries, p.hash);
    if gone < |c.entries| {
      var outputs := c.entries[gone].outputs - {q.index};
      if outputs == map[] {
        assert q.hash == p.hash ==> p.index in outputs;
        RemovalRetains(c, capacity, gone, p, younger);
      } else {
        FoundAt(RemoveOutput(c, q).entries, k);
      }
    }
  }

  // ---------------------------------------------------------------- the age counter

  /** The counter counts the adds that are not ignored, modulo its width. */
  lemma {:induction false} SequenceCountsAdds(capacity: nat, ops: seq<Operation>)
    ensures Run(capacity, ops).sequence == Adds(capacity, ops, 0) % (MAX_UINT32 + 1)
    decreases |ops|
  {
    hide Apply;
    hide Ignored;
    if ops != [] {
      var n := |ops| - 1;
      SequenceCountsAdds(capacity, ops[..n]);
      ApplyCounts(Run(capacity, ops[..n]), capacity, ops[n], Adds(capacity, ops[..n], 0));
    }
  }

  lemma ApplyCounts(c: Cache, capacity: nat, op: Operation, adds: nat)
    requires c.sequence == adds % (MAX_UINT32 + 1)
    ensures Apply(c, capacity, op).sequence
            == (if op.AddStep? && !Ignored(capacity, op.x) then adds + 1 else adds) % (MAX_UINT32 + 1)
  {
    hide MakeRoom;
    hide Has;
    hide Find;
    hide NewEntry;
    CountsOn(adds);
  }

  lemma CountsOn(adds: nat)
    ensures (adds + 1) % (MAX_UINT32 + 1)
            == if adds % (MAX_UINT32 + 1) == MAX_UINT32 then 0 else adds % (MAX_UINT32 + 1) + 1
  {
  }
}
