/** The cache of unspent outputs as it is kept: a map by transaction hash and one by age, over output maps
    that entries share with those who copy them. */
module UnspentOutputs {
  import opened Types
  import opened TransactionTable
  import opened OutputCache

  /** The unspent outputs of one transaction, by index. */
  class OutputMap {
    var outputs: Outputs

    constructor (list: seq<TransactionOutput>)
      ensures outputs == AllOutputs(list)
    {
      outputs := map[];
      new;
      for index := 0 to |list|
        invariant outputs == AllOutputs(list[..index])
      {
        outputs := outputs[index := list[index]];
      }
      assert list[..|list|] == list;
    }

    method Erase(index: nat)
      modifies this
      ensures outputs == old(outputs) - {index}
    {
      outputs := outputs - {index};
    }
  }

  /** A cached transaction; copies share its output map. */
  datatype UnspentTransaction = UnspentTransaction(
    height: nat, time: nat, coinbase: bool, confirmed: bool, hash: Hash, outputs: OutputMap)

  datatype Slot = Slot(tx: UnspentTransaction, sequence: nat)

  type Slots = map<Hash, Slot>

  ghost function MapsOf(left: Slots): set<OutputMap> {
    set h | h in left :: left[h].tx.outputs
  }

  /** The slot is that of this entry, whatever outputs are left. */
  ghost predicate IsSlotOf(slot: Slot, e: Entry) {
    && slot.tx.hash == e.hash && slot.tx.height == e.height && slot.tx.time == e.time
    && slot.tx.coinbase == e.coinbase && slot.tx.confirmed == e.confirmed
  }

  ghost predicate SlotAt(left: Slots, right: map<nat, Hash>, e: Entry, sequence: nat) {
    && e.hash in left && IsSlotOf(left[e.hash], e)
    && left[e.hash].sequence <= sequence
    && left[e.hash].sequence in right && right[left[e.hash].sequence] == e.hash
  }

  ghost function HashesOf(entries: seq<Entry>): set<Hash> {
    set e | e in entries :: e.hash
  }

  /** Later entries have higher sequences. */
  ghost predicate Ascending(left: Slots, entries: seq<Entry>) {
    forall i, j :: 0 <= i < j < |entries| ==>
      && entries[i].hash in left && entries[j].hash in left
      && left[entries[i].hash].sequence < left[entries[j].hash].sequence
  }

  ghost predicate Inverse(left: Slots, right: map<nat, Hash>) {
    forall q :: q in right ==> right[q] in left && left[right[q]].sequence == q
  }

  /** No two slots share an output map. */
  ghost predicate Unshared(left: Slots) {
    forall g, h :: g in left && h in left && g != h ==> left[g].tx.outputs != left[h].tx.outputs
  }

  ghost predicate SlotsAt(left: Slots, right: map<nat, Hash>, entries: seq<Entry>, sequence: nat) {
    forall e :: e in entries ==> SlotAt(left, right, e, sequence)
  }

  /** The two sides hold the entries, in order of age. */
  ghost predicate Bimap(left: Slots, right: map<nat, Hash>, entries: seq<Entry>, sequence: nat) {
    && left.Keys == HashesOf(entries) && SlotsAt(left, right, entries, sequence)
    && Ascending(left, entries) && Inverse(left, right) && Unshared(left)
  }

  ghost predicate Distinct(entries: seq<Entry>) {
    forall i, j :: 0 <= i < j < |entries| ==> entries[i].hash != entries[j].hash
  }

  /** The lowest sequence is that of the oldest entry. */
  lemma OldestIsFirst(left: Slots, right: map<nat, Hash>, entries: seq<Entry>, sequence: nat)
    requires Bimap(left, right, entries, sequence) && entries != []
    ensures var first := left[entries[0].hash].sequence;
            first in right && right[first] == entries[0].hash && forall other :: other in right ==> first <= other
  {
    var first := left[entries[0].hash].sequence;
    assert SlotAt(left, right, entries[0], sequence);
    forall other | other in right ensures first <= other {
      assert right[other] in left.Keys;
      var e :| e in entries && e.hash == right[other];
      var i :| 0 <= i < |entries| && entries[i] == e;
    }
  }

  lemma EraseKeepsBimap(left: Slots, right: map<nat, Hash>, entries: seq<Entry>, sequence: nat, k: nat)
    requires Bimap(left, right, entries, sequence) && Distinct(entries) && k < |entries|
    ensures var h := entries[k].hash;
            h in left && Bimap(left - {h}, right - {left[h].sequence}, Without(entries, k), sequence)
  {
    hide SlotsAt;
    hide Ascending;
    hide HashesOf;
    SlotOfEntry(left, right, entries, sequence, entries[k]);
    HashesWithout(entries, k);
    EraseKeepsSlots(left, right, entries, sequence, k);
    EraseKeepsOrder(left, entries, k);
  }

  lemma EraseKeepsSlots(left: Slots, right: map<nat, Hash>, entries: seq<Entry>, sequence: nat, k: nat)
    requires SlotsAt(left, right, entries, sequence) && Distinct(entries) && k < |entries|
    ensures var h := entries[k].hash;
            h in left && SlotsAt(left - {h}, right - {left[h].sequence}, Without(entries, k), sequence)
  {
    hide Without;
    var h := entries[k].hash;
    assert SlotAt(left, right, entries[k], sequence);
    OthersWithout(entries, k);
    forall e | e in Without(entries, k) ensures SlotAt(left - {h}, right - {left[h].sequence}, e, sequence) {
      assert SlotAt(left, right, e, sequence);
    }
  }

  lemma EraseKeepsOrder(left: Slots, entries: seq<Entry>, k: nat)
    requires Ascending(left, entries) && Distinct(entries) && k < |entries|
    ensures Ascending(left - {entries[k].hash}, Without(entries, k))
  {
    var after := Without(entries, k);
    forall i, j | 0 <= i < j < |after|
      ensures after[i].hash in left - {entries[k].hash} && after[j].hash in left - {entries[k].hash}
      ensures left[after[i].hash].sequence < left[after[j].hash].sequence
    {
      var a, b := if i < k then i else i + 1, if j < k then j else j + 1;
      assert after[i] == entries[a] && after[j] == entries[b];
    }
  }

  lemma InsertKeepsBimap(left: Slots, right: map<nat, Hash>, entries: seq<Entry>, sequence: nat, e: Entry, slot: Slot)
    requires Bimap(left, right, entries, sequence) && e.hash !in left
    requires IsSlotOf(slot, e) && slot.sequence == sequence && slot.tx.outputs !in MapsOf(left)
    requires forall h :: h in left ==> left[h].sequence < sequence
    ensures Bimap(left[e.hash := slot], right[sequence := e.hash], entries + [e], sequence)
  {
    hide SlotsAt;
    hide Ascending;
    hide HashesOf;
    hide Inverse;
    hide Unshared;
    HashesAppend(entries, e);
    InsertKeepsSlots(left, right, entries, sequence, e, slot);
    InsertKeepsOrder(left, entries, sequence, e, slot);
    InsertKeepsInverse(left, right, sequence, e.hash, slot);
    InsertKeepsUnshared(left, e.hash, slot);
  }

  lemma InsertKeepsInverse(left: Slots, right: map<nat, Hash>, sequence: nat, h: Hash, slot: Slot)
    requires Inverse(left, right) && h !in left && slot.sequence == sequence
    ensures Inverse(left[h := slot], right[sequence := h])
  {
  }

  lemma InsertKeepsUnshared(left: Slots, h: Hash, slot: Slot)
    requires Unshared(left) && h !in left && slot.tx.outputs !in MapsOf(left)
    ensures Unshared(left[h := slot])
  {
    assert forall g :: g in left ==> left[g].tx.outputs in MapsOf(left);
  }

  lemma HashesAppend(entries: seq<Entry>, e: Entry)
    ensures HashesOf(entries + [e]) == HashesOf(entries) + {e.hash}
  {
    assert e in entries + [e];
    assert forall x :: x in entries ==> x in entries + [e];
  }

  lemma InsertKeepsSlots(left: Slots, right: map<nat, Hash>, entries: seq<Entry>, sequence: nat, e: Entry, slot: Slot)
    requires SlotsAt(left, right, entries, sequence) && e.hash !in left
    requires IsSlotOf(slot, e) && slot.sequence == sequence
    requires forall h :: h in left ==> left[h].sequence < sequence
    ensures SlotsAt(left[e.hash := slot], right[sequence := e.hash], entries + [e], sequence)
  {
    forall x | x in entries + [e] ensures SlotAt(left[e.hash := slot], right[sequence := e.hash], x, sequence) {
      if x in entries {
        assert SlotAt(left, right, x, sequence);
      }
    }
  }

  lemma InsertKeepsOrder(left: Slots, entries: seq<Entry>, sequence: nat, e: Entry, slot: Slot)
    requires Ascending(left, entries) && e.hash !in left && slot.sequence == sequence
    requires left.Keys == HashesOf(entries)
    requires forall h :: h in left ==> left[h].sequence < sequence
    ensures Ascending(left[e.hash := slot], entries + [e])
  {
    assert forall i :: 0 <= i < |entries| ==> entries[i].hash in HashesOf(entries);
  }

  lemma LaterKeepsBimap(left: Slots, right: map<nat, Hash>, entries: seq<Entry>, sequence: nat)
    requires Bimap(left, right, entries, sequence)
    ensures Bimap(left, right, entries, sequence + 1)
    ensures forall h :: h in left ==> left[h].sequence < sequence + 1
  {
    forall e | e in entries ensures SlotAt(left, right, e, sequence + 1) {
      assert SlotAt(left, right, e, sequence);
    }
    forall h | h in left ensures left[h].sequence < sequence + 1 {
      assert h in left.Keys;
      var e :| e in entries && e.hash == h;
      assert SlotAt(left, right, e, sequence);
    }
  }

  lemma UpdateKeepsBimap(left: Slots, right: map<nat, Hash>, entries: seq<Entry>, sequence: nat, k: nat,
                         outputs: Outputs)
    requires Bimap(left, right, entries, sequence) && k < |entries|
    ensures Bimap(left, right, entries[k := entries[k].(outputs := outputs)], sequence)
  {
    var e := entries[k].(outputs := outputs);
    var after := entries[k := e];
    forall x | x in after ensures SlotAt(left, right, x, sequence) {
      assert SlotAt(left, right, entries[k], sequence);
      if x in entries {
        assert SlotAt(left, right, x, sequence);
      }
    }
    SameHashes(entries, after);
    assert Ascending(left, after) by {
      assert forall i :: 0 <= i < |entries| ==> after[i].hash == entries[i].hash;
    }
  }

  lemma SameHashes(entries: seq<Entry>, after: seq<Entry>)
    requires |after| == |entries| && forall i :: 0 <= i < |entries| ==> after[i].hash == entries[i].hash
    ensures HashesOf(after) == HashesOf(entries)
  {
    forall e | e in entries ensures e.hash in HashesOf(after) {
      var i :| 0 <= i < |entries| && entries[i] == e;
      assert after[i] in after;
    }
    forall e | e in after ensures e.hash in HashesOf(entries) {
      var i :| 0 <= i < |after| && after[i] == e;
      assert entries[i] in entries;
    }
  }

  /** A transaction is cached exactly when it is in the queue, once. */
  lemma CachedIsFound(left: Slots, right: map<nat, Hash>, entries: seq<Entry>, sequence: nat, h: Hash)
    requires Bimap(left, right, entries, sequence)
    ensures h in left <==> Has(entries, h)
  {
    assert h in left <==> h in HashesOf(entries);
    if Has(entries, h) {
      assert entries[Find(entries, h)] in entries;
    }
  }

  // ---------------------------------------------------------------- the object

  class UnspentOutputCache {
    const capacity: nat
    var sequence: nat
    // The two sides of the bimap.
    var left: Slots
    var right: map<nat, Hash>

    /** The entries, the oldest first. */
    ghost var entries: seq<Entry>

    /** The output map of a cached transaction holds what the entry says. */
    ghost predicate HoldsOutputs(e: Entry)
      reads this, MapsOf(left)
    {
      e.hash in left && left[e.hash].tx.outputs in MapsOf(left) && left[e.hash].tx.outputs.outputs == e.outputs
    }

    ghost predicate Valid()
      reads this, MapsOf(left)
    {
      && WellKept(Cache(sequence, entries), capacity)
      && Bimap(left, right, entries, sequence)
      && forall e :: e in entries ==> HoldsOutputs(e)
    }

    ghost function View(): Cache
      reads this
    {
      Cache(sequence, entries)
    }

    constructor (limit: nat)
      ensures Valid() && View() == EMPTY_CACHE && capacity == limit
      ensures left == map[]
    {
      capacity := limit;
      sequence := 0;
      left, right := map[], map[];
      entries := [];
    }

    predicate Disabled() {
      capacity == 0
    }

    /** Erase from both sides of the bimap. */
    method EraseSlot(h: Hash, ghost k: nat)
      requires WellKept(Cache(sequence, entries), capacity) && Bimap(left, right, entries, sequence)
      requires forall e :: e in entries && e.hash != h ==> HoldsOutputs(e)
      requires k < |entries| && entries[k].hash == h && h in left
      modifies this`left, this`right, this`entries
      ensures Valid() && entries == Without(old(entries), k)
      ensures MapsOf(left) <= MapsOf(old(left))
    {
      hide Bimap;
      hide Without;
      ghost var was, slots := entries, left;
      EraseKeepsBimap(left, right, entries, sequence, k);
      left, right := left - {h}, right - {left[h].sequence};
      entries := Without(was, k);
      OthersWithout(was, k);
      forall e | e in entries ensures HoldsOutputs(e) {
        assert e.hash in slots && e.hash in left && left[e.hash] == slots[e.hash];
      }
      WithoutKeepsWell(Cache(sequence, was), capacity, k);
    }

    /** Erase the entry with the lowest sequence. */
    method EraseOldest()
      requires Valid() && entries != []
      modifies this`left, this`right, this`entries
      ensures Valid() && entries == old(entries)[1..]
      ensures MapsOf(left) <= MapsOf(old(left))
    {
      hide Bimap;
      hide WellKept;
      OldestIsFirst(left, right, entries, sequence);
      assert HoldsOutputs(entries[0]);
      var oldest :| oldest in right && forall other :: other in right ==> oldest <= other;
      EraseSlot(right[oldest], 0);
    }

    /** Insert a slot unless its key is present. */
    method Insert(x: Cached)
      requires Valid() && !Ignored(capacity, x) && |entries| < capacity
      requires forall h :: h in left ==> left[h].sequence < sequence
      modifies this`left, this`right, this`entries
      ensures Valid()
      ensures entries == if Has(old(entries), x.tx.hash) then old(entries) else old(entries) + [NewEntry(x)]
      ensures fresh(MapsOf(left) - MapsOf(old(left)))
    {
      hide Bimap;
      hide Has;
      CachedIsFound(left, right, entries, sequence, x.tx.hash);
      if x.tx.hash in left {
        return;
      }
      var outputs := new OutputMap(x.tx.outputs);
      var unspent := UnspentTransaction(x.height, x.time, x.coinbase, x.confirmed, x.tx.hash, outputs);
      ghost var e, was := NewEntry(x), entries;
      InsertKeepsBimap(left, right, entries, sequence, e, Slot(unspent, sequence));
      InsertKeepsWell(Cache(sequence, was), capacity, x);
      assert forall b :: b in was ==> HoldsOutputs(b) && b.hash in left;
      ghost var slots := left;
      left, right := left[unspent.hash := Slot(unspent, sequence)], right[sequence := unspent.hash];
      entries := was + [e];
      forall b | b in entries ensures HoldsOutputs(b) {
        assert b.hash in left && left[b.hash].tx.outputs in MapsOf(left);
        if b in was {
          assert b.hash in slots;
        }
      }
    }

    /** Start over when the counter is used up, and make room for one entry. */
    method MakeSpace()
      requires Valid() && capacity > 0
      modifies this`left, this`right, this`entries
      ensures Valid() && entries == MakeRoom(old(View()), capacity) && |entries| < capacity
      ensures MapsOf(left) <= MapsOf(old(left))
    {
      if sequence == MAX_UINT32 {
        left, right, entries := map[], map[], [];
      }
      SizeIsLength(left, right, entries, sequence);
      // A full cache gives up the entry with the lowest sequence.
      if |left| >= capacity {
        EraseOldest();
      }
    }

    /** Add the outputs of a transaction. */
    method Add(x: Cached)
      requires Valid()
      modifies this
      ensures Valid() && View() == OutputCache.Add(old(View()), capacity, x)
      ensures fresh(MapsOf(left) - MapsOf(old(left)))
    {
      hide Bimap;
      hide MakeRoom;
      hide Has;
      hide NewEntry;
      if Disabled() || x.tx.outputs == [] {
        return;
      }
      MakeSpace();
      LaterKeepsBimap(left, right, entries, sequence);
      // The counter wraps around.
      if sequence == MAX_UINT32 {
        UsedUp(old(View()), capacity);
        EmptyBimap(left, right, sequence);
      }
      sequence := (sequence + 1) % 0x1_0000_0000;
      assert forall e :: e in entries ==> HoldsOutputs(e);
      Insert(x);
    }

    /** Remove a transaction that has been reorganized out. */
    method RemoveHash(h: Hash)
      requires Valid()
      modifies this`left, this`right, this`entries
      ensures Valid() && View() == RemoveTransaction(old(View()), h)
    {
      hide Bimap;
      CachedIsFound(left, right, entries, sequence, h);
      if Disabled() || h !in left {
        return;
      }
      EraseSlot(h, Find(entries, h));
    }

    /** Remove an output that has been spent by a confirmed transaction. */
    method RemovePoint(p: Point)
      requires Valid()
      modifies this`left, this`right, this`entries, MapsOf(left)
      ensures Valid() && View() == RemoveOutput(old(View()), p)
    {
      hide Bimap;
      hide Without;
      CachedIsFound(left, right, entries, sequence, p.hash);
      if Disabled() || p.hash !in left {
        return;
      }
      ghost var k, was := Find(entries, p.hash), entries;
      assert HoldsOutputs(was[k]);
      var outputs := left[p.hash].tx.outputs;
      OutputMapsDiffer(left, right, entries, sequence, p.hash);
      assert forall e :: e in was && e.hash != p.hash ==> HoldsOutputs(e) && left[e.hash].tx.outputs != outputs;
      outputs.Erase(p.index);
      if outputs.outputs == map[] {
        EraseSlot(p.hash, k);
      } else {
        UpdateKeepsBimap(left, right, was, sequence, k, outputs.outputs);
        entries := was[k := was[k].(outputs := outputs.outputs)];
        forall e | e in entries ensures HoldsOutputs(e) {
          OthersUpdated(was, k, outputs.outputs, e);
        }
      }
    }

    /** Populate an output if it is cached, relative to the fork height. */
    method Populate(p: Point, fork: nat) returns (hit: Option<Hit>)
      requires Valid()
      ensures hit == OutputCache.Populate(View(), p, fork)
    {
      hide Bimap;
      CachedIsFound(left, right, entries, sequence, p.hash);
      if Disabled() || p.hash !in left {
        return None;
      }
      ghost var e := entries[Find(entries, p.hash)];
      SlotOfEntry(left, right, entries, sequence, e);
      assert HoldsOutputs(e);
      var tx := left[p.hash].tx;
      if p.index !in tx.outputs.outputs {
        return None;
      }
      return Some(Hit(tx.height, tx.time, tx.coinbase, false, tx.confirmed && tx.height <= fork, false, false,
                      tx.outputs.outputs[p.index]));
    }
  }

  // ---------------------------------------------------------------- what the methods need

  lemma SizeIsLength(left: Slots, right: map<nat, Hash>, entries: seq<Entry>, sequence: nat)
    requires Bimap(left, right, entries, sequence) && Distinct(entries)
    ensures |left| == |entries|
  {
    HashesAreDistinct(entries);
    assert |left| == |left.Keys|;
  }

  lemma SlotOfEntry(left: Slots, right: map<nat, Hash>, entries: seq<Entry>, sequence: nat, e: Entry)
    requires Bimap(left, right, entries, sequence) && e in entries
    ensures SlotAt(left, right, e, sequence)
  {
  }

  lemma EmptyBimap(left: Slots, right: map<nat, Hash>, sequence: nat)
    requires Bimap(left, right, [], sequence)
    ensures left == map[] && Bimap(left, right, [], 0)
  {
  }

  lemma UsedUp(c: Cache, capacity: nat)
    requires c.sequence == MAX_UINT32 && capacity > 0
    ensures MakeRoom(c, capacity) == []
  {
  }

  lemma OutputMapsDiffer(left: Slots, right: map<nat, Hash>, entries: seq<Entry>, sequence: nat, h: Hash)
    requires Bimap(left, right, entries, sequence) && h in left
    ensures forall g :: g in left && g != h ==> left[g].tx.outputs != left[h].tx.outputs
  {
  }

  lemma OthersWithout(entries: seq<Entry>, k: nat)
    requires Distinct(entries) && k < |entries|
    ensures forall e :: e in Without(entries, k) ==> e in entries && e.hash != entries[k].hash
  {
  }

  lemma WithoutKeepsWell(c: Cache, capacity: nat, k: nat)
    requires WellKept(c, capacity) && k < |c.entries|
    ensures WellKept(c.(entries := Without(c.entries, k)), capacity)
  {
  }

  lemma InsertKeepsWell(c: Cache, capacity: nat, x: Cached)
    requires WellKept(c, capacity) && !Ignored(capacity, x) && |c.entries| < capacity && !Has(c.entries, x.tx.hash)
    ensures WellKept(c.(entries := c.entries + [NewEntry(x)]), capacity)
  {
    NewEntryHasOutputs(x);
    AppendKeepsWell(c.entries, NewEntry(x));
  }

  lemma OthersUpdated(entries: seq<Entry>, k: nat, outputs: Outputs, e: Entry)
    requires Distinct(entries) && k < |entries| && e in entries[k := entries[k].(outputs := outputs)]
    ensures e == entries[k].(outputs := outputs) || (e in entries && e.hash != entries[k].hash)
  {
  }

  lemma {:induction false} HashesAreDistinct(entries: seq<Entry>)
    requires Distinct(entries)
    ensures |HashesOf(entries)| == |entries|
    decreases |entries|
  {
    if entries != [] {
      var n := |entries| - 1;
      HashesAreDistinct(entries[..n]);
      assert entries == entries[..n] + [entries[n]];
      HashesAppend(entries[..n], entries[n]);
    }
  }

  lemma HashesWithout(entries: seq<Entry>, k: nat)
    requires k < |entries| && Distinct(entries)
    ensures HashesOf(Without(entries, k)) == HashesOf(entries) - {entries[k].hash}
  {
    var after := Without(entries, k);
    forall e | e in entries && e.hash != entries[k].hash ensures e in after {
      var i :| 0 <= i < |entries| && entries[i] == e;
      assert after[if i < k then i else i - 1] == e;
    }
  }
}
