/** Reading and writing a record in place: the walks over its bytes that queries and spends make. */
module RecordAccess {
  import opened Types
  import opened Serial
  import opened Record

  /** The record holds exactly the encoding of a well-formed row. */
  ghost predicate Holds(record: array<Byte>, row: Row)
    reads record
  {
    WellFormed(row) && record[..] == Encode(row)
  }

  /** Write the k low-order bytes of n at the cursor. */
  method WriteFixed(record: array<Byte>, c: nat, n: nat, k: nat)
    requires c + k <= record.Length
    modifies record
    ensures record[..] == Splice(old(record[..]), c, LittleEndian(n, k))
  {
    ghost var was := record[..];
    var rest := n;
    for i := 0 to k
      invariant rest >= 0
      invariant LittleEndian(n, k) == LittleEndian(n, k)[..i] + LittleEndian(rest, k - i)
      invariant record[..] == Splice(was, c, LittleEndian(n, k)[..i])
    {
      assert LittleEndian(n, k)[i] == rest % 256;
      assert LittleEndian(n, k)[..i + 1] == LittleEndian(n, k)[..i] + [rest % 256];
      record[c + i] := rest % 256;
      rest := rest / 256;
    }
    assert LittleEndian(n, k)[..k] == LittleEndian(n, k);
  }

  /** The CompactSize integer at the cursor, which is known to be there. */
  method ReadSizeFrom(record: array<Byte>, c: nat, ghost expected: nat) returns (value: nat, next: nat)
    requires expected <= MAX_UINT64 && At(record[..], c, CompactSize(expected))
    ensures value == expected && next == c + |CompactSize(expected)|
  {
    ReadSizeAt(record[..], c, expected);
    var size := ReadSize(record[..], c);
    value, next := size.value.value, size.value.next;
  }

  /** Where the script of an encoded output stands. */
  lemma OutputParts(s: seq<Byte>, c: nat, o: Output)
    requires At(s, c, EncodeOutput(o))
    ensures At(s, c + SPEND_SIZE, CompactSize(|o.script|))
    ensures |EncodeOutput(o)| == SPEND_SIZE + |CompactSize(|o.script|)| + |o.script|
  {
    hide CompactSize;
    hide LittleEndian;
    hide At;
    var script, value, spender := Prefixed(o.script), LittleEndian(o.value, 8), LittleEndian(o.spender, 4);
    AtConcat(s, c, [Flag(o.candidateSpent)], spender + (value + script));
    AtConcat(s, c + 1, spender, value + script);
    AtConcat(s, c + 5, value, script);
    AtConcat(s, c + 13, CompactSize(|o.script|), o.script);
  }

  lemma OutputScriptAt(record: seq<Byte>, row: Row, i: nat)
    requires WellFormed(row) && record == Encode(row) && i < |row.outputs|
    ensures At(record, OutputAt(row, i) + SPEND_SIZE, CompactSize(|row.outputs[i].script|))
    ensures |row.outputs[i].script| <= MAX_UINT64
    ensures OutputAt(row, i + 1) == OutputAt(row, i) + SPEND_SIZE
              + |CompactSize(|row.outputs[i].script|)| + |row.outputs[i].script|
  {
    hide CompactSize;
    hide EncodeOutput;
    hide Encode;
    hide OutputAt;
    hide At;
    assert row.outputs[i] in row.outputs;
    SplitAtOutput(row, i);
    OutputParts(record, OutputAt(row, i), row.outputs[i]);
  }

  lemma OutputCountAt(record: seq<Byte>, row: Row)
    requires WellFormed(row) && record == Encode(row)
    ensures At(record, METADATA_SIZE, CompactSize(|row.outputs|))
    ensures METADATA_SIZE + |CompactSize(|row.outputs|)| == OutputAt(row, 0)
    ensures RestAt(row) == OutputAt(row, |row.outputs|)
    ensures At(record, RestAt(row), EncodeRest(row))
  {
    hide CompactSize;
    hide At;
    RecordParts(row);
    assert row.outputs[..|row.outputs|] == row.outputs;
  }

  /** Skip the metadata and read the output count. */
  method OutputCount(record: array<Byte>, ghost row: Row) returns (outputs: nat, c: nat)
    requires Holds(record, row)
    ensures outputs == |row.outputs| && c == OutputAt(row, 0)
  {
    OutputCountAt(record[..], row);
    outputs, c := ReadSizeFrom(record, METADATA_SIZE, |row.outputs|);
  }

  /** Walk over the outputs before this one. */
  method SeekOutput(record: array<Byte>, index: nat, ghost row: Row) returns (c: nat)
    requires Holds(record, row) && index <= |row.outputs|
    ensures c == OutputAt(row, index)
  {
    hide OutputAt;
    hide Encode;
    var outputs;
    outputs, c := OutputCount(record, row);
    for output := 0 to index
      invariant c == OutputAt(row, output)
    {
      OutputScriptAt(record[..], row, output);
      var size, next := ReadSizeFrom(record, c + SPEND_SIZE, |row.outputs[output].script|);
      c := next + size;
    }
  }

  /** Overwrite the candidate-spent byte of one output. */
  method WriteCandidateSpent(record: array<Byte>, index: nat, positive: bool, ghost row: Row)
    requires Holds(record, row) && index < |row.outputs|
    modifies record
    ensures Holds(record, SetCandidateSpent(row, index, positive))
    ensures forall k :: 0 <= k < record.Length && k != OutputAt(row, index) ==> record[k] == old(record[k])
  {
    hide Encode;
    hide OutputAt;
    var c := SeekOutput(record, index, row);
    SpliceCandidateSpent(row, index, positive);
    ghost var was := record[..];
    record[c] := Flag(positive);
    assert record[..] == Splice(was, c, [Flag(positive)]);
  }

  /** Overwrite the spender height of one output. */
  method WriteSpender(record: array<Byte>, index: nat, height: nat, ghost row: Row)
    requires Holds(record, row) && index < |row.outputs| && height <= MAX_UINT32
    modifies record
    ensures Holds(record, SetSpender(row, index, height))
    ensures forall k :: 0 <= k < record.Length && !(OutputAt(row, index) < k <= OutputAt(row, index) + 4)
              ==> record[k] == old(record[k])
  {
    hide Encode;
    hide OutputAt;
    var c := SeekOutput(record, index, row);
    SpliceSpender(row, index, height);
    ghost var was := record[..];
    WriteFixed(record, c + 1, height, 4);
    assert record[..] == Splice(was, c + 1, LittleEndian(height, 4));
    forall k | 0 <= k < record.Length && !(c < k <= c + 4) ensures record[k] == was[k] {
      assert record[k] == record[..][k];
    }
  }

  /** Overwrite the candidate flag of the transaction. */
  method WriteCandidate(record: array<Byte>, positive: bool, ghost row: Row)
    requires Holds(record, row)
    modifies record
    ensures Holds(record, row.(candidate := positive))
    ensures forall k :: 0 <= k < record.Length && k != 6 ==> record[k] == old(record[k])
  {
    hide Encode;
    SpliceCandidate(row, positive);
    ghost var was := record[..];
    record[6] := Flag(positive);
    assert record[..] == Splice(was, 6, [Flag(positive)]);
  }

  /** Overwrite the leading metadata; the candidate flag is always cleared. */
  method WriteMetadata(record: array<Byte>, height: nat, position: nat, time: nat, ghost row: Row)
    requires Holds(record, row)
    requires height <= MAX_UINT32 && position <= MAX_UINT16 && time <= MAX_UINT32
    modifies record
    ensures Holds(record, row.(height := height, position := position, candidate := false, time := time))
    ensures forall k :: METADATA_SIZE <= k < record.Length ==> record[k] == old(record[k])
  {
    hide Encode;
    ghost var changed := row.(height := height, position := position, candidate := false, time := time);
    SpliceMetadata(row, changed);
    ghost var was := record[..];
    WriteFixed(record, 0, height, 4);
    WriteFixed(record, 4, position, 2);
    record[6] := CANDIDATE_FALSE;
    WriteFixed(record, 7, time, 4);
    MetadataFields(was, record[..], changed);
    forall k | METADATA_SIZE <= k < record.Length ensures record[k] == was[k] {
      assert record[k] == record[..][k];
    }
  }

  lemma MetadataFields(was: seq<Byte>, now: seq<Byte>, row: Row)
    requires METADATA_SIZE <= |was|
    requires now == Splice(Splice(Splice(Splice(was, 0, LittleEndian(row.height, 4)), 4, LittleEndian(row.position, 2)),
                                  6, [Flag(row.candidate)]), 7, LittleEndian(row.time, 4))
    ensures now == Splice(was, 0, EncodeMetadata(row))
  {
    hide LittleEndian;
    var height, position, time := LittleEndian(row.height, 4), LittleEndian(row.position, 2), LittleEndian(row.time, 4);
    var metadata := EncodeMetadata(row);
    assert metadata == height + (position + ([Flag(row.candidate)] + time));
    forall k | 0 <= k < |was| ensures now[k] == Splice(was, 0, metadata)[k] {
    }
  }

  // ---------------------------------------------------------------- iteration

  /** Walks the previous output points of a transaction. */
  class InpointIterator {
    var inpoints: seq<Point>
    var index: nat

    ghost predicate Valid()
      reads this
    {
      index <= |inpoints|
    }

    /** Prepopulate the points by walking the record past its outputs. */
    constructor (record: array<Byte>, ghost row: Row)
      requires Holds(record, row)
      ensures Valid() && inpoints == row.Points() && index == 0
    {
      index := 0;
      inpoints := [];
      new;
      var outputs, c := OutputCount(record, row);
      c := SkipOutputs(record, outputs, c, row);
      inpoints := ReadInpoints(record, c, row);
    }

    /** The end of every range: it has no points. */
    constructor Terminal()
      ensures Valid() && inpoints == [] && index == 0
    {
      index := 0;
      inpoints := [];
    }

    method Current() returns (point: Point)
      requires Valid() && index < |inpoints|
      ensures point == inpoints[index]
    {
      point := inpoints[index];
    }

    method Increment()
      requires Valid() && index < |inpoints|
      modifies this
      ensures Valid() && inpoints == old(inpoints) && index == old(index) + 1
    {
      index := index + 1;
    }

    /** Two iterators are equal when both are spent, or when neither is and they stand at one index. */
    predicate Equals(other: InpointIterator)
      reads this, other
    {
      var leftTerminal := |inpoints| == index;
      var rightTerminal := |other.inpoints| == other.index;
      (leftTerminal && rightTerminal) || (index == other.index && !leftTerminal && !rightTerminal)
    }
  }

  function InputAt(row: Row, i: nat): nat
    requires i <= |row.inputs|
  {
    RestAt(row) + |CompactSize(|row.inputs|)| + |EncodeAll(row.inputs[..i], EncodeInput)|
  }

  method SkipOutputs(record: array<Byte>, outputs: nat, start: nat, ghost row: Row) returns (c: nat)
    requires Holds(record, row) && outputs == |row.outputs| && start == OutputAt(row, 0)
    ensures c == RestAt(row)
  {
    hide OutputAt;
    hide Encode;
    hide RestAt;
    c := start;
    for output := 0 to outputs
      invariant c == OutputAt(row, output)
    {
      OutputScriptAt(record[..], row, output);
      var size, next := ReadSizeFrom(record, c + SPEND_SIZE, |row.outputs[output].script|);
      c := next + size;
    }
    OutputCountAt(record[..], row);
  }

  lemma InputCountAt(record: seq<Byte>, row: Row)
    requires WellFormed(row) && record == Encode(row)
    ensures At(record, RestAt(row), CompactSize(|row.inputs|))
    ensures RestAt(row) + |CompactSize(|row.inputs|)| == InputAt(row, 0)
  {
    hide CompactSize;
    hide At;
    RecordParts(row);
    AtConcat(record, RestAt(row), CompactSize(|row.inputs|),
             EncodeAll(row.inputs, EncodeInput) + (CompactSize(row.locktime) + CompactSize(row.version)));
  }

  lemma InputStandsAt(record: seq<Byte>, row: Row, i: nat)
    requires WellFormed(row) && record == Encode(row) && i < |row.inputs|
    ensures WellFormedInput(row.inputs[i])
    ensures At(record, InputAt(row, i), EncodeInput(row.inputs[i]))
    ensures InputAt(row, i + 1) == InputAt(row, i) + |EncodeInput(row.inputs[i])|
  {
    hide CompactSize;
    hide At;
    hide EncodeInput;
    hide EncodeAll;
    hide Encode;
    RecordParts(row);
    var x := row.inputs[i];
    assert x in row.inputs;
    var count, ins := CompactSize(|row.inputs|), EncodeAll(row.inputs, EncodeInput);
    AtConcat(record, RestAt(row), count, ins + (CompactSize(row.locktime) + CompactSize(row.version)));
    AtConcat(record, RestAt(row) + |count|, ins, CompactSize(row.locktime) + CompactSize(row.version));
    ItemAt(record, RestAt(row) + |count|, row.inputs, i, EncodeInput);
  }

  /** Read one input point; skip the script, the witnesses and the sequence. */
  method ReadInput(record: array<Byte>, start: nat, i: nat, ghost row: Row) returns (point: Point, c: nat)
    requires Holds(record, row) && i < |row.inputs| && start == InputAt(row, i)
    ensures point == row.Points()[i] && c == InputAt(row, i + 1)
  {
    hide InputAt;
    hide Encode;
    hide EncodeInput;
    hide At;
    hide DecodePoint;
    ghost var x := row.inputs[i];
    InputStandsAt(record[..], row, i);
    InputParts(record[..], start, x);
    DecodePointAt(record[..], start, x.point);
    var read := DecodePoint(record[..], start);
    point, c := read.value.value, read.value.next;
    ReadPrefixedAt(record[..], c, x.script);
    c := SkipPrefixed(record, c, x.script);
    c := SkipWitnesses(record, c, x.witnesses);
    c := c + SEQUENCE_SIZE;
  }

  method ReadInpoints(record: array<Byte>, start: nat, ghost row: Row) returns (inpoints: seq<Point>)
    requires Holds(record, row) && start == RestAt(row)
    ensures inpoints == row.Points()
  {
    hide Encode;
    hide RestAt;
    hide InputAt;
    hide At;
    InputCountAt(record[..], row);
    var inputs, c := ReadSizeFrom(record, start, |row.inputs|);
    inpoints := [];
    for input := 0 to inputs
      invariant c == InputAt(row, input)
      invariant inpoints == row.Points()[..input]
    {
      var point;
      point, c := ReadInput(record, c, input, row);
      inpoints := inpoints + [point];
    }
  }

  method SkipPrefixed(record: array<Byte>, start: nat, ghost bytes: seq<Byte>) returns (c: nat)
    requires |bytes| <= MAX_UINT64 && At(record[..], start, Prefixed(bytes))
    ensures c == start + |Prefixed(bytes)|
  {
    AtConcat(record[..], start, CompactSize(|bytes|), bytes);
    var size, next := ReadSizeFrom(record, start, |bytes|);
    c := next + size;
  }

  method SkipWitnesses(record: array<Byte>, start: nat, ghost ws: seq<seq<Byte>>) returns (c: nat)
    requires |ws| <= MAX_UINT64 && forall w :: w in ws ==> |w| <= MAX_UINT64
    requires At(record[..], start, EncodeWitnesses(ws))
    ensures c == start + |EncodeWitnesses(ws)|
  {
    hide CompactSize;
    hide Prefixed;
    hide EncodeAll;
    hide At;
    EncodeAllNothing(ws, Prefixed);
    AtConcat(record[..], start, CompactSize(|ws|), EncodeAll(ws, Prefixed));
    var count, first := ReadSizeFrom(record, start, |ws|);
    c := first;
    ghost var done := 0;
    while count > 0
      invariant done + count == |ws|
      invariant c == first + |EncodeAll(ws[..done], Prefixed)|
      decreases count
    {
      ItemAt(record[..], first, ws, done, Prefixed);
      c := SkipPrefixed(record, c, ws[done]);
      count := count - 1;
      done := done + 1;
    }
    assert ws[..done] == ws;
  }

  /** The range loop over a transaction visits each of its inputs once, in order, and ends. */
  method VisitInpoints(record: array<Byte>, ghost row: Row) returns (visited: seq<Point>)
    requires Holds(record, row)
    ensures visited == row.Points()
  {
    var it := new InpointIterator(record, row);
    var end := new InpointIterator.Terminal();
    visited := [];
    while !it.Equals(end)
      invariant it.Valid() && fresh(it) && it.inpoints == row.Points()
      invariant fresh(end) && end != it && end.inpoints == [] && end.index == 0
      invariant visited == row.Points()[..it.index]
      decreases |it.inpoints| - it.index
    {
      var point := it.Current();
      visited := visited + [point];
      it.Increment();
    }
  }
}
