/** The variable-length record that holds one row of the transaction table.

    Record: height 4, position 2, candidate 1, median time past 4, then the outputs
    (candidate spent 1, spender height 4, value 8, script), the inputs (hash 32, index 2,
    script, witnesses, sequence 4), locktime and version. Counts, scripts, locktime and
    version are CompactSize integers or are prefixed by one. */
module Record {
  import opened Types
  import opened Serial

  const METADATA_SIZE := 4 + 2 + 1 + 4
  const SPEND_SIZE := 1 + 4 + 8
  const SEQUENCE_SIZE := 4

  const CANDIDATE_TRUE: Byte := 1
  const CANDIDATE_FALSE: Byte := 0

  // ---------------------------------------------------------------- well-formedness

  predicate WellFormedPoint(p: Point) {
    |p.hash| == HASH_SIZE && (p.index < MAX_UINT16 || p.index == NULL_INDEX)
  }

  predicate WellFormedOutput(o: Output) {
    o.spender <= MAX_UINT32 && o.value <= MAX_UINT64 && |o.script| <= MAX_UINT64
  }

  predicate WellFormedInput(x: Input) {
    && WellFormedPoint(x.point)
    && |x.script| <= MAX_UINT64
    && |x.witnesses| <= MAX_UINT64
    && (forall w :: w in x.witnesses ==> |w| <= MAX_UINT64)
    && x.sequence <= MAX_UINT32
  }

  /** Every field fits the width the record gives it. */
  predicate WellFormed(row: Row) {
    && row.height <= MAX_UINT32
    && row.position <= MAX_UINT16
    && row.time <= MAX_UINT32
    && |row.outputs| <= MAX_UINT32
    && (forall o :: o in row.outputs ==> WellFormedOutput(o))
    && |row.inputs| <= MAX_UINT32
    && (forall x :: x in row.inputs ==> WellFormedInput(x))
    && row.locktime <= MAX_UINT32
    && row.version <= MAX_UINT32
  }

  // ---------------------------------------------------------------- encoding

  function Flag(b: bool): Byte {
    if b then CANDIDATE_TRUE else CANDIDATE_FALSE
  }

  /** The null index is stored as the 16-bit sentinel. */
  function StoredIndex(index: nat): nat {
    if index == NULL_INDEX then MAX_UINT16 else index
  }

  function LoadedIndex(index: nat): nat {
    if index == MAX_UINT16 then NULL_INDEX else index
  }

  function EncodePoint(p: Point): seq<Byte> {
    p.hash + LittleEndian(StoredIndex(p.index), 2)
  }

  function EncodeOutput(o: Output): seq<Byte> {
    [Flag(o.candidateSpent)] + (LittleEndian(o.spender, 4) + (LittleEndian(o.value, 8) + Prefixed(o.script)))
  }

  function EncodeWitnesses(ws: seq<seq<Byte>>): seq<Byte> {
    CompactSize(|ws|) + EncodeAll(ws, Prefixed)
  }

  function EncodeInput(x: Input): seq<Byte> {
    EncodePoint(x.point) + (Prefixed(x.script) +
    (EncodeWitnesses(x.witnesses) + LittleEndian(x.sequence, SEQUENCE_SIZE)))
  }

  function EncodeMetadata(row: Row): (bytes: seq<Byte>)
    ensures |bytes| == METADATA_SIZE
  {
    LittleEndian(row.height, 4) + (LittleEndian(row.position, 2) +
    ([Flag(row.candidate)] + LittleEndian(row.time, 4)))
  }

  /** What follows the outputs. */
  function EncodeRest(row: Row): seq<Byte> {
    CompactSize(|row.inputs|) + (EncodeAll(row.inputs, EncodeInput) +
    (CompactSize(row.locktime) + CompactSize(row.version)))
  }

  function EncodeTransaction(row: Row): seq<Byte> {
    CompactSize(|row.outputs|) + (EncodeAll(row.outputs, EncodeOutput) + EncodeRest(row))
  }

  function Encode(row: Row): seq<Byte> {
    EncodeMetadata(row) + EncodeTransaction(row)
  }

  // ---------------------------------------------------------------- decoding

  function DecodePoint(s: seq<Byte>, c: nat): Option<Read<Point>> {
    var hash :- ReadBytes(s, c, HASH_SIZE);
    var index :- ReadFixed(s, hash.next, 2);
    Some(Read(Point(hash.value, LoadedIndex(index.value)), index.next))
  }

  function DecodeOutput(s: seq<Byte>, c: nat): Option<Read<Output>> {
    var flag :- ReadFixed(s, c, 1);
    var spender :- ReadFixed(s, flag.next, 4);
    var value :- ReadFixed(s, spender.next, 8);
    var script :- ReadPrefixed(s, value.next);
    Some(Read(Output(flag.value == CANDIDATE_TRUE, spender.value, value.value, script.value), script.next))
  }

  function DecodeWitnesses(s: seq<Byte>, c: nat): Option<Read<seq<seq<Byte>>>> {
    var count :- ReadSize(s, c);
    DecodeAll(s, count.next, count.value, ReadPrefixed)
  }

  function DecodeInput(s: seq<Byte>, c: nat): Option<Read<Input>> {
    var point :- DecodePoint(s, c);
    var script :- ReadPrefixed(s, point.next);
    var witnesses :- DecodeWitnesses(s, script.next);
    var sequence :- ReadFixed(s, witnesses.next, SEQUENCE_SIZE);
    Some(Read(Input(point.value, script.value, witnesses.value, sequence.value), sequence.next))
  }

  /** Decode a record; None unless it is consumed exactly. */
  function Decode(s: seq<Byte>): Option<Row> {
    var height :- ReadFixed(s, 0, 4);
    var position :- ReadFixed(s, height.next, 2);
    var candidate :- ReadFixed(s, position.next, 1);
    var time :- ReadFixed(s, candidate.next, 4);
    var outs :- ReadSize(s, time.next);
    var outputs :- DecodeAll(s, outs.next, outs.value, DecodeOutput);
    var ins :- ReadSize(s, outputs.next);
    var inputs :- DecodeAll(s, ins.next, ins.value, DecodeInput);
    var locktime :- ReadSize(s, inputs.next);
    var version :- ReadSize(s, locktime.next);
    if version.next != |s| then None
    else Some(Row(height.value, position.value, candidate.value == CANDIDATE_TRUE, time.value,
                  outputs.value, inputs.value, locktime.value, version.value))
  }

  // ---------------------------------------------------------------- round trip

  lemma ReadFlagAt(s: seq<Byte>, c: nat, b: bool)
    requires At(s, c, [Flag(b)])
    ensures ReadFixed(s, c, 1) == Some(Read(Flag(b), c + 1))
  {
    Capacities();
    assert LittleEndian(Flag(b), 1) == [Flag(b)];
    ReadFixedAt(s, c, Flag(b), 1);
  }

  lemma DecodePointAt(s: seq<Byte>, c: nat, p: Point)
    requires At(s, c, EncodePoint(p)) && WellFormedPoint(p)
    ensures DecodePoint(s, c) == Some(Read(p, c + |EncodePoint(p)|))
  {
    Capacities();
    AtConcat(s, c, p.hash, LittleEndian(StoredIndex(p.index), 2));
    ReadFixedAt(s, c + HASH_SIZE, StoredIndex(p.index), 2);
  }

  lemma DecodeOutputAt(s: seq<Byte>, c: nat, o: Output)
    requires At(s, c, EncodeOutput(o)) && WellFormedOutput(o)
    ensures DecodeOutput(s, c) == Some(Read(o, c + |EncodeOutput(o)|))
  {
    hide CompactSize;
    hide LittleEndian;
    Capacities();
    var script := Prefixed(o.script);
    var value, spender := LittleEndian(o.value, 8), LittleEndian(o.spender, 4);
    AtConcat(s, c, [Flag(o.candidateSpent)], spender + (value + script));
    AtConcat(s, c + 1, spender, value + script);
    AtConcat(s, c + 5, value, script);
    ReadFlagAt(s, c, o.candidateSpent);
    ReadFixedAt(s, c + 1, o.spender, 4);
    ReadFixedAt(s, c + 5, o.value, 8);
    ReadPrefixedAt(s, c + 13, o.script);
  }

  lemma ReadPrefixedInverts(s: seq<Byte>, bytes: seq<Byte>)
    requires |bytes| <= MAX_UINT64
    ensures Inverts(s, bytes, Prefixed, ReadPrefixed)
  {
    forall d: nat | At(s, d, Prefixed(bytes))
      ensures ReadPrefixed(s, d) == Some(Read(bytes, d + |Prefixed(bytes)|))
    {
      ReadPrefixedAt(s, d, bytes);
    }
  }

  lemma DecodePrefixedAt(s: seq<Byte>, c: nat, ws: seq<seq<Byte>>)
    requires At(s, c, EncodeAll(ws, Prefixed)) && forall w :: w in ws ==> |w| <= MAX_UINT64
    ensures DecodeAll(s, c, |ws|, ReadPrefixed) == Some(Read(ws, c + |EncodeAll(ws, Prefixed)|))
  {
    hide CompactSize;
    hide LittleEndian;
    hide At;
    hide ReadSize;
    hide ReadFixed;
    hide ReadBytes;
    forall w | w in ws ensures Inverts(s, w, Prefixed, ReadPrefixed) {
      ReadPrefixedInverts(s, w);
    }
    DecodeAllAt(s, c, ws, Prefixed, ReadPrefixed);
  }

  lemma DecodeWitnessesAt(s: seq<Byte>, c: nat, ws: seq<seq<Byte>>)
    requires At(s, c, EncodeWitnesses(ws))
    requires |ws| <= MAX_UINT64 && forall w :: w in ws ==> |w| <= MAX_UINT64
    ensures ReadSize(s, c) == Some(Read(|ws|, c + |CompactSize(|ws|)|))
    ensures DecodeWitnesses(s, c) == Some(Read(ws, c + |EncodeWitnesses(ws)|))
  {
    hide CompactSize;
    hide LittleEndian;
    hide At;
    hide ReadSize;
    hide ReadFixed;
    hide ReadBytes;
    AtConcat(s, c, CompactSize(|ws|), EncodeAll(ws, Prefixed));
    ReadSizeAt(s, c, |ws|);
    DecodePrefixedAt(s, c + |CompactSize(|ws|)|, ws);
  }

  /** Where the parts of an encoded input stand. */
  lemma InputParts(s: seq<Byte>, c: nat, x: Input)
    requires At(s, c, EncodeInput(x)) && WellFormedInput(x)
    ensures At(s, c, EncodePoint(x.point)) && |EncodePoint(x.point)| == HASH_SIZE + 2
    ensures At(s, c + HASH_SIZE + 2, Prefixed(x.script))
    ensures var d := c + HASH_SIZE + 2 + |Prefixed(x.script)|;
            && At(s, d, EncodeWitnesses(x.witnesses))
            && At(s, d + |EncodeWitnesses(x.witnesses)|, LittleEndian(x.sequence, SEQUENCE_SIZE))
            && c + |EncodeInput(x)| == d + |EncodeWitnesses(x.witnesses)| + SEQUENCE_SIZE
  {
    hide CompactSize;
    hide LittleEndian;
    var point, script := EncodePoint(x.point), Prefixed(x.script);
    var ws, sequence := EncodeWitnesses(x.witnesses), LittleEndian(x.sequence, SEQUENCE_SIZE);
    AtConcat(s, c, point, script + (ws + sequence));
    AtConcat(s, c + |point|, script, ws + sequence);
    AtConcat(s, c + |point| + |script|, ws, sequence);
  }

  lemma DecodeInputAt(s: seq<Byte>, c: nat, x: Input)
    requires At(s, c, EncodeInput(x)) && WellFormedInput(x)
    ensures DecodeInput(s, c) == Some(Read(x, c + |EncodeInput(x)|))
  {
    hide CompactSize;
    hide LittleEndian;
    hide At;
    hide ReadSize;
    hide ReadFixed;
    hide ReadBytes;
    InputParts(s, c, x);
    var d := c + HASH_SIZE + 2;
    var w := d + |Prefixed(x.script)|;
    var e := w + |EncodeWitnesses(x.witnesses)|;
    assert DecodePoint(s, c) == Some(Read(x.point, d)) by { DecodePointAt(s, c, x.point); }
    assert ReadPrefixed(s, d) == Some(Read(x.script, w)) by { ReadPrefixedAt(s, d, x.script); }
    assert DecodeWitnesses(s, w) == Some(Read(x.witnesses, e)) by { DecodeWitnessesAt(s, w, x.witnesses); }
    assert ReadFixed(s, e, SEQUENCE_SIZE) == Some(Read(x.sequence, e + SEQUENCE_SIZE)) by {
      Capacities();
      ReadFixedAt(s, e, x.sequence, SEQUENCE_SIZE);
    }
  }

  lemma DecodeOutputsAt(s: seq<Byte>, c: nat, os: seq<Output>)
    requires At(s, c, EncodeAll(os, EncodeOutput)) && forall o :: o in os ==> WellFormedOutput(o)
    ensures DecodeAll(s, c, |os|, DecodeOutput) == Some(Read(os, c + |EncodeAll(os, EncodeOutput)|))
  {
    hide CompactSize;
    hide LittleEndian;
    hide At;
    hide ReadSize;
    hide ReadFixed;
    hide ReadBytes;
    forall o | o in os ensures Inverts(s, o, EncodeOutput, DecodeOutput) {
      forall d: nat | At(s, d, EncodeOutput(o)) {
        DecodeOutputAt(s, d, o);
      }
    }
    DecodeAllAt(s, c, os, EncodeOutput, DecodeOutput);
  }

  lemma DecodeInputInverts(s: seq<Byte>, x: Input)
    requires WellFormedInput(x)
    ensures Inverts(s, x, EncodeInput, DecodeInput)
  {
    hide CompactSize;
    hide LittleEndian;
    hide At;
    hide ReadSize;
    hide ReadFixed;
    hide ReadBytes;
    forall d: nat | At(s, d, EncodeInput(x))
      ensures DecodeInput(s, d) == Some(Read(x, d + |EncodeInput(x)|))
    {
      DecodeInputAt(s, d, x);
    }
  }

  lemma DecodeInputsAt(s: seq<Byte>, c: nat, xs: seq<Input>)
    requires At(s, c, EncodeAll(xs, EncodeInput)) && forall x :: x in xs ==> WellFormedInput(x)
    ensures DecodeAll(s, c, |xs|, DecodeInput) == Some(Read(xs, c + |EncodeAll(xs, EncodeInput)|))
  {
    hide CompactSize;
    hide LittleEndian;
    hide At;
    hide ReadSize;
    hide ReadFixed;
    hide ReadBytes;
    forall x | x in xs ensures Inverts(s, x, EncodeInput, DecodeInput) {
      DecodeInputInverts(s, x);
    }
    DecodeAllAt(s, c, xs, EncodeInput, DecodeInput);
  }

  /** The cursor after the outputs. */
  function RestAt(row: Row): nat {
    METADATA_SIZE + |CompactSize(|row.outputs|)| + |EncodeAll(row.outputs, EncodeOutput)|
  }

  /** Where the parts of an encoded record stand. */
  lemma RecordParts(row: Row)
    ensures var s := Encode(row);
            && At(s, 0, EncodeMetadata(row))
            && At(s, METADATA_SIZE, CompactSize(|row.outputs|))
            && At(s, METADATA_SIZE + |CompactSize(|row.outputs|)|, EncodeAll(row.outputs, EncodeOutput))
            && At(s, RestAt(row), EncodeRest(row))
            && |s| == RestAt(row) + |EncodeRest(row)|
  {
    hide CompactSize;
    hide LittleEndian;
    var s := Encode(row);
    var size, outs, rest := CompactSize(|row.outputs|), EncodeAll(row.outputs, EncodeOutput), EncodeRest(row);
    assert At(s, 0, s);
    AtConcat(s, 0, EncodeMetadata(row), EncodeTransaction(row));
    AtConcat(s, METADATA_SIZE, size, outs + rest);
    AtConcat(s, METADATA_SIZE + |size|, outs, rest);
  }

  lemma MetadataParts(s: seq<Byte>, row: Row)
    requires At(s, 0, EncodeMetadata(row)) && WellFormed(row)
    ensures ReadFixed(s, 0, 4) == Some(Read(row.height, 4))
    ensures ReadFixed(s, 4, 2) == Some(Read(row.position, 6))
    ensures ReadFixed(s, 6, 1) == Some(Read(Flag(row.candidate), 7))
    ensures ReadFixed(s, 7, 4) == Some(Read(row.time, METADATA_SIZE))
  {
    Capacities();
    var height, position := LittleEndian(row.height, 4), LittleEndian(row.position, 2);
    var flag, time := [Flag(row.candidate)], LittleEndian(row.time, 4);
    AtConcat(s, 0, height, position + (flag + time));
    AtConcat(s, 4, position, flag + time);
    AtConcat(s, 6, flag, time);
    ReadFixedAt(s, 0, row.height, 4);
    ReadFixedAt(s, 4, row.position, 2);
    ReadFlagAt(s, 6, row.candidate);
    ReadFixedAt(s, 7, row.time, 4);
  }

  /** Reading past the outputs. */
  lemma RestParts(s: seq<Byte>, r: nat, row: Row)
    requires At(s, r, EncodeRest(row)) && WellFormed(row)
    ensures var count := r + |CompactSize(|row.inputs|)|;
            var ins := count + |EncodeAll(row.inputs, EncodeInput)|;
            var locktime := ins + |CompactSize(row.locktime)|;
            && ReadSize(s, r) == Some(Read(|row.inputs|, count))
            && At(s, count, EncodeAll(row.inputs, EncodeInput))
            && ReadSize(s, ins) == Some(Read(row.locktime, locktime))
            && ReadSize(s, locktime) == Some(Read(row.version, r + |EncodeRest(row)|))
  {
    hide CompactSize;
    hide LittleEndian;
    hide At;
    hide ReadSize;
    hide ReadFixed;
    hide ReadBytes;
    var count, ins := CompactSize(|row.inputs|), EncodeAll(row.inputs, EncodeInput);
    var locktime, version := CompactSize(row.locktime), CompactSize(row.version);
    AtConcat(s, r, count, ins + (locktime + version));
    AtConcat(s, r + |count|, ins, locktime + version);
    AtConcat(s, r + |count| + |ins|, locktime, version);
    ReadSizeAt(s, r, |row.inputs|);
    ReadSizeAt(s, r + |count| + |ins|, row.locktime);
    ReadSizeAt(s, r + |count| + |ins| + |locktime|, row.version);
  }

  /** Decoding undoes encoding on every row. */
  lemma RoundTrip(row: Row)
    requires WellFormed(row)
    ensures Decode(Encode(row)) == Some(row)
  {
    hide Encode;
    hide EncodeMetadata;
    hide EncodeRest;
    hide EncodeAll;
    hide DecodeAll;
    hide DecodeOutput;
    hide DecodeInput;
    hide CompactSize;
    hide LittleEndian;
    hide At;
    hide ReadSize;
    hide ReadFixed;
    hide ReadBytes;
    var s := Encode(row);
    RecordParts(row);
    MetadataParts(s, row);
    var outs := METADATA_SIZE + |CompactSize(|row.outputs|)|;
    assert ReadSize(s, METADATA_SIZE) == Some(Read(|row.outputs|, outs)) by {
      ReadSizeAt(s, METADATA_SIZE, |row.outputs|);
    }
    DecodeOutputsAt(s, outs, row.outputs);
    RestParts(s, RestAt(row), row);
    DecodeInputsAt(s, RestAt(row) + |CompactSize(|row.inputs|)|, row.inputs);
  }

  // ---------------------------------------------------------------- in-place writes

  /** s with the bytes e written over it at cursor c. */
  function Splice(s: seq<Byte>, c: nat, e: seq<Byte>): (r: seq<Byte>)
    requires c + |e| <= |s|
    ensures |r| == |s|
    ensures forall k :: 0 <= k < |s| ==> r[k] == if c <= k < c + |e| then e[k - c] else s[k]
  {
    s[..c] + e + s[c + |e|..]
  }

  lemma Regroup(a: seq<Byte>, b: seq<Byte>, c: seq<Byte>)
    ensures a + (b + c) == (a + b) + c
  {
  }

  lemma SpliceMiddle(before: seq<Byte>, middle: seq<Byte>, after: seq<Byte>, e: seq<Byte>)
    requires |e| == |middle|
    ensures Splice(before + middle + after, |before|, e) == before + e + after
  {
    var s := before + middle + after;
    assert s[..|before|] == before;
    assert s[|before| + |e|..] == after;
  }

  /** The cursor of output i: the field a spend overwrites begins here. */
  function OutputAt(row: Row, i: nat): nat
    requires i <= |row.outputs|
  {
    METADATA_SIZE + |CompactSize(|row.outputs|)| + |EncodeAll(row.outputs[..i], EncodeOutput)|
  }

  function SetOutput(row: Row, i: nat, o: Output): Row
    requires i < |row.outputs|
  {
    row.(outputs := row.outputs[i := o])
  }

  function SetCandidateSpent(row: Row, i: nat, positive: bool): Row
    requires i < |row.outputs|
  {
    SetOutput(row, i, row.outputs[i].(candidateSpent := positive))
  }

  function SetSpender(row: Row, i: nat, height: nat): Row
    requires i < |row.outputs|
  {
    SetOutput(row, i, row.outputs[i].(spender := height))
  }

  /** The bytes before and after output i. */
  function BeforeOutput(row: Row, i: nat): seq<Byte>
    requires i <= |row.outputs|
  {
    EncodeMetadata(row) + CompactSize(|row.outputs|) + EncodeAll(row.outputs[..i], EncodeOutput)
  }

  function AfterOutput(row: Row, i: nat): seq<Byte>
    requires i < |row.outputs|
  {
    EncodeAll(row.outputs[i + 1..], EncodeOutput) + EncodeRest(row)
  }

  lemma SplitAtOutput(row: Row, i: nat)
    requires i < |row.outputs|
    ensures Encode(row) == BeforeOutput(row, i) + EncodeOutput(row.outputs[i]) + AfterOutput(row, i)
    ensures |BeforeOutput(row, i)| == OutputAt(row, i)
    ensures OutputAt(row, i + 1) == OutputAt(row, i) + |EncodeOutput(row.outputs[i])|
    ensures At(Encode(row), OutputAt(row, i), EncodeOutput(row.outputs[i]))
  {
    hide CompactSize;
    hide LittleEndian;
    EncodeAllSplit(row.outputs, i, EncodeOutput);
    EncodeAllTake(row.outputs, i, EncodeOutput);
    var size := CompactSize(|row.outputs|);
    var front, o := EncodeAll(row.outputs[..i], EncodeOutput), EncodeOutput(row.outputs[i]);
    var back, rest := EncodeAll(row.outputs[i + 1..], EncodeOutput), EncodeRest(row);
    var metadata := EncodeMetadata(row);
    assert Encode(row) == metadata + (size + ((front + o + back) + rest));
    Regroup(front + o, back, rest);
    Regroup(size, front + o, back + rest);
    Regroup(size, front, o);
    Regroup(metadata, size + front + o, back + rest);
    Regroup(metadata, size + front, o);
    Regroup(metadata, size, front);
  }

  /** Replacing one output changes neither what comes before it nor what comes after it. */
  lemma ReplaceOutput(row: Row, i: nat, o: Output)
    requires i < |row.outputs|
    ensures Encode(SetOutput(row, i, o)) == BeforeOutput(row, i) + EncodeOutput(o) + AfterOutput(row, i)
    ensures OutputAt(SetOutput(row, i, o), i) == OutputAt(row, i)
  {
    hide CompactSize;
    hide LittleEndian;
    var changed := SetOutput(row, i, o);
    SplitAtOutput(changed, i);
    assert changed.outputs[..i] == row.outputs[..i];
    assert changed.outputs[i + 1..] == row.outputs[i + 1..];
    assert EncodeMetadata(changed) == EncodeMetadata(row);
    assert EncodeRest(changed) == EncodeRest(row);
  }

  /** Overwriting a field within an output, given what stands around the field. */
  lemma SpliceField(row: Row, i: nat, head: seq<Byte>, field: seq<Byte>, tail: seq<Byte>, o: Output, e: seq<Byte>)
    requires i < |row.outputs|
    requires EncodeOutput(row.outputs[i]) == head + field + tail
    requires |e| == |field| && EncodeOutput(o) == head + e + tail
    ensures OutputAt(row, i) + |head| + |e| <= |Encode(row)|
    ensures Splice(Encode(row), OutputAt(row, i) + |head|, e) == Encode(SetOutput(row, i, o))
  {
    hide CompactSize;
    hide LittleEndian;
    SplitAtOutput(row, i);
    ReplaceOutput(row, i, o);
    SpliceWithin(BeforeOutput(row, i), head, field, tail, AfterOutput(row, i), e);
  }

  lemma SpliceWithin(before: seq<Byte>, head: seq<Byte>, field: seq<Byte>, tail: seq<Byte>, after: seq<Byte>,
                     e: seq<Byte>)
    requires |e| == |field|
    ensures Splice(before + (head + field + tail) + after, |before| + |head|, e) == before + (head + e + tail) + after
  {
    SpliceMiddle(before + head, field, tail + after, e);
    assert before + (head + field + tail) + after == (before + head) + field + (tail + after);
    assert before + (head + e + tail) + after == (before + head) + e + (tail + after);
  }

  /** The candidate-spent byte is the only byte a candidate spend changes. */
  lemma SpliceCandidateSpent(row: Row, i: nat, positive: bool)
    requires WellFormed(row) && i < |row.outputs|
    ensures OutputAt(row, i) + 1 <= |Encode(row)|
    ensures WellFormed(SetCandidateSpent(row, i, positive))
    ensures Splice(Encode(row), OutputAt(row, i), [Flag(positive)]) == Encode(SetCandidateSpent(row, i, positive))
  {
    hide Encode;
    hide OutputAt;
    hide LittleEndian;
    hide Prefixed;
    hide Splice;
    var o := row.outputs[i];
    var changed := o.(candidateSpent := positive);
    var flag, tail := [Flag(o.candidateSpent)], OutputTail(o);
    assert flag == [] + flag && [Flag(positive)] == [] + [Flag(positive)];
    SpliceField(row, i, [], flag, tail, changed, [Flag(positive)]);
    assert o in row.outputs;
    WellFormedSetOutput(row, i, changed);
  }

  /** An encoded output after its candidate-spent byte. */
  function OutputTail(o: Output): seq<Byte> {
    LittleEndian(o.spender, 4) + (LittleEndian(o.value, 8) + Prefixed(o.script))
  }

  /** The four bytes of the spender height are the only bytes a confirmed spend changes. */
  lemma SpliceSpender(row: Row, i: nat, height: nat)
    requires WellFormed(row) && i < |row.outputs| && height <= MAX_UINT32
    ensures OutputAt(row, i) + 5 <= |Encode(row)|
    ensures WellFormed(SetSpender(row, i, height))
    ensures Splice(Encode(row), OutputAt(row, i) + 1, LittleEndian(height, 4)) == Encode(SetSpender(row, i, height))
  {
    hide Encode;
    hide OutputAt;
    hide LittleEndian;
    hide Prefixed;
    hide Splice;
    var o := row.outputs[i];
    var changed := o.(spender := height);
    var head, field, e := [Flag(o.candidateSpent)], LittleEndian(o.spender, 4), LittleEndian(height, 4);
    var tail := LittleEndian(o.value, 8) + Prefixed(o.script);
    Regroup(head, field, tail);
    Regroup(head, e, tail);
    SpliceField(row, i, head, field, tail, changed, e);
    assert o in row.outputs;
    WellFormedSetOutput(row, i, changed);
  }

  lemma WellFormedSetOutput(row: Row, i: nat, o: Output)
    requires WellFormed(row) && i < |row.outputs| && WellFormedOutput(o)
    ensures WellFormed(SetOutput(row, i, o))
  {
    var outputs := row.outputs[i := o];
    forall x | x in outputs ensures WellFormedOutput(x) {
      var k :| 0 <= k < |outputs| && outputs[k] == x;
      assert k != i ==> row.outputs[k] in row.outputs;
    }
  }

  /** Only the leading metadata differs between two rows of one transaction. */
  lemma SpliceMetadata(row: Row, changed: Row)
    requires changed == row.(height := changed.height, position := changed.position,
                             candidate := changed.candidate, time := changed.time)
    ensures METADATA_SIZE <= |Encode(row)|
    ensures Splice(Encode(row), 0, EncodeMetadata(changed)) == Encode(changed)
  {
    hide CompactSize;
    hide LittleEndian;
    SpliceMiddle([], EncodeMetadata(row), EncodeTransaction(row), EncodeMetadata(changed));
    assert Encode(row) == [] + EncodeMetadata(row) + EncodeTransaction(row);
    assert EncodeRest(changed) == EncodeRest(row);
  }

  /** Only byte 6 differs between two rows that differ in the candidate flag. */
  lemma SpliceCandidate(row: Row, positive: bool)
    ensures METADATA_SIZE <= |Encode(row)|
    ensures Splice(Encode(row), 6, [Flag(positive)]) == Encode(row.(candidate := positive))
  {
    CandidateParts(row);
    CandidateParts(row.(candidate := positive));
    SpliceMiddle(BeforeCandidate(row), [Flag(row.candidate)], AfterCandidate(row), [Flag(positive)]);
  }

  function BeforeCandidate(row: Row): seq<Byte> {
    LittleEndian(row.height, 4) + LittleEndian(row.position, 2)
  }

  function AfterCandidate(row: Row): seq<Byte> {
    LittleEndian(row.time, 4) + EncodeTransaction(row)
  }

  lemma CandidateParts(row: Row)
    ensures Encode(row) == BeforeCandidate(row) + [Flag(row.candidate)] + AfterCandidate(row)
  {
    var height, position := LittleEndian(row.height, 4), LittleEndian(row.position, 2);
    var flag, time, transaction := [Flag(row.candidate)], LittleEndian(row.time, 4), EncodeTransaction(row);
    Regroup(height, position, flag + time);
    Regroup(height + position, flag, time);
    Regroup((height + position) + flag, time, transaction);
  }

  /** In-place spends are framed: decoding the spliced record gives the same row with one field changed. */
  lemma SpendsAreFramed(row: Row, i: nat, positive: bool, height: nat)
    requires WellFormed(row) && i < |row.outputs| && height <= MAX_UINT32
    ensures OutputAt(row, i) + 5 <= |Encode(row)|
    ensures Decode(Splice(Encode(row), OutputAt(row, i), [Flag(positive)])) ==
            Some(row.(outputs := row.outputs[i := row.outputs[i].(candidateSpent := positive)]))
    ensures Decode(Splice(Encode(row), OutputAt(row, i) + 1, LittleEndian(height, 4))) ==
            Some(row.(outputs := row.outputs[i := row.outputs[i].(spender := height)]))
  {
    SpliceCandidateSpent(row, i, positive);
    SpliceSpender(row, i, height);
    RoundTrip(SetCandidateSpent(row, i, positive));
    RoundTrip(SetSpender(row, i, height));
  }

  // ---------------------------------------------------------------- an example

  /** A confirmed transaction at position 1 of block 500000, with one spent and marked output and one input. */
  function ExampleRow(hash: Hash): Row {
    Row(500000, 1, true, 0x5A00_0000, [Output(true, 500001, 5000, [0x51])],
        [Input(Point(hash, 3), [0xAB, 0xCD], [], 0xFFFF_FFFE)], 9, 2)
  }

  lemma TwoBytes(a: Byte, b: Byte)
    ensures LittleEndian(a + 256 * b, 2) == [a, b]
  {
    assert LittleEndian(b, 1) == [b] + LittleEndian(0, 0);
  }

  lemma FourBytes(a: Byte, b: Byte, c: Byte, d: Byte)
    ensures LittleEndian(a + 256 * (b + 256 * (c + 256 * d)), 4) == [a, b, c, d]
  {
    TwoBytes(c, d);
    var n := b + 256 * (c + 256 * d);
    assert LittleEndian(n, 3) == [b] + LittleEndian(c + 256 * d, 2);
    assert LittleEndian(a + 256 * n, 4) == [a] + LittleEndian(n, 3);
  }

  lemma EightBytes(a: Byte, b: Byte)
    ensures LittleEndian(a + 256 * b, 8) == [a, b, 0, 0, 0, 0, 0, 0]
  {
    FourBytes(0, 0, 0, 0);
    assert LittleEndian(0, 5) == [0] + LittleEndian(0, 4);
    assert LittleEndian(0, 6) == [0] + LittleEndian(0, 5);
    assert LittleEndian(b, 7) == [b] + LittleEndian(0, 6);
  }

  /** The bytes of that row: metadata, outputs, inputs, locktime and version, each integer least significant first. */
  lemma ExampleRecord(hash: Hash)
    requires |hash| == HASH_SIZE
    ensures Encode(ExampleRow(hash))
            == [0x20, 0xA1, 0x07, 0x00] + [0x01, 0x00] + [0x01] + [0x00, 0x00, 0x00, 0x5A]
               + [0x01]
               + ([0x01] + [0x21, 0xA1, 0x07, 0x00] + [0x88, 0x13, 0, 0, 0, 0, 0, 0] + [0x01, 0x51])
               + [0x01]
               + (hash + [0x03, 0x00] + [0x02, 0xAB, 0xCD] + [0x00] + [0xFE, 0xFF, 0xFF, 0xFF])
               + [0x09] + [0x02]
  {
    hide LittleEndian;
    var row := ExampleRow(hash);
    ExampleMetadata(row, hash);
    ExampleOutput();
    ExampleInput(hash);
    assert EncodeAll(row.outputs, EncodeOutput) == EncodeAll([], EncodeOutput) + EncodeOutput(row.outputs[0]);
    assert EncodeAll(row.inputs, EncodeInput) == EncodeAll([], EncodeInput) + EncodeInput(row.inputs[0]);
  }

  lemma ExampleMetadata(row: Row, hash: Hash)
    requires row == ExampleRow(hash)
    ensures EncodeMetadata(row) == [0x20, 0xA1, 0x07, 0x00] + [0x01, 0x00] + [0x01] + [0x00, 0x00, 0x00, 0x5A]
  {
    hide LittleEndian;
    FourBytes(0x20, 0xA1, 0x07, 0x00);
    TwoBytes(1, 0);
    FourBytes(0x00, 0x00, 0x00, 0x5A);
  }

  lemma ExampleOutput()
    ensures EncodeOutput(Output(true, 500001, 5000, [0x51]))
            == [0x01] + [0x21, 0xA1, 0x07, 0x00] + [0x88, 0x13, 0, 0, 0, 0, 0, 0] + [0x01, 0x51]
  {
    hide LittleEndian;
    FourBytes(0x21, 0xA1, 0x07, 0x00);
    EightBytes(0x88, 0x13);
  }

  lemma ExampleInput(hash: Hash)
    ensures EncodeInput(Input(Point(hash, 3), [0xAB, 0xCD], [], 0xFFFF_FFFE))
            == hash + [0x03, 0x00] + [0x02, 0xAB, 0xCD] + [0x00] + [0xFE, 0xFF, 0xFF, 0xFF]
  {
    hide LittleEndian;
    TwoBytes(3, 0);
    FourBytes(0xFE, 0xFF, 0xFF, 0xFF);
    assert EncodeAll([], Prefixed) == [];
  }
}
