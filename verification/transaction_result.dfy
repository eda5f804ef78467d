/** The read side of one transaction record. */
module TransactionResult {
  import opened Types
  import opened Serial
  import opened Record
  import opened RecordAccess

  /** An output counts as spent for the query: its candidate byte, or a spender at or below the fork. */
  predicate ReadsSpent(o: Output, forkHeight: nat) {
    o.candidateSpent || o.spender <= forkHeight
  }

  /** An output is spent: a candidate spends it, or a real spender does at or below the fork. */
  predicate IsSpent(o: Output, forkHeight: nat) {
    o.candidateSpent || (o.spender != NOT_SPENT && o.spender <= forkHeight)
  }

  /** A transaction cannot be spent unless it is a candidate, or was confirmed by the fork height. */
  predicate MayBeSpent(row: Row, forkHeight: nat) {
    row.candidate || (row.position != UNCONFIRMED && row.height <= forkHeight)
  }

  class Result {
    const element: array<Byte>
    var candidate: bool
    var height: nat
    var position: nat
    var time: nat

    ghost predicate Reads(row: Row)
      reads this, element
    {
      && Holds(element, row)
      && candidate == row.candidate && height == row.height
      && position == row.position && time == row.time
    }

    /** Read the metadata at once. */
    constructor (record: array<Byte>, ghost row: Row)
      requires Holds(record, row)
      ensures element == record && Reads(row)
    {
      RecordParts(row);
      MetadataParts(record[..], row);
      element := record;
      height := ReadFixed(record[..], 0, 4).value.value;
      position := ReadFixed(record[..], 4, 2).value.value;
      candidate := ReadFixed(record[..], 6, 1).value.value == CANDIDATE_TRUE;
      time := ReadFixed(record[..], 7, 4).value.value;
    }

    /** Whether all outputs are spent relative to the fork. */
    method IsCandidateSpent(forkHeight: nat, ghost row: Row) returns (spent: bool)
      requires Reads(row)
      ensures spent <==> MayBeSpent(row, forkHeight) && forall o :: o in row.outputs ==> ReadsSpent(o, forkHeight)
    {
      hide Encode;
      hide OutputAt;
      hide DecodeOutput;
      hide At;
      if !candidate && (position == UNCONFIRMED || height > forkHeight) {
        return false;
      }
      spent := true;
      var outputs, c := OutputCount(element, row);
      var out := 0;
      while spent && out < outputs
        invariant out <= outputs
        invariant spent ==> c == OutputAt(row, out)
        invariant spent <==> forall k :: 0 <= k < out ==> ReadsSpent(row.outputs[k], forkHeight)
        decreases outputs - out
      {
        assert row.outputs[out] in row.outputs;
        SplitAtOutput(row, out);
        DecodeOutputAt(element[..], c, row.outputs[out]);
        var output := DecodeOutput(element[..], c);
        spent := output.value.value.candidateSpent || output.value.value.spender <= forkHeight;
        c := output.value.next;
        out := out + 1;
      }
      assert forall k :: 0 <= k < |row.outputs| ==> row.outputs[k] in row.outputs;
    }

    /** The output at the index, or None when the transaction has no such output. */
    method OutputOf(index: nat, ghost row: Row) returns (output: Option<Output>)
      requires Reads(row)
      ensures output == if index < |row.outputs| then Some(row.outputs[index]) else None
    {
      hide Encode;
      hide OutputAt;
      hide DecodeOutput;
      hide At;
      var outputs, c := OutputCount(element, row);
      if index >= outputs {
        return None;
      }
      c := SeekOutput(element, index, row);
      assert row.outputs[index] in row.outputs;
      SplitAtOutput(row, index);
      DecodeOutputAt(element[..], c, row.outputs[index]);
      output := Some(DecodeOutput(element[..], c).value.value);
    }
  }

  /** A row whose only output is unspent. */
  function UnspentRow(): Row {
    Row(0, 0, false, 0, [Output(false, NOT_SPENT, 0, [])], [], 0, 0)
  }

  /** The query has no test for the not-spent sentinel: it tells spent from unspent on every
      transaction that passes its guard exactly when the fork height is below that sentinel. */
  lemma SpentnessNeedsForkBelowSentinel(forkHeight: nat)
    ensures (forall row: Row :: WellFormed(row) && MayBeSpent(row, forkHeight) ==>
              ((forall o :: o in row.outputs ==> ReadsSpent(o, forkHeight)) <==>
               (forall o :: o in row.outputs ==> IsSpent(o, forkHeight))))
            <==> forkHeight < NOT_SPENT
  {
    if forkHeight < NOT_SPENT {
      forall o: Output ensures ReadsSpent(o, forkHeight) <==> IsSpent(o, forkHeight) {
      }
    } else {
      var row := UnspentRow();
      assert WellFormed(row) && MayBeSpent(row, forkHeight);
      assert row.outputs[0] in row.outputs && !IsSpent(row.outputs[0], forkHeight);
      assert forall o :: o in row.outputs ==> ReadsSpent(o, forkHeight);
    }
  }

  /** The failing input: at the sentinel height a transaction without spends passes the guard and reads as spent. */
  lemma UnspentReadsSpentAtSentinel()
    ensures WellFormed(UnspentRow()) && MayBeSpent(UnspentRow(), NOT_SPENT)
    ensures ReadsSpent(UnspentRow().outputs[0], NOT_SPENT) && !IsSpent(UnspentRow().outputs[0], NOT_SPENT)
    ensures forall o :: o in UnspentRow().outputs ==> ReadsSpent(o, NOT_SPENT)
  {
  }
}
