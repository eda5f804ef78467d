/** The transaction table as a value: one row for each transaction hash, and what each operation does to it.
    A row is reached by its hash alone: its link never changes, and no hash is stored twice. */
module TransactionTable {
  import opened Types
  import opened Record

  type Table = map<Hash, Row>

  /** The result of an operation and the table it leaves, also when it fails part-way. */
  datatype Outcome = Outcome(ok: bool, table: Table)

  datatype TransactionOutput = TransactionOutput(value: nat, script: seq<Byte>)

  datatype Transaction = Transaction(
    hash: Hash, outputs: seq<TransactionOutput>, inputs: seq<Input>, locktime: nat, version: nat)

  // ---------------------------------------------------------------- loops

  /** Apply a step to each item in turn; stop at the first failure and keep what was done. */
  function Each<A>(t: Table, xs: seq<A>, step: (Table, nat, A) -> Outcome): Outcome {
    if xs == [] then Outcome(true, t)
    else
      var n := |xs| - 1;
      var front := Each(t, xs[..n], step);
      if front.ok then step(front.table, n, xs[n]) else front
  }

  lemma EachNothing<A>(t: Table, xs: seq<A>, step: (Table, nat, A) -> Outcome)
    ensures Each(t, xs[..0], step) == Outcome(true, t)
  {
  }

  lemma EachTake<A>(t: Table, xs: seq<A>, i: nat, step: (Table, nat, A) -> Outcome)
    requires i < |xs|
    ensures Each(t, xs[..i + 1], step) ==
            if Each(t, xs[..i], step).ok then step(Each(t, xs[..i], step).table, i, xs[i]) else Each(t, xs[..i], step)
  {
    assert xs[..i + 1][..i] == xs[..i];
  }

  /** A failed loop stays as it failed. */
  lemma {:induction false} EachStops<A>(t: Table, xs: seq<A>, i: nat, step: (Table, nat, A) -> Outcome)
    requires i <= |xs| && !Each(t, xs[..i], step).ok
    ensures Each(t, xs, step) == Each(t, xs[..i], step)
    decreases |xs|
  {
    if i < |xs| {
      var n := |xs| - 1;
      assert xs[..n][..i] == xs[..i];
      EachStops(t, xs[..n], i, step);
    } else {
      assert xs[..i] == xs;
    }
  }

  // ---------------------------------------------------------------- store

  function NewOutputs(outputs: seq<TransactionOutput>): (r: seq<Output>)
    ensures |r| == |outputs|
  {
    seq(|outputs|, i requires 0 <= i < |outputs| => Output(false, NOT_SPENT, outputs[i].value, outputs[i].script))
  }

  function NewRow(tx: Transaction, height: nat, time: nat, position: nat): Row {
    Row(height, position, false, time, NewOutputs(tx.outputs), tx.inputs, tx.locktime, tx.version)
  }

  /** A row carries this transaction: its inputs, locktime and version, and of each output value and script. */
  ghost predicate Carries(row: Row, tx: Transaction) {
    && row.inputs == tx.inputs && row.locktime == tx.locktime && row.version == tx.version
    && |row.outputs| == |tx.outputs|
    && forall i :: 0 <= i < |tx.outputs| ==>
         row.outputs[i].value == tx.outputs[i].value && row.outputs[i].script == tx.outputs[i].script
  }

  /** A row says nothing yet of its transaction but the given metadata: no flag, no spend, no mark. */
  ghost predicate IsFresh(row: Row, height: nat, time: nat, position: nat) {
    && row.height == height && row.time == time && row.position == position && !row.candidate
    && forall i :: 0 <= i < |row.outputs| ==> row.outputs[i].spender == NOT_SPENT && !row.outputs[i].candidateSpent
  }

  /** A new transaction is stored as it was handed in, with no spend yet. */
  lemma NewRowCarries(tx: Transaction, height: nat, time: nat, position: nat)
    ensures Carries(NewRow(tx, height, time, position), tx)
    ensures IsFresh(NewRow(tx, height, time, position), height, time, position)
  {
  }

  /** Store the transaction unless its hash already exists. */
  function Storize(t: Table, tx: Transaction, height: nat, time: nat, position: nat): Outcome {
    Outcome(true, if tx.hash in t then t else t[tx.hash := NewRow(tx, height, time, position)])
  }

  function Storing(): (Table, nat, Transaction) -> Outcome {
    (t, i, tx) => Storize(t, tx, UNVERIFIED, NO_TIME, UNCONFIRMED)
  }

  // ---------------------------------------------------------------- candidate

  function CandidateSpend(t: Table, p: Point, positive: bool): Outcome {
    if p.IsNull() then Outcome(true, t)
    else if p.hash !in t || p.index >= |t[p.hash].outputs| then Outcome(false, t)
    else Outcome(true, t[p.hash := SetCandidateSpent(t[p.hash], p.index, positive)])
  }

  function CandidateSpending(positive: bool): (Table, nat, Point) -> Outcome {
    (t, i, p) => CandidateSpend(t, p, positive)
  }

  function Candidize(t: Table, link: Hash, positive: bool): Outcome
    requires link in t
  {
    Outcome(true, t[link := t[link].(candidate := positive)])
  }

  /** Mark or unmark the previous outputs of a transaction, then the transaction. */
  function Candidate(t: Table, link: Hash, positive: bool): Outcome {
    if link !in t then Outcome(false, t)
    else
      var spent := Each(t, t[link].Points(), CandidateSpending(positive));
      if spent.ok && link in spent.table then Candidize(spent.table, link, positive) else spent
  }

  function Candidating(positive: bool): (Table, nat, Hash) -> Outcome {
    (t, i, link) => Candidate(t, link, positive)
  }

  // ---------------------------------------------------------------- confirm

  function ConfirmedSpend(t: Table, p: Point, height: nat): Outcome {
    if p.IsNull() || height > MAX_UINT32 then Outcome(true, t)
    else if p.hash !in t then Outcome(false, t)
    else
      var row := t[p.hash];
      // The previous transaction was never confirmed, or only above this height.
      if row.position == UNCONFIRMED || row.height > height then Outcome(false, t)
      else if p.index >= |row.outputs| then Outcome(false, t)
      else Outcome(true, t[p.hash := SetSpender(row, p.index, if height == UNVERIFIED then NOT_SPENT else height)])
  }

  function ConfirmedSpending(height: nat): (Table, nat, Point) -> Outcome {
    (t, i, p) => ConfirmedSpend(t, p, height)
  }

  function Confirmize(t: Table, link: Hash, height: nat, time: nat, position: nat): Outcome
    requires link in t
  {
    Outcome(true, t[link := t[link].(height := height, position := position, candidate := false, time := time)])
  }

  /** Spend (or, with the sentinels, unspend) the previous outputs, then set the metadata.
      The inputs of the transaction at position zero are not read. */
  function Confirm(t: Table, link: Hash, height: nat, time: nat, position: nat): Outcome {
    if link !in t then Outcome(false, t)
    else
      var spent := if position == 0 then Outcome(true, t)
                   else Each(t, t[link].Points(), ConfirmedSpending(height));
      if spent.ok && link in spent.table then Confirmize(spent.table, link, height, time, position) else spent
  }

  function Confirming(height: nat, time: nat): (Table, nat, Hash) -> Outcome {
    (t, position, link) => Confirm(t, link, height, time, position)
  }

  function ConfirmBlock(t: Table, links: seq<Hash>, height: nat, time: nat): Outcome {
    Each(t, links, Confirming(height, time))
  }

  function Unconfirming(): (Table, nat, Hash) -> Outcome {
    (t, i, link) => Confirm(t, link, UNVERIFIED, NO_TIME, DECONFIRMED)
  }

  function UnconfirmBlock(t: Table, links: seq<Hash>): Outcome {
    Each(t, links, Unconfirming())
  }

  // ---------------------------------------------------------------- queries

  /** What a previous output query reports. */
  datatype Prevout = Prevout(
    height: nat, time: nat, coinbase: bool, candidate: bool, confirmed: bool,
    candidateSpent: bool, confirmedSpent: bool, cache: Output)

  /** Populate an output relative to the fork height. */
  function GetOutput(t: Table, p: Point, forkHeight: nat): Option<Prevout> {
    if p.IsNull() || p.hash !in t then None
    else
      var row := t[p.hash];
      // The genesis coinbase output may not be spent.
      if row.height == 0 || p.index >= |row.outputs| then None
      else
        var output := row.outputs[p.index];
        Some(Prevout(
               row.height, row.time, row.position == 0, row.candidate,
               row.HasPosition() && row.height <= forkHeight,
               output.candidateSpent,
               output.spender != NOT_SPENT && output.spender <= forkHeight,
               output))
  }

  // ---------------------------------------------------------------- frames

  /** The constant part of every row already stored is as it was. */
  ghost predicate SameTransactions(t: Table, u: Table) {
    && t.Keys <= u.Keys
    && forall h :: h in t ==> SameTransaction(t[h], u[h])
  }

  ghost predicate SameTransaction(a: Row, b: Row) {
    && a.inputs == b.inputs && a.locktime == b.locktime && a.version == b.version
    && |a.outputs| == |b.outputs|
    && forall i :: 0 <= i < |a.outputs| ==>
         a.outputs[i].value == b.outputs[i].value && a.outputs[i].script == b.outputs[i].script
  }
}
