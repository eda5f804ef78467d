/** What every operation keeps: the indexes are linked chains, the state words are legal, the
    transaction table is a function of the confirmed chain, and candidate spends are accounted for. */
module Invariants {
  import opened Types
  import opened Record
  import opened BlockState
  import opened BlockTable
  import opened TransactionTable
  import opened Ledger
  import opened Agreement
  import opened CandidateSpends
  import opened ChainState

  // ---------------------------------------------------------------- blocks

  /** Every stored block has its parent stored one height below, except genesis, which has none. */
  ghost predicate Tree(b: Blocks) {
    && NULL_HASH !in b.rows
    && forall x :: x in b.rows ==>
         var parent := b.rows[x].previous;
         if b.rows[x].height == 0 then parent == NULL_HASH
         else parent in b.rows && b.rows[parent].height + 1 == b.rows[x].height
  }

  /** An index is a hash-linked chain from genesis in which each block is stored at its own height. */
  ghost predicate Linked(b: Blocks, index: seq<Hash>) {
    && 0 < |index| <= MAX_HEIGHT + 1
    && forall k :: 0 <= k < |index| ==>
         && index[k] in b.rows && b.rows[index[k]].height == k
         && (k > 0 ==> b.rows[index[k]].previous == index[k - 1])
  }

  /** State words are legal, a confirmation bit implies membership of that index, and every block on
      the confirmed index is valid. */
  ghost predicate Words(b: Blocks) {
    forall x :: x in b.rows ==>
      && Legal(b.rows[x].state) && b.rows[x].state < 16
      && (IsCandidate(b.rows[x].state) ==> x in b.candidate)
      && (IsConfirmed(b.rows[x].state) ==> x in b.confirmed)
      && (x in b.confirmed ==> IsValid(b.rows[x].state))
  }

  ghost predicate Ranges(b: Blocks) {
    forall x :: x in b.rows ==> b.LinksInRange(x)
  }

  ghost predicate Indexed(b: Blocks) {
    Tree(b) && Linked(b, b.candidate) && Linked(b, b.confirmed) && Words(b) && Ranges(b)
  }

  // ---------------------------------------------------------------- transactions

  /** The confirmed blocks are those on the confirmed index, with the transactions stored for them. */
  ghost predicate Tied(s: State) {
    && |s.chain| == |s.blocks.confirmed|
    && forall k :: 0 <= k < |s.chain| ==> TiedAt(s, k)
  }

  ghost predicate TiedAt(s: State, k: nat)
    requires k < |s.chain| == |s.blocks.confirmed|
  {
    && s.blocks.LinksInRange(s.blocks.confirmed[k])
    && s.blocks.LinksOf(s.blocks.confirmed[k]) == Links(s.chain[k].txs)
    && AllStored(s.table, s.chain[k].txs)
  }

  /** The transaction table is a function of the confirmed chain. */
  ghost predicate Confirmations(s: State) {
    ValidChain(s.chain) && Agrees(s.table, Summarize(s.chain))
  }

  // ---------------------------------------------------------------- candidate spends

  ghost predicate MarkedBlock(s: State, x: Hash) {
    && s.blocks.LinksInRange(x) && s.blocks.rows[x].count > 0
    && x in s.blocks.candidate
    && LinksReady(s.table, s.blocks.LinksOf(x))
  }

  /** A candidated block still on the candidate index spends the output. */
  ghost predicate MarkedSpends(s: State, p: Point) {
    exists x :: x in s.marked && s.blocks.LinksInRange(x) && p in BlockPoints(s.table, s.blocks.LinksOf(x))
  }

  /** An output's candidate-spent byte is set exactly when such a block spends it. */
  ghost predicate Marks(s: State) {
    && (forall x :: x in s.marked ==> MarkedBlock(s, x))
    && forall h, i :: h in s.table && 0 <= i < |s.table[h].outputs| ==>
         (s.table[h].outputs[i].candidateSpent <==> MarkedSpends(s, Point(h, i)))
  }

  /** The transactions of every stored block are stored. */
  ghost predicate Populated(s: State) {
    forall x :: s.blocks.LinksInRange(x) ==> LinksStored(s.table, s.blocks.LinksOf(x))
  }

  ghost predicate Inv(s: State) {
    Indexed(s.blocks) && Populated(s) && Tied(s) && Confirmations(s) && Marks(s)
  }

  // ---------------------------------------------------------------- consequences

  /** No block appears twice in an index. */
  lemma IndexHasNoRepeats(b: Blocks, index: seq<Hash>, i: nat, j: nat)
    requires Linked(b, index) && i < |index| && j < |index| && index[i] == index[j]
    ensures i == j
  {
  }

  /** Where two indexes share a block they agree at every lower height. */
  lemma {:induction false} IndexesAgreeBelow(b: Blocks, index: seq<Hash>, other: seq<Hash>, i: nat, j: nat, k: nat)
    requires Linked(b, index) && Linked(b, other)
    requires i < |index| && j < |other| && index[i] == other[j] && k <= i
    ensures i == j && index[k] == other[k]
    decreases i
  {
    if k < i {
      IndexesAgreeBelow(b, index, other, i - 1, j - 1, k);
    }
  }

  // ---------------------------------------------------------------- frames

  /** The links of every stored block stay as they were. */
  ghost predicate SameLinks(b: Blocks, c: Blocks) {
    forall x :: b.LinksInRange(x) ==>
      c.LinksInRange(x) && c.rows[x].count == b.rows[x].count && c.LinksOf(x) == b.LinksOf(x)
  }

  /** No stored block gains transactions; new ones have none. */
  lemma PopulatedStays(s: State, u: State)
    requires Populated(s) && Indexed(s.blocks) && SameLinks(s.blocks, u.blocks) && SameTransactions(s.table, u.table)
    requires forall x :: x in u.blocks.rows ==> x in s.blocks.rows || u.blocks.rows[x].count == 0
    ensures Populated(u)
  {
    hide Tree;
    hide Linked;
    hide Words;
    forall x | u.blocks.LinksInRange(x) ensures LinksStored(u.table, u.blocks.LinksOf(x)) {
      if x in s.blocks.rows {
        assert s.blocks.LinksInRange(x);
      }
    }
  }

  lemma TiedFrame(s: State, u: State)
    requires Tied(s) && u.chain == s.chain && u.blocks.confirmed == s.blocks.confirmed
    requires forall k :: 0 <= k < |s.chain| ==>
               var x := s.blocks.confirmed[k];
               s.blocks.LinksInRange(x) && u.blocks.LinksInRange(x) && u.blocks.LinksOf(x) == s.blocks.LinksOf(x)
    requires SameTransactions(s.table, u.table)
    ensures Tied(u)
  {
    forall k | 0 <= k < |u.chain| ensures TiedAt(u, k) {
      assert TiedAt(s, k);
      StoredFrame(s.table, u.table, s.chain[k].txs);
    }
  }

  lemma StoredFrame(t: Table, u: Table, txs: seq<Tx>)
    requires AllStored(t, txs) && SameTransactions(t, u)
    ensures AllStored(u, txs)
  {
    forall tx | tx in txs ensures Stored(u, tx) {
      assert Stored(t, tx) && SameTransaction(t[tx.hash], u[tx.hash]);
      assert t[tx.hash].Points() == u[tx.hash].Points();
    }
  }

  /** New rows are not marked; old rows keep their candidate-spent bytes. */
  ghost predicate SameMarks(t: Table, u: Table) {
    && SameTransactions(t, u)
    && forall h, i :: h in u && 0 <= i < |u[h].outputs| ==>
         u[h].outputs[i].candidateSpent == (h in t && i < |t[h].outputs| && t[h].outputs[i].candidateSpent)
  }

  lemma ReadyFrame(t: Table, u: Table, links: seq<Hash>)
    requires LinksReady(t, links) && SameTransactions(t, u)
    ensures LinksReady(u, links) && BlockPoints(u, links) == BlockPoints(t, links)
  {
    SameTransactionsPoints(t, u, links);
    forall p | p in BlockPoints(u, links) ensures OutputExists(u, p) {
      assert OutputExists(t, p) && SameTransaction(t[p.hash], u[p.hash]);
    }
  }

  lemma MarkedSpendExists(s: State, p: Point)
    requires Marks(s) && MarkedSpends(s, p)
    ensures OutputExists(s.table, p)
  {
    var x :| x in s.marked && s.blocks.LinksInRange(x) && p in BlockPoints(s.table, s.blocks.LinksOf(x));
    assert MarkedBlock(s, x);
  }

  lemma MarksFrame(s: State, u: State)
    requires Marks(s) && u.marked == s.marked && SameMarks(s.table, u.table)
    requires forall x :: x in s.marked ==>
               && s.blocks.LinksInRange(x) && u.blocks.LinksInRange(x)
               && u.blocks.LinksOf(x) == s.blocks.LinksOf(x) && x in u.blocks.candidate
    ensures Marks(u)
  {
    forall x | x in u.marked
      ensures MarkedBlock(u, x)
      ensures BlockPoints(u.table, u.blocks.LinksOf(x)) == BlockPoints(s.table, s.blocks.LinksOf(x))
    {
      assert MarkedBlock(s, x);
      ReadyFrame(s.table, u.table, s.blocks.LinksOf(x));
    }
    forall p ensures MarkedSpends(u, p) <==> MarkedSpends(s, p) {
    }
    forall h, i | h in u.table && 0 <= i < |u.table[h].outputs|
      ensures u.table[h].outputs[i].candidateSpent <==> MarkedSpends(u, Point(h, i))
    {
      if MarkedSpends(s, Point(h, i)) {
        MarkedSpendExists(s, Point(h, i));
      }
      if h in s.table {
        assert SameTransaction(s.table[h], u.table[h]);
      }
    }
  }
}
