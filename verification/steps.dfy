/** Each operation keeps the invariants, given what its caller owes. */
module Steps {
  import opened Types
  import opened Record
  import opened BlockState
  import opened BlockTable
  import opened TransactionTable
  import opened Ledger
  import opened Agreement
  import opened CandidateSpends
  import opened ChainState
  import opened Invariants

  // ---------------------------------------------------------------- storing transactions

  lemma StorizeKeeps(t: Table, tx: Transaction, height: nat)
    ensures var u := Storize(t, tx, height, NO_TIME, UNCONFIRMED).table;
            && SameMarks(t, u) && tx.hash in u
            && forall m :: Agrees(t, m) ==> Agrees(u, m)
  {
    var u := Storize(t, tx, height, NO_TIME, UNCONFIRMED).table;
    forall m | Agrees(t, m) ensures Agrees(u, m) {
      StorizeAgrees(t, tx, height, m);
    }
  }

  lemma StorizeAgrees(t: Table, tx: Transaction, height: nat, m: Summary)
    requires Agrees(t, m)
    ensures Agrees(Storize(t, tx, height, NO_TIME, UNCONFIRMED).table, m)
  {
    var u := Storize(t, tx, height, NO_TIME, UNCONFIRMED).table;
    if tx.hash !in t {
      forall i ensures Point(tx.hash, i) !in m.spent {
        assert Point(tx.hash, i) in m.spent ==> WasConfirmed(t, Point(tx.hash, i));
      }
      forall h | h in u ensures RowAgrees(h, u[h], m) {
        assert h in t ==> RowAgrees(h, t[h], m);
      }
      forall p | p in m.spent ensures WasConfirmed(u, p) {
        assert WasConfirmed(t, p);
      }
    }
  }

  lemma SameMarksTransitive(t: Table, u: Table, v: Table)
    requires SameMarks(t, u) && SameMarks(u, v)
    ensures SameMarks(t, v)
  {
    forall h | h in t ensures SameTransaction(t[h], v[h]) {
      assert SameTransaction(t[h], u[h]) && SameTransaction(u[h], v[h]);
    }
  }

  lemma {:induction false} StoreAllKeeps(t: Table, txs: seq<Transaction>)
    ensures var o := Each(t, txs, Storing());
            && o.ok && SameMarks(t, o.table)
            && (forall tx :: tx in txs ==> tx.hash in o.table)
            && forall m :: Agrees(t, m) ==> Agrees(o.table, m)
    decreases |txs|
  {
    hide SameMarks;
    hide Agrees;
    if txs == [] {
      SameMarksReflexive(t);
    } else {
      var n := |txs| - 1;
      StoreAllKeeps(t, txs[..n]);
      var u := Each(t, txs[..n], Storing()).table;
      StorizeKeeps(u, txs[n], UNVERIFIED);
      var v := Storize(u, txs[n], UNVERIFIED, NO_TIME, UNCONFIRMED).table;
      SameMarksTransitive(t, u, v);
      assert txs == txs[..n] + [txs[n]];
    }
  }

  lemma SameMarksReflexive(t: Table)
    ensures SameMarks(t, t)
  {
  }

  lemma StoreTransactionKeepsInv(s: State, tx: Transaction, forks: nat)
    requires Inv(s)
    ensures StoreTransaction(s, tx, forks).ok && Inv(StoreTransaction(s, tx, forks).state)
  {
    var u := StoreTransaction(s, tx, forks).state;
    StorizeKeeps(s.table, tx, forks);
    PopulatedStays(s, u);
    TiedStays(s, u);
    MarksStay(s, u);
  }

  /** The same links are read for every confirmed block. */
  lemma TiedStays(s: State, u: State)
    requires Tied(s) && u.chain == s.chain && u.blocks.confirmed == s.blocks.confirmed
    requires SameLinks(s.blocks, u.blocks) && SameTransactions(s.table, u.table)
    ensures Tied(u)
  {
    forall k | 0 <= k < |s.chain| ensures s.blocks.LinksInRange(s.blocks.confirmed[k]) {
      assert TiedAt(s, k);
    }
    TiedFrame(s, u);
  }

  lemma MarksStay(s: State, u: State)
    requires Marks(s) && u.marked == s.marked && SameMarks(s.table, u.table)
    requires SameLinks(s.blocks, u.blocks)
    requires forall x :: x in s.marked ==> x in u.blocks.candidate
    ensures Marks(u)
  {
    forall x | x in s.marked ensures s.blocks.LinksInRange(x) {
      assert MarkedBlock(s, x);
    }
    MarksFrame(s, u);
  }

  lemma MarkedAreCandidates(s: State)
    requires Marks(s)
    ensures forall x :: x in s.marked ==>
              x in s.blocks.candidate && s.blocks.LinksInRange(x) && s.blocks.rows[x].count > 0
  {
    forall x | x in s.marked ensures MarkedBlock(s, x) {
    }
  }

  // ---------------------------------------------------------------- update

  /** The block is on the candidate index, no transactions are stored for it yet, and their links fit. */
  ghost predicate UpdateOwed(s: State, block: FullBlock, height: nat) {
    VerifyUpdate(s, block, height) && LinksFit(s.blocks, block.TxLinks())
  }

  lemma UpdateLinks(b: Blocks, hash: Hash, txs: seq<Hash>)
    requires Indexed(b) && hash in b.rows && b.rows[hash].count == 0 && LinksFit(b, txs)
    ensures var c := UpdateTransactions(b, hash, txs).blocks;
            && Indexed(c) && c.candidate == b.candidate && c.confirmed == b.confirmed
            && c.LinksInRange(hash) && c.LinksOf(hash) == txs
            && (forall x :: x in b.rows && x != hash ==>
                  c.LinksInRange(x) && c.rows[x] == b.rows[x] && c.LinksOf(x) == b.LinksOf(x))
  {
    hide Indexed;
    hide Blocks.LinksInRange;
    hide Blocks.LinksOf;
    var c := UpdateTransactions(b, hash, txs).blocks;
    UpdateKeepsIndexes(b, hash, c);
    UpdatedLinks(b, hash, txs);
    AllLinksInRange(b);
    OtherLinks(b, hash, txs);
    RangesHold(b, c, hash);
  }

  lemma AllLinksInRange(b: Blocks)
    requires Indexed(b)
    ensures forall x :: x in b.rows ==> b.LinksInRange(x)
  {
    hide Tree;
    hide Words;
    hide Linked;
  }

  lemma UpdatedLinks(b: Blocks, hash: Hash, txs: seq<Hash>)
    requires hash in b.rows && LinksFit(b, txs)
    ensures var c := UpdateTransactions(b, hash, txs).blocks;
            c.LinksInRange(hash) && c.LinksOf(hash) == txs
  {
  }

  lemma OtherLinks(b: Blocks, hash: Hash, txs: seq<Hash>)
    requires hash in b.rows && forall x :: x in b.rows ==> b.LinksInRange(x)
    ensures var c := UpdateTransactions(b, hash, txs).blocks;
            forall x :: x in b.rows && x != hash ==>
              c.LinksInRange(x) && c.rows[x] == b.rows[x] && c.LinksOf(x) == b.LinksOf(x)
  {
    var c := UpdateTransactions(b, hash, txs).blocks;
    forall x | x in b.rows && x != hash
      ensures b.LinksInRange(x) && c.LinksInRange(x) && c.LinksOf(x) == b.LinksOf(x)
    {
      assert c.links[..|b.links|] == b.links;
    }
  }

  lemma RangesHold(b: Blocks, c: Blocks, hash: Hash)
    requires Tree(c) && Words(c) && Linked(c, c.candidate) && Linked(c, c.confirmed)
    requires c.rows.Keys == b.rows.Keys && c.LinksInRange(hash)
    requires forall x :: x in b.rows && x != hash ==> c.LinksInRange(x)
    ensures Indexed(c)
  {
    hide Tree;
    hide Words;
    hide Linked;
  }

  /** Rows differ in no field that the indexes and the words depend on. */
  ghost predicate SameButLinks(b: Blocks, c: Blocks) {
    && c.rows.Keys == b.rows.Keys && c.candidate == b.candidate && c.confirmed == b.confirmed
    && forall x :: x in b.rows ==> c.rows[x] == b.rows[x].(start := c.rows[x].start, count := c.rows[x].count)
  }

  lemma SameWords(b: Blocks, c: Blocks)
    requires SameButLinks(b, c) && Words(b)
    ensures Words(c)
  {
    hide Legal;
  }

  lemma SameTree(b: Blocks, c: Blocks)
    requires SameButLinks(b, c) && Tree(b)
    ensures Tree(c)
    ensures forall index :: Linked(b, index) ==> Linked(c, index)
  {
  }

  lemma UpdateKeepsIndexes(b: Blocks, hash: Hash, c: Blocks)
    requires Indexed(b) && hash in b.rows && hash in c.rows
    requires c.rows == b.rows[hash := b.rows[hash].(start := c.rows[hash].start, count := c.rows[hash].count)]
    requires c.candidate == b.candidate && c.confirmed == b.confirmed
    ensures Tree(c) && Words(c) && Linked(c, c.candidate) && Linked(c, c.confirmed)
  {
    hide Tree;
    hide Words;
    hide Linked;
    hide Ranges;
    SameWords(b, c);
    SameTree(b, c);
  }

  /** A confirmed block has transactions stored for it. */
  lemma ConfirmedHasLinks(s: State, k: nat)
    requires Tied(s) && ValidChain(s.chain) && k < |s.chain|
    ensures s.blocks.LinksInRange(s.blocks.confirmed[k]) && s.blocks.rows[s.blocks.confirmed[k]].count > 0
  {
    assert TiedAt(s, k);
    ValidPrefix(s.chain, k);
  }

  lemma UpdateKeepsInv(s: State, block: FullBlock, height: nat)
    requires Inv(s) && UpdateOwed(s, block, height)
    ensures Update(s, block).ok && Inv(Update(s, block).state)
    ensures var u := Update(s, block).state;
            u.blocks.LinksInRange(block.header.hash) && u.blocks.LinksOf(block.header.hash) == block.TxLinks()
  {
    hide Agrees;
    hide ValidChain;
    hide Indexed;
    hide SameMarks;
    var u := Update(s, block).state;
    var hash := block.header.hash;
    StoreAllKeeps(s.table, block.txs);
    UpdateLinks(s.blocks, hash, block.TxLinks());
    MarkedAreCandidates(s);
    SameMarksSame(s.table, u.table);
    forall k | 0 <= k < |s.chain|
      ensures s.blocks.confirmed[k] != hash && s.blocks.LinksInRange(s.blocks.confirmed[k])
    {
      ConfirmedHasLinks(s, k);
    }
    TiedFrame(s, u);
    MarksFrame(s, u);
    PopulatedByUpdate(s, u, block);
  }

  lemma PopulatedByUpdate(s: State, u: State, block: FullBlock)
    requires Populated(s) && Indexed(s.blocks) && SameTransactions(s.table, u.table)
    requires forall tx :: tx in block.txs ==> tx.hash in u.table
    requires u.blocks.rows.Keys == s.blocks.rows.Keys && u.blocks.LinksInRange(block.header.hash)
    requires u.blocks.LinksOf(block.header.hash) == block.TxLinks()
    requires forall x :: x in s.blocks.rows && s.blocks.LinksInRange(x) && x != block.header.hash ==>
               u.blocks.LinksInRange(x) && u.blocks.LinksOf(x) == s.blocks.LinksOf(x)
    ensures Populated(u)
  {
    hide Tree;
    hide Linked;
    hide Words;
    forall x | u.blocks.LinksInRange(x) ensures LinksStored(u.table, u.blocks.LinksOf(x)) {
      assert s.blocks.LinksInRange(x);
      forall i | 0 <= i < |u.blocks.LinksOf(x)| ensures u.blocks.LinksOf(x)[i] in u.table {
        if x == block.header.hash {
          assert block.txs[i] in block.txs;
        } else {
          assert LinksStored(s.table, s.blocks.LinksOf(x));
        }
      }
    }
  }

  lemma SameMarksSame(t: Table, u: Table)
    requires SameMarks(t, u)
    ensures SameTransactions(t, u)
  {
  }

  // ---------------------------------------------------------------- state words

  /** Only state words and checksums differ. */
  ghost predicate SameButState(b: Blocks, c: Blocks) {
    && c.links == b.links && c.rows.Keys == b.rows.Keys
    && forall x :: x in b.rows ==> c.rows[x] == b.rows[x].(state := c.rows[x].state, checksum := c.rows[x].checksum)
  }

  lemma StateChangeKeeps(b: Blocks, c: Blocks)
    requires SameButState(b, c) && Tree(b) && Ranges(b)
    ensures Tree(c) && Ranges(c) && SameLinks(b, c)
    ensures forall index :: Linked(b, index) ==> Linked(c, index)
  {
    forall x | x in c.rows ensures c.LinksInRange(x) {
      assert b.LinksInRange(x);
    }
  }

  /** One block's word changed to a legal one, and the others are still on the indexes their bits say. */
  lemma WordsAfter(b: Blocks, c: Blocks, x: Hash)
    requires Words(b) && SameButState(b, c) && x in b.rows
    requires Legal(c.rows[x].state) && c.rows[x].state < 16
    requires IsCandidate(c.rows[x].state) ==> x in c.candidate
    requires IsConfirmed(c.rows[x].state) ==> x in c.confirmed
    requires x in c.confirmed ==> IsValid(c.rows[x].state)
    requires forall y :: y in b.rows && y != x ==> c.rows[y].state == b.rows[y].state
    requires forall y :: y in b.candidate && y != x ==> y in c.candidate
    requires forall y :: y != x ==> (y in c.confirmed <==> y in b.confirmed)
    ensures Words(c)
  {
  }

  // ---------------------------------------------------------------- validate

  /** The block is stored, and a block on the confirmed index is not made to fail. */
  ghost predicate InvalidateOwed(s: State, hash: Hash, error: nat) {
    hash in s.blocks.rows && (error != 0 ==> hash !in s.blocks.confirmed)
  }

  lemma ValidateIndexed(b: Blocks, hash: Hash, error: nat)
    requires Indexed(b) && hash in b.rows && (error != 0 ==> hash !in b.confirmed)
    ensures var c := Validate(b, hash, error).blocks;
            && Indexed(c) && SameLinks(b, c) && c.candidate == b.candidate && c.confirmed == b.confirmed
  {
    hide Legal;
    hide UpdateValidation;
    hide UpdateConfirmation;
    hide Tree;
    hide Ranges;
    hide Linked;
    var original := b.rows[hash].state;
    assert Legal(original) && original < 16;
    UpdatesKeepLegal(original, error == 0, true);
    UpdatesStayInWord(original, error == 0, true);
    ValidationBits(original, error == 0);
    var c := Validate(b, hash, error).blocks;
    StateChangeKeeps(b, c);
    WordsAfter(b, c, hash);
  }

  lemma InvalidateKeepsInv(s: State, hash: Hash, error: nat)
    requires Inv(s) && InvalidateOwed(s, hash, error)
    ensures Invalidate(s, hash, error).ok && Inv(Invalidate(s, hash, error).state)
  {
    var u := Invalidate(s, hash, error).state;
    ValidateIndexed(s.blocks, hash, error);
    MarkedAreCandidates(s);
    SameMarksReflexive(s.table);
    PopulatedStays(s, u);
    TiedStays(s, u);
    MarksStay(s, u);
  }

  // ---------------------------------------------------------------- candidate

  /** The block is one on the candidate index that has not failed, with these transactions stored for it. */
  ghost predicate CandidateOwed(s: State, block: FullBlock) {
    && block.header.hash in s.blocks.rows && !IsFailed(s.blocks.rows[block.header.hash].state)
    && block.header.hash in s.blocks.candidate
    && block.txs != []
    && s.blocks.LinksInRange(block.header.hash)
    && s.blocks.LinksOf(block.header.hash) == block.TxLinks()
  }

  lemma CandidateKeepsInv(s: State, block: FullBlock)
    requires Inv(s) && CandidateOwed(s, block)
    ensures CandidateBlock(s, block).ok <==> LinksReady(s.table, block.TxLinks())
    ensures CandidateBlock(s, block).ok ==> Inv(CandidateBlock(s, block).state)
  {
    hide Indexed;
    hide MarkedAs;
    hide LinksReady;
    hide Agrees;
    hide SameTransactions;
    var d := CandidateBlock(s, block);
    var u, hash, links := d.state, block.header.hash, block.TxLinks();
    ValidateIndexed(s.blocks, hash, 0);
    MarkBlock(s.table, links, true);
    if d.ok {
      MarkedKeeps(s.table, u.table, BlockPoints(s.table, links), LinkSet(links), true);
      PopulatedStays(s, u);
      TiedStays(s, u);
      MarkMore(s, u, hash, links);
    }
  }

  /** Marking a block adds exactly the outputs it spends. */
  lemma MarkMore(s: State, u: State, hash: Hash, links: seq<Hash>)
    requires Marks(s) && LinksReady(s.table, links) && links != []
    requires s.blocks.LinksInRange(hash) && s.blocks.LinksOf(hash) == links && hash in s.blocks.candidate
    requires SameLinks(s.blocks, u.blocks) && u.blocks.candidate == s.blocks.candidate
    requires MarkedAs(s.table, u.table, BlockPoints(s.table, links), LinkSet(links), true)
    requires u.marked == s.marked + {hash}
    ensures Marks(u)
  {
    MarkedKeeps(s.table, u.table, BlockPoints(s.table, links), LinkSet(links), true);
    forall x | x in u.marked
      ensures MarkedBlock(u, x)
      ensures s.blocks.LinksInRange(x)
      ensures BlockPoints(u.table, u.blocks.LinksOf(x)) == BlockPoints(s.table, s.blocks.LinksOf(x))
    {
      assert x in s.marked ==> MarkedBlock(s, x);
      ReadyFrame(s.table, u.table, s.blocks.LinksOf(x));
    }
    forall p ensures MarkedSpends(u, p) <==> MarkedSpends(s, p) || p in BlockPoints(s.table, links) {
      assert hash in u.marked && u.blocks.LinksInRange(hash);
    }
    forall h, i | h in u.table && 0 <= i < |u.table[h].outputs|
      ensures u.table[h].outputs[i].candidateSpent <==> MarkedSpends(u, Point(h, i))
    {
      assert RowMarkedAs(h, s.table[h], u.table[h], BlockPoints(s.table, links), LinkSet(links), true);
    }
  }

  /** A block off the candidate index can be candidated too, and no pop will unmark it: the invariants hold, for
      the blocks marked before, exactly when each output it spends was already marked. */
  lemma CandidateOffIndexKeepsInv(s: State, block: FullBlock)
    requires Inv(s) && block.header.hash in s.blocks.rows && block.header.hash !in s.blocks.candidate
    requires !IsFailed(s.blocks.rows[block.header.hash].state)
    requires s.blocks.LinksInRange(block.header.hash) && s.blocks.LinksOf(block.header.hash) == block.TxLinks()
    ensures var d := CandidateBlock(s, block);
            && (d.ok <==> LinksReady(s.table, block.TxLinks()))
            && (d.ok ==> (Inv(d.state.(marked := s.marked)) <==>
                          forall p :: p in BlockPoints(s.table, block.TxLinks()) ==> MarkedSpends(s, p)))
  {
    hide Indexed;
    hide MarkedAs;
    hide LinksReady;
    hide Agrees;
    hide SameTransactions;
    hide ValidChain;
    var d := CandidateBlock(s, block);
    var u, hash, links := d.state.(marked := s.marked), block.header.hash, block.TxLinks();
    ValidateIndexed(s.blocks, hash, 0);
    MarkBlock(s.table, links, true);
    if d.ok {
      MarkedKeeps(s.table, u.table, BlockPoints(s.table, links), LinkSet(links), true);
      PopulatedStays(s, u);
      TiedStays(s, u);
      MarkUntracked(s, u, links);
    }
  }

  /** Marking outputs without keeping the block that spends them. */
  lemma MarkUntracked(s: State, u: State, links: seq<Hash>)
    requires Marks(s) && LinksReady(s.table, links)
    requires SameLinks(s.blocks, u.blocks) && u.blocks.candidate == s.blocks.candidate && u.marked == s.marked
    requires MarkedAs(s.table, u.table, BlockPoints(s.table, links), LinkSet(links), true)
    ensures Marks(u) <==> forall p :: p in BlockPoints(s.table, links) ==> MarkedSpends(s, p)
  {
    MarkedKeeps(s.table, u.table, BlockPoints(s.table, links), LinkSet(links), true);
    forall x | x in u.marked
      ensures MarkedBlock(u, x)
      ensures s.blocks.LinksInRange(x)
      ensures BlockPoints(u.table, u.blocks.LinksOf(x)) == BlockPoints(s.table, s.blocks.LinksOf(x))
    {
      assert MarkedBlock(s, x);
      ReadyFrame(s.table, u.table, s.blocks.LinksOf(x));
    }
    forall p ensures MarkedSpends(u, p) <==> MarkedSpends(s, p) {
    }
    forall h, i | h in u.table && 0 <= i < |u.table[h].outputs|
      ensures u.table[h].outputs[i].candidateSpent <==>
              MarkedSpends(s, Point(h, i)) || Point(h, i) in BlockPoints(s.table, links)
    {
      assert RowMarkedAs(h, s.table[h], u.table[h], BlockPoints(s.table, links), LinkSet(links), true);
    }
    if Marks(u) {
      forall p | p in BlockPoints(s.table, links) ensures MarkedSpends(s, p) {
        assert OutputExists(s.table, p);
        assert RowMarkedAs(p.hash, s.table[p.hash], u.table[p.hash], BlockPoints(s.table, links), LinkSet(links), true);
        assert u.table[p.hash].outputs[p.index].candidateSpent;
        assert p == Point(p.hash, p.index);
      }
    }
  }

  // ---------------------------------------------------------------- push header

  /** The header is next on the candidate index; when it is already stored it is the same. */
  ghost predicate PushHeaderOwed(s: State, header: Header, known: bool, height: nat) {
    && VerifyPushHeader(s, header, height)
    && known == (header.hash in s.blocks.rows)
    && (known ==> s.blocks.rows[header.hash].previous == header.previous)
    && header.hash != NULL_HASH
    && height <= MAX_HEIGHT
  }

  /** A stored child of the top of an index is stored at the next height, so it is not on the index. */
  lemma NextHeight(b: Blocks, index: seq<Hash>, x: Hash)
    requires Indexed(b) && Linked(b, index) && x in b.rows && b.rows[x].previous == index[|index| - 1]
    ensures b.rows[x].height == |index| && x !in index
  {
  }

  lemma PromoteIndexed(b: Blocks, x: Hash, candidate: bool)
    requires Indexed(b) && x in b.rows
    requires b.rows[x].previous == b.Index(candidate)[|b.Index(candidate)| - 1]
    requires candidate || IsValid(b.rows[x].state)
    requires |b.Index(candidate)| <= MAX_HEIGHT
    ensures var r := Promote(b, x, |b.Index(candidate)|, candidate);
            && r.ok && Indexed(r.blocks) && SameLinks(b, r.blocks)
            && r.blocks.Index(candidate) == b.Index(candidate) + [x]
            && r.blocks.Index(!candidate) == b.Index(!candidate)
  {
    hide Legal;
    hide UpdateConfirmation;
    hide Tree;
    hide Ranges;
    hide Linked;
    var original := b.rows[x].state;
    var index := b.Index(candidate);
    assert Legal(original) && original < 16;
    NextHeight(b, index, x);
    UpdatesKeepLegal(original, true, candidate);
    UpdatesStayInWord(original, true, candidate);
    ConfirmationBits(original, true, candidate);
    var c := Promote(b, x, |index|, candidate).blocks;
    assert x in index + [x];
    StateChangeKeeps(b, c);
    WordsAfter(b, c, x);
    LinkedSnoc(c, index, x);
  }

  lemma LinkedSnoc(b: Blocks, index: seq<Hash>, x: Hash)
    requires Linked(b, index) && x in b.rows && |index| <= MAX_HEIGHT
    requires b.rows[x].height == |index| && b.rows[x].previous == index[|index| - 1]
    ensures Linked(b, index + [x])
  {
  }

  lemma StoreHeaderIndexed(b: Blocks, header: Header, height: nat, time: nat)
    requires Indexed(b) && header.hash !in b.rows && header.hash != NULL_HASH
    requires height == |b.candidate| <= MAX_HEIGHT && header.previous == b.candidate[height - 1]
    ensures var c := Promote(StoreHeader(b, header, height, time), header.hash, height, true).blocks;
            && Indexed(c) && SameLinks(b, c)
            && c.candidate == b.candidate + [header.hash] && c.confirmed == b.confirmed
  {
    hide Legal;
    hide UpdateConfirmation;
    hide Words;
    hide Linked;
    hide Tree;
    var c := Promote(StoreHeader(b, header, height, time), header.hash, height, true).blocks;
    forall y | y in b.rows ensures c.LinksInRange(y) && c.rows[y] == b.rows[y] {
      assert b.LinksInRange(y);
    }
    NewHeaderWords(b, c, header.hash);
    NewHeaderTree(b, c, header.hash);
  }

  ghost predicate AddsHeader(b: Blocks, c: Blocks, x: Hash) {
    && x !in b.rows && c.rows.Keys == b.rows.Keys + {x}
    && (forall y :: y in b.rows ==> c.rows[y] == b.rows[y])
    && c.candidate == b.candidate + [x] && c.confirmed == b.confirmed
  }

  lemma NewHeaderWords(b: Blocks, c: Blocks, x: Hash)
    requires Indexed(b) && AddsHeader(b, c, x) && c.rows[x].state == UpdateConfirmation(CANDIDATE, true, true)
    ensures Words(c)
  {
    hide Legal;
    hide UpdateConfirmation;
    hide Tree;
    ConfirmationBits(CANDIDATE, true, true);
    UpdatesStayInWord(CANDIDATE, true, true);
    NewCandidateIsLegal();
    forall y | y in c.rows && IsCandidate(c.rows[y].state) ensures y in c.candidate {
      assert x in [x];
    }
    assert x !in c.confirmed;
  }

  lemma NewHeaderTree(b: Blocks, c: Blocks, x: Hash)
    requires Indexed(b) && AddsHeader(b, c, x) && x != NULL_HASH && |b.candidate| <= MAX_HEIGHT
    requires c.rows[x].height == |b.candidate| && c.rows[x].previous == b.candidate[|b.candidate| - 1]
    ensures Tree(c) && Linked(c, c.candidate) && Linked(c, c.confirmed)
  {
    hide Words;
    hide Ranges;
    hide Linked;
    var n := |b.candidate|;
    assert Linked(b, b.candidate) && Linked(b, b.confirmed);
    LinkedWithMore(b, c, b.candidate);
    LinkedWithMore(b, c, b.confirmed);
    LinkedSnoc(c, b.candidate, x);
    LinkedTop(b, b.candidate);
  }

  lemma LinkedTop(b: Blocks, index: seq<Hash>)
    requires Linked(b, index)
    ensures index[|index| - 1] in b.rows && b.rows[index[|index| - 1]].height == |index| - 1
  {
  }

  lemma LinkedWithMore(b: Blocks, c: Blocks, index: seq<Hash>)
    requires Linked(b, index) && b.rows.Keys <= c.rows.Keys && forall y :: y in b.rows ==> c.rows[y] == b.rows[y]
    ensures Linked(c, index)
  {
  }

  lemma NewCandidateIsLegal()
    ensures Legal(UpdateConfirmation(CANDIDATE, true, true))
  {
    assert UpdateConfirmation(CANDIDATE, true, true) == CANDIDATE;
  }

  lemma PushHeaderKeepsInv(s: State, header: Header, known: bool, height: nat, time: nat)
    requires Inv(s) && PushHeaderOwed(s, header, known, height)
    ensures Inv(PushHeader(s, header, known, height, time).state)
    ensures PushHeader(s, header, known, height, time).state.blocks.candidate == s.blocks.candidate + [header.hash]
  {
    hide ValidChain;
    hide Agrees;
    hide Legal;
    hide Words;
    var u := PushHeader(s, header, known, height, time).state;
    if known {
      PromoteIndexed(s.blocks, header.hash, true);
    } else {
      StoreHeaderIndexed(s.blocks, header, height, time);
    }
    MarkedAreCandidates(s);
    SameMarksReflexive(s.table);
    PopulatedStays(s, u);
    TiedStays(s, u);
    MarksStay(s, u);
  }

  // ---------------------------------------------------------------- pop header

  /** There is a header above genesis, and no other candidated block spends an output that its block spends. */
  ghost predicate PopHeaderOwed(s: State) {
    && |s.blocks.candidate| >= 2
    && var top := s.blocks.candidate[|s.blocks.candidate| - 1];
       && s.blocks.LinksInRange(top)
       && forall y :: y in s.marked && y != top && s.blocks.LinksInRange(y) ==>
            BlockPoints(s.table, s.blocks.LinksOf(y)) !! BlockPoints(s.table, s.blocks.LinksOf(top))
  }

  lemma DemoteIndexed(b: Blocks, candidate: bool)
    requires Indexed(b) && |b.Index(candidate)| >= 2
    ensures var n := |b.Index(candidate)| - 1;
            var r := Demote(b, b.Index(candidate)[n], n, candidate);
            && r.ok && Indexed(r.blocks) && SameLinks(b, r.blocks)
            && r.blocks.Index(candidate) == b.Index(candidate)[..n]
            && r.blocks.Index(!candidate) == b.Index(!candidate)
  {
    hide Legal;
    hide UpdateConfirmation;
    hide Tree;
    hide Ranges;
    var index := b.Index(candidate);
    var n := |index| - 1;
    var x := index[n];
    assert Linked(b, index);
    var original := b.rows[x].state;
    assert Legal(original) && original < 16;
    UpdatesKeepLegal(original, false, candidate);
    UpdatesStayInWord(original, false, candidate);
    ConfirmationBits(original, false, candidate);
    var c := Demote(b, x, n, candidate).blocks;
    OthersStay(index, n);
    StateChangeKeeps(b, c);
    WordsAfter(b, c, x);
    LinkedFront(c, index, n);
  }

  lemma LinkedFront(b: Blocks, index: seq<Hash>, n: nat)
    requires Linked(b, index) && 0 < n <= |index|
    ensures Linked(b, index[..n])
  {
  }

  lemma PopHeaderKeepsInv(s: State)
    requires Inv(s) && PopHeaderOwed(s)
    ensures var n := |s.blocks.candidate| - 1;
            var d := PopHeader(s, n);
            && (d.ok <==> LinksReady(s.table, s.blocks.LinksOf(s.blocks.candidate[n])))
            && (d.ok ==> Inv(d.state) && d.state.blocks.candidate == s.blocks.candidate[..n])
  {
    hide Indexed;
    hide MarkedAs;
    hide LinksReady;
    hide Agrees;
    hide SameTransactions;
    var n := |s.blocks.candidate| - 1;
    var top := s.blocks.candidate[n];
    var links := s.blocks.LinksOf(top);
    var d := PopHeader(s, n);
    MarkBlock(s.table, links, false);
    DemoteIndexed(s.blocks, true);
    if d.ok {
      MarkedKeeps(s.table, d.state.table, BlockPoints(s.table, links), LinkSet(links), false);
      PopulatedStays(s, d.state);
      TiedStays(s, d.state);
      OthersStay(s.blocks.candidate, n);
      MarkLess(s, d.state, top, links);
    }
  }

  lemma OthersStay(index: seq<Hash>, n: nat)
    requires n + 1 == |index|
    ensures forall y :: y in index && y != index[n] ==> y in index[..n]
  {
  }

  /** Unmarking a block removes exactly the outputs it spends. */
  lemma MarkLess(s: State, u: State, top: Hash, links: seq<Hash>)
    requires Marks(s)
    requires s.blocks.LinksInRange(top) && s.blocks.LinksOf(top) == links && LinksReady(s.table, links)
    requires SameLinks(s.blocks, u.blocks)
    requires forall y :: y in s.blocks.candidate && y != top ==> y in u.blocks.candidate
    requires forall y :: y in s.marked && y != top && s.blocks.LinksInRange(y) ==>
               BlockPoints(s.table, s.blocks.LinksOf(y)) !! BlockPoints(s.table, links)
    requires MarkedAs(s.table, u.table, BlockPoints(s.table, links), LinkSet(links), false)
    requires u.marked == s.marked - {top}
    ensures Marks(u)
  {
    MarkedKeeps(s.table, u.table, BlockPoints(s.table, links), LinkSet(links), false);
    forall x | x in u.marked
      ensures MarkedBlock(u, x)
      ensures s.blocks.LinksInRange(x)
      ensures BlockPoints(u.table, u.blocks.LinksOf(x)) == BlockPoints(s.table, s.blocks.LinksOf(x))
    {
      assert MarkedBlock(s, x);
      ReadyFrame(s.table, u.table, s.blocks.LinksOf(x));
    }
    forall p ensures MarkedSpends(u, p) <==> MarkedSpends(s, p) && p !in BlockPoints(s.table, links) {
    }
    forall h, i | h in u.table && 0 <= i < |u.table[h].outputs|
      ensures u.table[h].outputs[i].candidateSpent <==> MarkedSpends(u, Point(h, i))
    {
      assert RowMarkedAs(h, s.table[h], u.table[h], BlockPoints(s.table, links), LinkSet(links), false);
    }
  }

  // ---------------------------------------------------------------- push block

  /** The block is the stored, validated and populated next block of the confirmed chain, and is valid there. */
  ghost predicate ConfirmOwed(s: State, hash: Hash, links: seq<Hash>, height: nat, time: nat) {
    && |s.blocks.confirmed| == height > 0
    && hash in s.blocks.rows && s.blocks.rows[hash].previous == s.blocks.confirmed[height - 1]
    && IsValid(s.blocks.rows[hash].state)
    && s.blocks.LinksInRange(hash) && s.blocks.LinksOf(hash) == links
    && LinksStored(s.table, links)
    && ValidNext(s.chain, LedgerBlock(s.table, links, time))
  }

  lemma LedgerBlockStored(t: Table, links: seq<Hash>, time: nat)
    requires LinksStored(t, links)
    ensures AllStored(t, LedgerBlock(t, links, time).txs)
    ensures Links(LedgerBlock(t, links, time).txs) == links
  {
  }

  lemma UnmovedSameMarks(t: Table, u: Table)
    requires Unmoved(t, u)
    ensures SameMarks(t, u)
  {
    forall h | h in t ensures SameTransaction(t[h], u[h]) {
      assert RowUnmoved(t[h], u[h]);
    }
    forall h, i | h in u && 0 <= i < |u[h].outputs|
      ensures u[h].outputs[i].candidateSpent == (h in t && i < |t[h].outputs| && t[h].outputs[i].candidateSpent)
    {
      assert RowUnmoved(t[h], u[h]);
    }
  }

  lemma ConfirmKeepsInv(s: State, hash: Hash, links: seq<Hash>, height: nat, time: nat)
    requires Inv(s) && ConfirmOwed(s, hash, links, height, time)
    ensures var d := ConfirmLinks(s, hash, links, height, time);
            && d.ok && Inv(d.state)
            && d.state.blocks.confirmed == s.blocks.confirmed + [hash]
            && d.state.chain == s.chain + [LedgerBlock(s.table, links, time)]
            && d.state.marked == s.marked && Unmoved(s.table, d.state.table)
  {
    hide Indexed;
    hide Agrees;
    hide ValidNext;
    hide Unmoved;
    hide SameMarks;
    hide ValidChain;
    hide Stored;
    var block := LedgerBlock(s.table, links, time);
    LedgerBlockStored(s.table, links, time);
    ConfirmBlockAgrees(s.table, s.chain, block);
    ConfirmPromotes(s, hash, links, height, time);
    var u := ConfirmLinks(s, hash, links, height, time).state;
    UnmovedSameMarks(s.table, u.table);
    SameMarksSame(s.table, u.table);
    PopulatedStays(s, u);
    ValidAppend(s.chain, block);
    MarkedAreCandidates(s);
    MarksStay(s, u);
    forall k | 0 <= k < |u.chain| ensures TiedAt(u, k) {
      if k < height {
        assert TiedAt(s, k);
        StoredFrame(s.table, u.table, s.chain[k].txs);
      } else {
        StoredFrame(s.table, u.table, block.txs);
      }
    }
  }

  lemma ConfirmPromotes(s: State, hash: Hash, links: seq<Hash>, height: nat, time: nat)
    requires Inv(s) && ConfirmOwed(s, hash, links, height, time)
    ensures var r := Promote(s.blocks, hash, height, false);
            && r.ok && Indexed(r.blocks) && SameLinks(s.blocks, r.blocks)
            && r.blocks.confirmed == s.blocks.confirmed + [hash] && r.blocks.candidate == s.blocks.candidate
  {
    hide Agrees;
    hide Marks;
    hide Legal;
    hide Words;
    hide SpendsUnspent;
    PromoteIndexed(s.blocks, hash, false);
  }

  // ---------------------------------------------------------------- pop block

  /** Popping the top block above genesis never fails, and takes exactly that block off the chain. */
  lemma PopBlockKeepsInv(s: State)
    requires Inv(s) && |s.blocks.confirmed| >= 2
    ensures var n := |s.blocks.confirmed| - 1;
            var d := PopBlock(s, n);
            && d.ok && Inv(d.state)
            && d.state.blocks.confirmed == s.blocks.confirmed[..n]
            && d.state.chain == s.chain[..n]
            && d.state.marked == s.marked && Unmoved(s.table, d.state.table)
            && Deconfirmed(s.table, d.state.table, Hashes(s.chain[n].txs))
  {
    hide Indexed;
    hide Agrees;
    hide ValidNext;
    hide Unmoved;
    hide SameMarks;
    hide ValidChain;
    hide Stored;
    hide Deconfirmed;
    var n := |s.blocks.confirmed| - 1;
    var block := s.chain[n];
    assert TiedAt(s, n);
    ValidPrefix(s.chain, n);
    assert s.chain == s.chain[..n] + [block];
    UnconfirmBlockAgrees(s.table, s.chain[..n], block);
    DemoteIndexed(s.blocks, false);
    var u := PopBlock(s, n).state;
    UnmovedSameMarks(s.table, u.table);
    SameMarksSame(s.table, u.table);
    PopulatedStays(s, u);
    MarkedAreCandidates(s);
    MarksStay(s, u);
    forall k | 0 <= k < |u.chain| ensures TiedAt(u, k) {
      assert TiedAt(s, k);
      StoredFrame(s.table, u.table, s.chain[k].txs);
    }
  }
}
