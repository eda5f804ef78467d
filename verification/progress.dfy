/** What callers owe can always be met: a new valid block can be carried from its header to the confirmed
    index, and be popped again. */
module Progress {
  import opened Types
  import opened Record
  import opened BlockState
  import opened BlockTable
  import opened TransactionTable
  import opened Ledger
  import opened Agreement
  import opened CandidateSpends
  import opened ChainState
  import opened Invariants
  import opened Steps
  import opened Runs

  // ---------------------------------------------------------------- a valid block spends stored outputs

  lemma {:induction false} UtxoAfterFrom(u: set<Point>, txs: seq<Tx>, p: Point)
    requires p in UtxoAfter(u, txs)
    ensures p in u || exists tx :: tx in txs && p in Creates(tx)
    decreases |txs|
  {
    if txs != [] {
      var n := |txs| - 1;
      if p in Creates(txs[n]) {
        assert txs[n] in txs;
      } else {
        UtxoAfterFrom(u, txs[..n], p);
      }
    }
  }

  lemma {:induction false} SpendsComeFrom(u: set<Point>, txs: seq<Tx>, p: Point)
    requires SpendsUnspent(u, txs) && p in AllSpends(txs)
    ensures p in u || exists tx :: tx in txs && p in Creates(tx)
    decreases |txs|
  {
    if txs != [] {
      var n := |txs| - 1;
      if p in Spends(txs[n]) {
        UtxoAfterFrom(u, txs[..n], p);
      } else {
        assert txs == txs[..n] + [txs[n]];
        SpendsComeFrom(u, txs[..n], p);
      }
    }
  }

  /** Every output that a valid next block spends is stored. */
  lemma ValidBlockIsReady(t: Table, chain: seq<Block>, links: seq<Hash>, time: nat)
    requires ValidChain(chain) && Agrees(t, Summarize(chain)) && LinksStored(t, links)
    requires ValidNext(chain, LedgerBlock(t, links, time))
    ensures LinksReady(t, links)
  {
    hide ValidChain;
    hide Summarize;
    hide SpendsUnspent;
    var block := LedgerBlock(t, links, time);
    LedgerBlockStored(t, links, time);
    UtxoIsLive(chain);
    BlockPointsAreSpends(t, block.txs);
    forall p | p in BlockPoints(t, links) ensures OutputExists(t, p) {
      SpendsComeFrom(Utxo(chain), block.txs, p);
      if p in Utxo(chain) {
        assert Live(Summarize(chain), p);
        assert RowAgrees(p.hash, t[p.hash], Summarize(chain));
      } else {
        var tx :| tx in block.txs && p in Creates(tx);
        assert Stored(t, tx);
      }
    }
  }

  // ---------------------------------------------------------------- the four operations

  /** The block is a new child of the top that both indexes share, and is valid there once it is stored. */
  ghost predicate NewValidBlock(s: State, block: FullBlock) {
    && |s.blocks.candidate| == |s.blocks.confirmed| > 0
    && var n := |s.blocks.confirmed|;
       && s.blocks.candidate[n - 1] == s.blocks.confirmed[n - 1] == block.header.previous
       && block.header.hash !in s.blocks.rows && block.header.hash != NULL_HASH
       && LinksFit(s.blocks, block.TxLinks())
       && ValidNext(s.chain, LedgerBlock(Each(s.table, block.txs, Storing()).table, block.TxLinks(), block.time))
  }

  lemma HeaderIsOwed(s: State, block: FullBlock)
    requires Inv(s) && NewValidBlock(s, block)
    ensures var n := |s.blocks.confirmed|;
            && PushHeaderOwed(s, block.header, false, n)
            && var u := PushHeader(s, block.header, false, n, block.time).state;
               && Inv(u) && UpdateOwed(u, block, n)
               && u == s.(blocks := u.blocks)
               && u.blocks.confirmed == s.blocks.confirmed
               && u.blocks.candidate == s.blocks.candidate + [block.header.hash]
               && u.blocks.rows[block.header.hash].previous == block.header.previous
               && u.blocks.rows[block.header.hash].state == UpdateConfirmation(CANDIDATE, true, true)
  {
    hide Inv;
    hide UpdateConfirmation;
    hide SpendsUnspent;
    hide Each;
    hide LedgerBlock;
    TopMatches(s);
    assert |block.TxLinks()| == |block.txs|;
    NonEmpty(Each(s.table, block.txs, Storing()).table, block, s.chain);
    PushHeaderKeepsInv(s, block.header, false, |s.blocks.confirmed|, block.time);
  }

  lemma TopMatches(s: State)
    requires Inv(s)
    ensures |s.chain| == |s.blocks.confirmed|
  {
  }

  lemma NonEmpty(t: Table, block: FullBlock, chain: seq<Block>)
    requires ValidNext(chain, LedgerBlock(t, block.TxLinks(), block.time))
    ensures block.txs != []
  {
  }

  lemma CandidateIsOwed(u: State, block: FullBlock)
    requires Inv(u) && UpdateOwed(u, block, |u.blocks.confirmed|) && block.header.hash in u.blocks.candidate
    requires u.blocks.rows[block.header.hash].state == UpdateConfirmation(CANDIDATE, true, true)
    requires ValidNext(u.chain, LedgerBlock(Each(u.table, block.txs, Storing()).table, block.TxLinks(), block.time))
    ensures var v := Update(u, block).state;
            && Inv(v) && CandidateOwed(v, block) && LinksReady(v.table, block.TxLinks())
            && v == u.(blocks := v.blocks, table := Each(u.table, block.txs, Storing()).table)
            && v.blocks.confirmed == u.blocks.confirmed && v.blocks.candidate == u.blocks.candidate
            && v.blocks.rows[block.header.hash].previous == u.blocks.rows[block.header.hash].previous
  {
    hide Indexed;
    hide Marks;
    hide Tied;
    hide ValidChain;
    hide ValidNext;
    hide Agrees;
    hide LinksReady;
    hide LedgerBlock;
    hide Each;
    hide UpdateConfirmation;
    hide IsFailed;
    hide IsValid;
    UpdateKeepsInv(u, block, |u.blocks.confirmed|);
    ConfirmationBits(CANDIDATE, true, true);
    NewWordIsPending();
    var v := Update(u, block).state;
    assert LinksStored(v.table, block.TxLinks());
    ValidBlockIsReady(v.table, v.chain, block.TxLinks(), block.time);
  }

  lemma NewWordIsPending()
    ensures !IsFailed(CANDIDATE) && !IsValid(CANDIDATE)
  {
  }

  lemma PushIsOwed(v: State, block: FullBlock)
    requires Inv(v) && CandidateOwed(v, block) && LinksReady(v.table, block.TxLinks())
    requires v.blocks.rows[block.header.hash].previous == block.header.previous
    requires v.blocks.confirmed != [] && v.blocks.confirmed[|v.blocks.confirmed| - 1] == block.header.previous
    requires ValidNext(v.chain, LedgerBlock(v.table, block.TxLinks(), block.time))
    ensures var d := CandidateBlock(v, block);
            && d.ok && Inv(d.state) && PushBlockOwed(d.state, block, |v.blocks.confirmed|)
            && d.state.blocks.confirmed == v.blocks.confirmed && d.state.chain == v.chain
  {
    hide Inv;
    hide LinksReady;
    hide ValidNext;
    hide LedgerBlock;
    hide Each;
    hide UpdateValidation;
    hide IsValid;
    hide IsFailed;
    CandidateKeepsInv(v, block);
    var w := CandidateBlock(v, block).state;
    ValidationBits(v.blocks.rows[block.header.hash].state, true);
    MarkedStays(v, w, block);
  }

  /** Marking changes nothing that the validity of a block depends on. */
  lemma MarkedStays(v: State, w: State, block: FullBlock)
    requires LinksReady(v.table, block.TxLinks())
    requires w.table == Each(v.table, block.TxLinks(), Candidating(true)).table
    ensures LinksStored(w.table, block.TxLinks())
    ensures LedgerBlock(w.table, block.TxLinks(), block.time) == LedgerBlock(v.table, block.TxLinks(), block.time)
  {
    hide Each;
    var links := block.TxLinks();
    MarkBlock(v.table, links, true);
    MarkedKeeps(v.table, w.table, BlockPoints(v.table, links), LinkSet(links), true);
    forall i | 0 <= i < |links| ensures links[i] in w.table && TxOf(w.table, links[i]) == TxOf(v.table, links[i]) {
      assert links[i] in links;
      assert SameTransaction(v.table[links[i]], w.table[links[i]]);
      assert w.table[links[i]].Points() == v.table[links[i]].Points();
    }
  }

  /** In every reachable state where the indexes share their top, a new valid block can be pushed as a header,
      updated, candidated and pushed as a block: each operation is owed nothing more and succeeds. */
  lemma ValidBlockCanBeConfirmed(s: State, block: FullBlock)
    requires Reachable(s) && NewValidBlock(s, block)
    ensures var n := |s.blocks.confirmed|;
            var header, update := PushHeaderStep(block.header, false, n, block.time), UpdateStep(block, n);
            var candidate, push := CandidateStep(block), PushBlockStep(block, n);
            var u1 := Next(s, header).state;
            var u2 := Next(u1, update).state;
            var u3 := Next(u2, candidate).state;
            var u4 := Next(u3, push).state;
            && Owed(s, header) && Owed(u1, update) && Owed(u2, candidate) && Owed(u3, push)
            && Next(s, header).ok && Next(u1, update).ok && Next(u2, candidate).ok && Next(u3, push).ok
            && Reachable(u4)
            && u4.blocks.confirmed == s.blocks.confirmed + [block.header.hash]
            && u4.chain
               == s.chain + [LedgerBlock(Each(s.table, block.txs, Storing()).table, block.TxLinks(), block.time)]
  {
    hide Reachable;
    hide Inv;
    hide PushHeader;
    hide Update;
    hide CandidateBlock;
    hide PushBlock;
    hide PushHeaderOwed;
    hide UpdateOwed;
    hide CandidateOwed;
    hide PushBlockOwed;
    hide LinksReady;
    hide ValidNext;
    hide LedgerBlock;
    hide Each;
    hide UpdateConfirmation;
    var n := |s.blocks.confirmed|;
    ReachableInv(s);
    HeaderIsOwed(s, block);
    var u1 := PushHeader(s, block.header, false, n, block.time).state;
    HeaderSucceeds(s, block, n);
    ReachableStep(s, PushHeaderStep(block.header, false, n, block.time));
    CandidateIsOwed(u1, block);
    var u2 := Update(u1, block).state;
    StepKeepsInv(u1, UpdateStep(block, n));
    ReachableStep(u1, UpdateStep(block, n));
    PushIsOwed(u2, block);
    var u3 := CandidateBlock(u2, block).state;
    ReachableStep(u2, CandidateStep(block));
    Extends(u2, u3, block, n);
    ReachableStep(u3, PushBlockStep(block, n));
  }

  lemma HeaderSucceeds(s: State, block: FullBlock, n: nat)
    ensures PushHeader(s, block.header, false, n, block.time).ok
  {
  }

  lemma Extends(u2: State, u3: State, block: FullBlock, n: nat)
    requires Inv(u3) && PushBlockOwed(u3, block, n) && LinksReady(u2.table, block.TxLinks())
    requires u3 == CandidateBlock(u2, block).state && CandidateBlock(u2, block).ok
    ensures var d := PushBlock(u3, block, n);
            && d.ok && d.state.blocks.confirmed == u3.blocks.confirmed + [block.header.hash]
            && d.state.chain == u3.chain + [LedgerBlock(u2.table, block.TxLinks(), block.time)]
  {
    hide Inv;
    hide ValidNext;
    hide LinksReady;
    hide LedgerBlock;
    hide Each;
    ConfirmKeepsInv(u3, block.header.hash, block.TxLinks(), n, block.time);
    MarkedStays(u2, u3, block);
  }
}
