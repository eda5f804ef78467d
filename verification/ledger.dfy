/** What a chain of confirmed blocks means: its unspent outputs, and where each transaction and spend sits. */
module Ledger {
  import opened Types

  /** The part of a transaction that spending depends on. */
  datatype Tx = Tx(hash: Hash, inputs: seq<Point>, outputs: nat)

  datatype Block = Block(txs: seq<Tx>, time: nat)

  function Spends(tx: Tx): set<Point> {
    set p | p in tx.inputs && !p.IsNull()
  }

  function Creates(tx: Tx): set<Point> {
    set i | 0 <= i < tx.outputs :: Point(tx.hash, i)
  }

  function Hashes(txs: seq<Tx>): set<Hash> {
    set tx | tx in txs :: tx.hash
  }

  function AllSpends(txs: seq<Tx>): set<Point> {
    set tx, p | tx in txs && p in Spends(tx) :: p
  }

  function ChainHashes(chain: seq<Block>): set<Hash> {
    set block, tx | block in chain && tx in block.txs :: tx.hash
  }

  // ---------------------------------------------------------------- unspent outputs

  /** The unspent outputs after some transactions of a block. */
  function UtxoAfter(u: set<Point>, txs: seq<Tx>): set<Point> {
    if txs == [] then u
    else
      var n := |txs| - 1;
      UtxoAfter(u, txs[..n]) - Spends(txs[n]) + Creates(txs[n])
  }

  /** The unspent outputs of a chain; the genesis block creates none. */
  function Utxo(chain: seq<Block>): set<Point> {
    if |chain| <= 1 then {}
    else UtxoAfter(Utxo(chain[..|chain| - 1]), chain[|chain| - 1].txs)
  }

  // ---------------------------------------------------------------- consensus validity

  /** Each transaction spends outputs that are unspent when it is reached. */
  predicate SpendsUnspent(u: set<Point>, txs: seq<Tx>) {
    txs == [] ||
    (var n := |txs| - 1;
     SpendsUnspent(u, txs[..n]) && Spends(txs[n]) <= UtxoAfter(u, txs[..n]))
  }

  predicate DistinctHashes(txs: seq<Tx>) {
    forall i, j :: 0 <= i < j < |txs| ==> txs[i].hash != txs[j].hash
  }

  /** What the caller owes for a block to be confirmed next. */
  predicate ValidNext(chain: seq<Block>, block: Block) {
    && 0 < |block.txs| <= MAX_BLOCK_TXS
    && block.time <= MAX_UINT32
    && |chain| <= MAX_HEIGHT
    && (chain == [] ==> |block.txs| == 1)
    && DistinctHashes(block.txs)
    && Hashes(block.txs) !! ChainHashes(chain)
    && Spends(block.txs[0]) == {}
    && SpendsUnspent(Utxo(chain), block.txs)
  }

  predicate ValidChain(chain: seq<Block>) {
    chain == [] ||
    (var n := |chain| - 1; ValidChain(chain[..n]) && ValidNext(chain[..n], chain[n]))
  }

  lemma {:induction false} ValidPrefix(chain: seq<Block>, k: nat)
    requires ValidChain(chain) && k <= |chain|
    ensures ValidChain(chain[..k])
    ensures k < |chain| ==> ValidNext(chain[..k], chain[k])
    decreases |chain|
  {
    if k == |chain| {
      assert chain[..k] == chain;
    } else {
      var n := |chain| - 1;
      if k < n {
        ValidPrefix(chain[..n], k);
        assert chain[..n][..k] == chain[..k];
      }
    }
  }

  lemma ValidAppend(chain: seq<Block>, block: Block)
    requires ValidChain(chain) && ValidNext(chain, block)
    ensures ValidChain(chain + [block])
  {
    assert (chain + [block])[..|chain|] == chain;
  }

  // ---------------------------------------------------------------- summary

  datatype Location = Location(height: nat, position: nat, time: nat, outputs: nat)

  /** Where each confirmed transaction sits, and at what height each spent output was spent. */
  datatype Summary = Summary(located: map<Hash, Location>, spent: map<Point, nat>)

  const EMPTY := Summary(map[], map[])

  function AddTx(m: Summary, tx: Tx, height: nat, position: nat, time: nat): Summary {
    Summary(m.located[tx.hash := Location(height, position, time, tx.outputs)],
            m.spent + map p | p in Spends(tx) :: height)
  }

  function AddTxs(m: Summary, txs: seq<Tx>, height: nat, time: nat): Summary {
    if txs == [] then m
    else
      var n := |txs| - 1;
      AddTx(AddTxs(m, txs[..n], height, time), txs[n], height, n, time)
  }

  /** The summary of a chain is the fold of its blocks. */
  function Summarize(chain: seq<Block>): Summary {
    if chain == [] then EMPTY
    else
      var n := |chain| - 1;
      AddTxs(Summarize(chain[..n]), chain[n].txs, n, chain[n].time)
  }

  function Without(m: Summary, txs: seq<Tx>): Summary {
    Summary(m.located - Hashes(txs), m.spent - AllSpends(txs))
  }

  lemma SummarizeAppend(chain: seq<Block>, block: Block)
    ensures Summarize(chain + [block]) == AddTxs(Summarize(chain), block.txs, |chain|, block.time)
  {
    assert (chain + [block])[..|chain|] == chain;
  }

  lemma HashesSnoc(txs: seq<Tx>)
    requires txs != []
    ensures Hashes(txs) == Hashes(txs[..|txs| - 1]) + {txs[|txs| - 1].hash}
    ensures AllSpends(txs) == AllSpends(txs[..|txs| - 1]) + Spends(txs[|txs| - 1])
  {
    var n := |txs| - 1;
    assert txs == txs[..n] + [txs[n]];
    assert forall tx :: tx in txs <==> tx in txs[..n] || tx == txs[n];
  }

  /** What adding the transactions of a block changes. */
  lemma {:induction false} AddTxsEffect(m: Summary, txs: seq<Tx>, height: nat, time: nat)
    ensures var r := AddTxs(m, txs, height, time);
            && r.located.Keys == m.located.Keys + Hashes(txs)
            && r.spent.Keys == m.spent.Keys + AllSpends(txs)
            && (forall h :: h in r.located ==> if h in Hashes(txs) then r.located[h].height == height
                                               else r.located[h] == m.located[h])
            && (forall p :: p in r.spent ==> r.spent[p] == if p in AllSpends(txs) then height else m.spent[p])
    decreases |txs|
  {
    if txs != [] {
      HashesSnoc(txs);
      AddTxsEffect(m, txs[..|txs| - 1], height, time);
    }
  }

  /** Removing a block's transactions undoes adding them when they and their spends were new. */
  lemma AddThenRemove(m: Summary, txs: seq<Tx>, height: nat, time: nat)
    requires Hashes(txs) !! m.located.Keys && AllSpends(txs) !! m.spent.Keys
    ensures Without(AddTxs(m, txs, height, time), txs) == m
  {
    AddTxsEffect(m, txs, height, time);
    var r := Without(AddTxs(m, txs, height, time), txs);
    assert r.located.Keys == m.located.Keys && r.spent.Keys == m.spent.Keys;
    assert r.located == m.located && r.spent == m.spent;
  }

  // ---------------------------------------------------------------- the summary finds the unspent outputs

  /** An output is live: it was created above genesis and nothing spends it. */
  predicate Live(m: Summary, p: Point) {
    && p.hash in m.located && m.located[p.hash].height >= 1
    && p.index < m.located[p.hash].outputs
    && p !in m.spent
  }

  ghost predicate Lives(u: set<Point>, m: Summary) {
    forall p :: p in u <==> Live(m, p)
  }

  /** Every recorded spend is of an output that was created below or in the block that spends it. */
  ghost predicate SpentExist(m: Summary, top: nat) {
    && (forall h :: h in m.located ==> m.located[h].height <= top)
    && (forall p :: p in m.spent ==>
         && p.hash in m.located && p.index < m.located[p.hash].outputs
         && 1 <= m.located[p.hash].height <= m.spent[p] <= top)
  }

  lemma LivesStep(u: set<Point>, m: Summary, tx: Tx, height: nat, position: nat, time: nat)
    requires Lives(u, m) && SpentExist(m, height) && height >= 1
    requires tx.hash !in m.located && Spends(tx) <= u
    ensures Lives(u - Spends(tx) + Creates(tx), AddTx(m, tx, height, position, time))
    ensures SpentExist(AddTx(m, tx, height, position, time), height)
  {
    var v, r := u - Spends(tx) + Creates(tx), AddTx(m, tx, height, position, time);
    forall p ensures p in v <==> Live(r, p) {
      if p.hash == tx.hash {
        assert p in Creates(tx) <==> p == Point(tx.hash, p.index) && p.index < tx.outputs;
      }
    }
  }

  lemma {:induction false} LivesAfter(u: set<Point>, m: Summary, txs: seq<Tx>, height: nat, time: nat)
    requires Lives(u, m) && SpentExist(m, height) && height >= 1
    requires DistinctHashes(txs) && Hashes(txs) !! m.located.Keys && SpendsUnspent(u, txs)
    ensures Lives(UtxoAfter(u, txs), AddTxs(m, txs, height, time))
    ensures SpentExist(AddTxs(m, txs, height, time), height)
    ensures AllSpends(txs) !! m.spent.Keys
    decreases |txs|
  {
    if txs != [] {
      var n := |txs| - 1;
      HashesSnoc(txs);
      LivesAfter(u, m, txs[..n], height, time);
      AddTxsEffect(m, txs[..n], height, time);
      LastHashIsNew(txs);
      var v, r := UtxoAfter(u, txs[..n]), AddTxs(m, txs[..n], height, time);
      LivesStep(v, r, txs[n], height, n, time);
      forall p | p in Spends(txs[n]) ensures p !in m.spent {
        assert Live(r, p);
      }
    }
  }

  lemma LastHashIsNew(txs: seq<Tx>)
    requires txs != [] && DistinctHashes(txs)
    ensures DistinctHashes(txs[..|txs| - 1]) && txs[|txs| - 1].hash !in Hashes(txs[..|txs| - 1])
  {
  }

  lemma ChainHashesSnoc(chain: seq<Block>)
    requires chain != []
    ensures ChainHashes(chain) == ChainHashes(chain[..|chain| - 1]) + Hashes(chain[|chain| - 1].txs)
  {
    var n := |chain| - 1;
    assert forall block :: block in chain <==> block in chain[..n] || block == chain[n];
  }

  lemma {:induction false} LocatedAreChainHashes(chain: seq<Block>)
    ensures Summarize(chain).located.Keys == ChainHashes(chain)
    decreases |chain|
  {
    if chain != [] {
      var n := |chain| - 1;
      LocatedAreChainHashes(chain[..n]);
      ChainHashesSnoc(chain);
      AddTxsEffect(Summarize(chain[..n]), chain[n].txs, n, chain[n].time);
    }
  }

  /** The unspent outputs folded over the blocks are the live outputs of the summary. */
  lemma {:induction false} UtxoIsLive(chain: seq<Block>)
    requires ValidChain(chain)
    ensures Lives(Utxo(chain), Summarize(chain))
    ensures SpentExist(Summarize(chain), if chain == [] then 0 else |chain| - 1)
    decreases |chain|
  {
    hide AddTxs;
    hide AllSpends;
    if chain != [] {
      var n := |chain| - 1;
      var front := chain[..n];
      UtxoIsLive(front);
      LocatedAreChainHashes(front);
      AddTxsEffect(Summarize(front), chain[n].txs, n, chain[n].time);
      if n >= 1 {
        LivesAfter(Utxo(front), Summarize(front), chain[n].txs, n, chain[n].time);
      } else {
        GenesisSpendsNothing(chain[n].txs);
      }
    }
  }

  lemma GenesisSpendsNothing(txs: seq<Tx>)
    requires |txs| == 1 && Spends(txs[0]) == {}
    ensures AllSpends(txs) == {}
  {
  }

  /** The transactions and the spends of the next block are new to the summary. */
  lemma NextIsNew(chain: seq<Block>, block: Block)
    requires ValidChain(chain) && ValidNext(chain, block)
    ensures Hashes(block.txs) !! Summarize(chain).located.Keys
    ensures AllSpends(block.txs) !! Summarize(chain).spent.Keys
  {
    UtxoIsLive(chain);
    LocatedAreChainHashes(chain);
    if chain != [] {
      LivesAfter(Utxo(chain), Summarize(chain), block.txs, |chain|, block.time);
    } else {
      GenesisSpendsNothing(block.txs);
    }
  }

  lemma NextIsDistinct(chain: seq<Block>, block: Block)
    requires ValidNext(chain, block)
    ensures DistinctHashes(block.txs)
  {
  }

  // ---------------------------------------------------------------- prefixes

  /** m restricted to what happened at or below a height. */
  ghost predicate RestrictedTo(m: Summary, r: Summary, height: nat) {
    && (forall h :: h in r.located <==> h in m.located && m.located[h].height <= height)
    && (forall h :: h in r.located ==> r.located[h] == m.located[h])
    && (forall p :: p in r.spent <==> p in m.spent && m.spent[p] <= height)
    && (forall p :: p in r.spent ==> r.spent[p] == m.spent[p])
  }

  /** The summary of any prefix can be read off the summary of the whole chain. */
  lemma {:induction false} SummaryOfPrefix(chain: seq<Block>, f: nat)
    requires ValidChain(chain) && f < |chain|
    ensures RestrictedTo(Summarize(chain), Summarize(chain[..f + 1]), f)
    decreases |chain|
  {
    hide ValidNext;
    hide AddTxs;
    hide AllSpends;
    hide Hashes;
    hide Utxo;
    var n := |chain| - 1;
    UtxoIsLive(chain);
    if f == n {
      assert chain[..f + 1] == chain;
    } else {
      var front := chain[..n];
      SummaryOfPrefix(front, f);
      assert front[..f + 1] == chain[..f + 1];
      NextIsNew(front, chain[n]);
      AddTxsEffect(Summarize(front), chain[n].txs, n, chain[n].time);
      UtxoIsLive(front);
    }
  }

  // ---------------------------------------------------------------- meaning

  /** The block and position of a transaction. */
  ghost predicate SitsAt(chain: seq<Block>, h: Hash, height: nat, position: nat) {
    height < |chain| && position < |chain[height].txs| && chain[height].txs[position].hash == h
  }

  ghost predicate SpentBy(chain: seq<Block>, p: Point, height: nat) {
    height < |chain| && p in AllSpends(chain[height].txs)
  }

  lemma {:induction false} AddTxsLocates(m: Summary, txs: seq<Tx>, height: nat, time: nat, position: nat)
    requires DistinctHashes(txs) && position < |txs|
    ensures var r := AddTxs(m, txs, height, time);
            txs[position].hash in r.located &&
            r.located[txs[position].hash] == Location(height, position, time, txs[position].outputs)
    decreases |txs|
  {
    if position < |txs| - 1 {
      AddTxsLocates(m, txs[..|txs| - 1], height, time, position);
    }
  }

  /** A transaction is located where it sits in the chain, and only there. */
  lemma {:induction false} LocatedWhereItSits(chain: seq<Block>, h: Hash, height: nat, position: nat)
    requires ValidChain(chain)
    ensures SitsAt(chain, h, height, position) <==>
            var m := Summarize(chain);
            h in m.located && m.located[h].height == height && m.located[h].position == position
    ensures SitsAt(chain, h, height, position) ==>
            Summarize(chain).located[h] ==
            Location(height, position, chain[height].time, chain[height].txs[position].outputs)
    decreases |chain|
  {
    hide ValidNext;
    hide AddTxs;
    hide AllSpends;
    hide Utxo;
    if chain != [] {
      var n := |chain| - 1;
      var front, txs := chain[..n], chain[n].txs;
      LocatedWhereItSits(front, h, height, position);
      NextIsNew(front, chain[n]);
      UtxoIsLive(front);
      AddTxsEffect(Summarize(front), txs, n, chain[n].time);
      if h in Hashes(txs) {
        var k :| 0 <= k < |txs| && txs[k].hash == h;
        NextIsDistinct(front, chain[n]);
        AddTxsLocates(Summarize(front), txs, n, chain[n].time, k);
      } else if height == n && position < |txs| {
        assert txs[position] in txs;
      }
    }
  }

  /** An output's recorded spender is the one block that spends it. */
  lemma {:induction false} SpentWhereItIsSpent(chain: seq<Block>, p: Point, height: nat)
    requires ValidChain(chain)
    ensures SpentBy(chain, p, height) <==>
            var m := Summarize(chain); p in m.spent && m.spent[p] == height
    decreases |chain|
  {
    hide ValidNext;
    hide AddTxs;
    hide AllSpends;
    hide Hashes;
    hide Utxo;
    if chain != [] {
      var n := |chain| - 1;
      var front, txs := chain[..n], chain[n].txs;
      SpentWhereItIsSpent(front, p, height);
      NextIsNew(front, chain[n]);
      UtxoIsLive(front);
      AddTxsEffect(Summarize(front), txs, n, chain[n].time);
    }
  }
}
