/** The transaction table agrees with the summary of the confirmed chain, and stays so. */
module Agreement {
  import opened Types
  import opened Record
  import opened TransactionTable
  import opened Ledger

  /** The table holds this transaction. */
  ghost predicate Stored(t: Table, tx: Tx) {
    tx.hash in t && t[tx.hash].Points() == tx.inputs && |t[tx.hash].outputs| == tx.outputs
  }

  function SpenderOf(m: Summary, p: Point): nat {
    if p in m.spent then m.spent[p] else NOT_SPENT
  }

  /** A row says where its transaction sits, or that it sits nowhere, and who spends each output. */
  ghost predicate RowAgrees(h: Hash, row: Row, m: Summary) {
    && (if h in m.located
        then
          && row.HasPosition() && row.height <= MAX_HEIGHT
          && m.located[h] == Location(row.height, row.position, row.time, |row.outputs|)
        else !row.HasPosition() && (row.position == DECONFIRMED ==> row.height == UNVERIFIED))
    && forall i :: 0 <= i < |row.outputs| ==> row.outputs[i].spender == SpenderOf(m, Point(h, i))
  }

  /** The output exists and its transaction has been confirmed at some time. */
  ghost predicate WasConfirmed(t: Table, p: Point) {
    p.hash in t && p.index < |t[p.hash].outputs| && t[p.hash].position != UNCONFIRMED
  }

  ghost predicate Agrees(t: Table, m: Summary) {
    && m.located.Keys <= t.Keys
    && (forall h :: h in t ==> RowAgrees(h, t[h], m))
    && (forall p :: p in m.spent ==> WasConfirmed(t, p))
  }

  /** Confirming and deconfirming change neither the stored transactions nor the candidate spends. */
  ghost predicate Unmoved(t: Table, u: Table) {
    && t.Keys == u.Keys
    && forall h :: h in t ==> RowUnmoved(t[h], u[h])
  }

  ghost predicate RowUnmoved(a: Row, b: Row) {
    && SameTransaction(a, b)
    && forall i :: 0 <= i < |a.outputs| ==> a.outputs[i].candidateSpent == b.outputs[i].candidateSpent
  }

  /** These transactions are deconfirmed, without time and candidate flag; the others keep their metadata. */
  ghost predicate Deconfirmed(t: Table, u: Table, moved: set<Hash>) {
    && t.Keys == u.Keys
    && forall h :: h in t ==>
         if h in moved
         then u[h].position == DECONFIRMED && u[h].height == UNVERIFIED && u[h].time == NO_TIME && !u[h].candidate
         else u[h] == t[h].(outputs := u[h].outputs)
  }

  lemma StoredUnmoved(t: Table, u: Table, tx: Tx)
    requires Unmoved(t, u) && Stored(t, tx)
    ensures Stored(u, tx)
  {
    assert RowUnmoved(t[tx.hash], u[tx.hash]);
    assert t[tx.hash].Points() == u[tx.hash].Points();
  }

  // ---------------------------------------------------------------- spending

  /** The test a confirmed spend makes of its previous output. */
  ghost predicate CanSpend(t: Table, p: Point, height: nat) {
    && p.hash in t && p.index < |t[p.hash].outputs|
    && t[p.hash].position != UNCONFIRMED && t[p.hash].height <= height
  }

  function RealPoints(ps: seq<Point>): set<Point> {
    set p | p in ps && !p.IsNull()
  }

  /** u is t with the spender of each of these outputs set. */
  ghost predicate SpentAs(t: Table, u: Table, ps: set<Point>, spender: nat) {
    && t.Keys == u.Keys
    && forall h :: h in t ==> RowSpentAs(h, t[h], u[h], ps, spender)
  }

  ghost predicate RowSpentAs(h: Hash, a: Row, b: Row, ps: set<Point>, spender: nat) {
    && b == a.(outputs := b.outputs)
    && |b.outputs| == |a.outputs|
    && forall i :: 0 <= i < |a.outputs| ==>
         b.outputs[i] == if Point(h, i) in ps then a.outputs[i].(spender := spender) else a.outputs[i]
  }

  function SpenderField(height: nat): nat {
    if height == UNVERIFIED then NOT_SPENT else height
  }

  /** Spending a list of points succeeds exactly when each real one can be spent, and sets just those. */
  lemma {:induction false} SpendingEffect(t: Table, ps: seq<Point>, height: nat)
    requires height <= MAX_UINT32
    ensures var o := Each(t, ps, ConfirmedSpending(height));
            && (o.ok <==> forall p :: p in RealPoints(ps) ==> CanSpend(t, p, height))
            && (o.ok ==> SpentAs(t, o.table, RealPoints(ps), SpenderField(height)))
    decreases |ps|
  {
    if ps != [] {
      var n := |ps| - 1;
      var p := ps[n];
      SpendingEffect(t, ps[..n], height);
      assert ps == ps[..n] + [p];
      assert RealPoints(ps) == RealPoints(ps[..n]) + RealPoints([p]);
      assert p.IsNull() ==> RealPoints([p]) == {};
      assert !p.IsNull() ==> RealPoints([p]) == {p};
      var front := Each(t, ps[..n], ConfirmedSpending(height));
      if front.ok {
        var u := front.table;
        assert p.hash in t ==> RowSpentAs(p.hash, t[p.hash], u[p.hash], RealPoints(ps[..n]), SpenderField(height));
        assert CanSpend(t, p, height) <==> CanSpend(u, p, height);
        if p.IsNull() || CanSpend(u, p, height) {
          SpendOne(t, u, RealPoints(ps[..n]), p, height);
        }
      }
    }
  }

  lemma SpendOne(t: Table, u: Table, ps: set<Point>, p: Point, height: nat)
    requires SpentAs(t, u, ps, SpenderField(height)) && height <= MAX_UINT32
    requires p.IsNull() || CanSpend(u, p, height)
    ensures var o := ConfirmedSpend(u, p, height);
            o.ok && SpentAs(t, o.table, ps + RealPoints([p]), SpenderField(height))
  {
    var v := ConfirmedSpend(u, p, height).table;
    forall h | h in t ensures RowSpentAs(h, t[h], v[h], ps + RealPoints([p]), SpenderField(height)) {
      assert RowSpentAs(h, t[h], u[h], ps, SpenderField(height));
    }
  }

  // ---------------------------------------------------------------- confirm

  /** One row after a confirmation. */
  lemma ConfirmizeRow(h: Hash, a: Row, b: Row, m: Summary, tx: Tx, height: nat, time: nat, position: nat)
    requires RowAgrees(h, a, m) && RowSpentAs(h, a, b, Spends(tx), height)
    requires h == tx.hash ==> tx.hash !in m.located && |a.outputs| == tx.outputs
    requires height <= MAX_HEIGHT && position < MAX_BLOCK_TXS
    ensures var c := if h == tx.hash
                     then b.(height := height, position := position, candidate := false, time := time) else b;
            RowAgrees(h, c, AddTx(m, tx, height, position, time)) && RowUnmoved(a, c)
  {
    var r := AddTx(m, tx, height, position, time);
    forall i | 0 <= i < |b.outputs| ensures b.outputs[i].spender == SpenderOf(r, Point(h, i)) {
      assert a.outputs[i].spender == SpenderOf(m, Point(h, i));
    }
  }

  /** Setting the metadata after the spends gives the summary with the transaction added. */
  lemma ConfirmizeAgrees(t: Table, u: Table, m: Summary, tx: Tx, height: nat, time: nat, position: nat)
    requires Agrees(t, m) && Stored(t, tx) && tx.hash !in m.located
    requires SpentAs(t, u, Spends(tx), height)
    requires height <= MAX_HEIGHT && position < MAX_BLOCK_TXS
    requires forall p :: p in Spends(tx) ==> WasConfirmed(t, p)
    ensures Agrees(Confirmize(u, tx.hash, height, time, position).table, AddTx(m, tx, height, position, time))
    ensures Unmoved(t, Confirmize(u, tx.hash, height, time, position).table)
  {
    hide RowAgrees;
    hide RowSpentAs;
    hide RowUnmoved;
    var v, r := Confirmize(u, tx.hash, height, time, position).table, AddTx(m, tx, height, position, time);
    forall h | h in t ensures RowAgrees(h, v[h], r) && RowUnmoved(t[h], v[h]) {
      ConfirmizeRow(h, t[h], u[h], m, tx, height, time, position);
    }
    forall p | p in r.spent ensures WasConfirmed(v, p) {
      assert WasConfirmed(t, p);
      ConfirmedStays(t, u, tx, height, p);
    }
  }

  lemma ConfirmedStays(t: Table, u: Table, tx: Tx, spender: nat, p: Point)
    requires SpentAs(t, u, Spends(tx), spender) && WasConfirmed(t, p)
    ensures p.hash in u && p.index < |u[p.hash].outputs| && u[p.hash].position == t[p.hash].position
  {
    assert RowSpentAs(p.hash, t[p.hash], u[p.hash], Spends(tx), spender);
  }

  /** Confirming a valid transaction succeeds and adds it to the summary. */
  lemma ConfirmAgrees(t: Table, m: Summary, tx: Tx, height: nat, time: nat, position: nat)
    requires Agrees(t, m) && Stored(t, tx) && tx.hash !in m.located
    requires height <= MAX_HEIGHT && position < MAX_BLOCK_TXS
    requires forall p :: p in Spends(tx) ==> Live(m, p) && m.located[p.hash].height <= height
    requires position == 0 ==> Spends(tx) == {}
    ensures var o := Confirm(t, tx.hash, height, time, position);
            o.ok && Agrees(o.table, AddTx(m, tx, height, position, time)) && Unmoved(t, o.table)
  {
    assert RealPoints(tx.inputs) == Spends(tx);
    forall p | p in Spends(tx) ensures CanSpend(t, p, height) && WasConfirmed(t, p) {
      assert Live(m, p) && RowAgrees(p.hash, t[p.hash], m);
    }
    SpendingEffect(t, tx.inputs, height);
    var u := if position == 0 then t else Each(t, tx.inputs, ConfirmedSpending(height)).table;
    assert SpentAs(t, u, Spends(tx), height);
    ConfirmizeAgrees(t, u, m, tx, height, time, position);
  }

  function Links(txs: seq<Tx>): (links: seq<Hash>)
    ensures |links| == |txs|
    ensures forall i :: 0 <= i < |txs| ==> links[i] == txs[i].hash
  {
    seq(|txs|, i requires 0 <= i < |txs| => txs[i].hash)
  }

  ghost predicate AllStored(t: Table, txs: seq<Tx>) {
    forall tx :: tx in txs ==> Stored(t, tx)
  }

  lemma AllStoredUnmoved(t: Table, u: Table, txs: seq<Tx>)
    requires Unmoved(t, u) && AllStored(t, txs)
    ensures AllStored(u, txs)
  {
    forall tx | tx in txs ensures Stored(u, tx) {
      StoredUnmoved(t, u, tx);
    }
  }

  lemma UnmovedTransitive(t: Table, u: Table, v: Table)
    requires Unmoved(t, u) && Unmoved(u, v)
    ensures Unmoved(t, v)
  {
    forall h | h in t ensures RowUnmoved(t[h], v[h]) {
      assert RowUnmoved(t[h], u[h]) && RowUnmoved(u[h], v[h]);
    }
  }

  lemma {:induction false} ConfirmTxsAgrees(t: Table, utxo: set<Point>, m: Summary, txs: seq<Tx>,
                                            height: nat, time: nat)
    requires Agrees(t, m) && Lives(utxo, m) && SpentExist(m, height)
    requires AllStored(t, txs) && DistinctHashes(txs) && Hashes(txs) !! m.located.Keys
    requires SpendsUnspent(utxo, txs) && (txs != [] ==> Spends(txs[0]) == {})
    requires height <= MAX_HEIGHT && |txs| <= MAX_BLOCK_TXS && (height == 0 ==> |txs| <= 1)
    ensures var o := ConfirmBlock(t, Links(txs), height, time);
            o.ok && Agrees(o.table, AddTxs(m, txs, height, time)) && Unmoved(t, o.table)
    decreases |txs|
  {
    hide Agrees;
    hide Unmoved;
    hide AddTx;
    hide Live;
    hide Confirm;
    if txs == [] {
      UnmovedReflexive(t);
    } else {
      var n := |txs| - 1;
      var front, tx := txs[..n], txs[n];
      LastIsReady(utxo, m, txs, height, time);
      assert Links(txs)[..n] == Links(front);
      ConfirmTxsAgrees(t, utxo, m, front, height, time);
      var u := ConfirmBlock(t, Links(front), height, time).table;
      AllStoredUnmoved(t, u, txs);
      ConfirmAgrees(u, AddTxs(m, front, height, time), tx, height, time, n);
      UnmovedTransitive(t, u, Confirm(u, tx.hash, height, time, n).table);
    }
  }

  /** When a valid list of transactions is confirmed up to the last, the last is new and spends live outputs. */
  lemma LastIsReady(utxo: set<Point>, m: Summary, txs: seq<Tx>, height: nat, time: nat)
    requires txs != [] && Lives(utxo, m) && SpentExist(m, height)
    requires DistinctHashes(txs) && Hashes(txs) !! m.located.Keys
    requires SpendsUnspent(utxo, txs) && Spends(txs[0]) == {} && (height == 0 ==> |txs| <= 1)
    ensures var n := |txs| - 1;
            var r := AddTxs(m, txs[..n], height, time);
            && DistinctHashes(txs[..n]) && Hashes(txs[..n]) !! m.located.Keys && SpendsUnspent(utxo, txs[..n])
            && txs[n].hash !in r.located
            && (forall p :: p in Spends(txs[n]) ==> Live(r, p) && r.located[p.hash].height <= height)
            && (n == 0 ==> Spends(txs[n]) == {})
  {
    hide Live;
    var n := |txs| - 1;
    var front := txs[..n];
    HashesSnoc(txs);
    LastHashIsNew(txs);
    AddTxsEffect(m, front, height, time);
    if height >= 1 {
      LivesAfter(utxo, m, front, height, time);
      LiveBelow(UtxoAfter(utxo, front), AddTxs(m, front, height, time), Spends(txs[n]), height);
    } else {
      assert front == [];
    }
  }

  lemma LiveBelow(utxo: set<Point>, m: Summary, spends: set<Point>, height: nat)
    requires Lives(utxo, m) && SpentExist(m, height) && spends <= utxo
    ensures forall p :: p in spends ==> Live(m, p) && m.located[p.hash].height <= height
  {
  }

  lemma UnmovedReflexive(t: Table)
    ensures Unmoved(t, t)
  {
  }

  /** Confirming a valid next block succeeds, and the table then agrees with the longer chain. */
  lemma ConfirmBlockAgrees(t: Table, chain: seq<Block>, block: Block)
    requires ValidChain(chain) && ValidNext(chain, block)
    requires Agrees(t, Summarize(chain)) && AllStored(t, block.txs)
    ensures var o := ConfirmBlock(t, Links(block.txs), |chain|, block.time);
            o.ok && Agrees(o.table, Summarize(chain + [block])) && Unmoved(t, o.table)
  {
    hide Agrees;
    hide Unmoved;
    UtxoIsLive(chain);
    LocatedAreChainHashes(chain);
    SummarizeAppend(chain, block);
    SpentExistHigher(Summarize(chain), if chain == [] then 0 else |chain| - 1, |chain|);
    ConfirmTxsAgrees(t, Utxo(chain), Summarize(chain), block.txs, |chain|, block.time);
  }

  lemma SpentExistHigher(m: Summary, low: nat, high: nat)
    requires SpentExist(m, low) && low <= high
    ensures SpentExist(m, high)
  {
  }

  // ---------------------------------------------------------------- unconfirm

  function WithoutTx(m: Summary, tx: Tx): Summary {
    Summary(m.located - {tx.hash}, m.spent - Spends(tx))
  }

  /** Deconfirming a transaction succeeds and removes it and its spends from the summary. */
  lemma UnconfirmAgrees(t: Table, m: Summary, tx: Tx)
    requires Agrees(t, m) && Stored(t, tx)
    requires forall p :: p in Spends(tx) ==> WasConfirmed(t, p)
    ensures var o := Confirm(t, tx.hash, UNVERIFIED, NO_TIME, DECONFIRMED);
            && o.ok && Agrees(o.table, WithoutTx(m, tx)) && Unmoved(t, o.table)
            && (forall p :: WasConfirmed(t, p) ==> WasConfirmed(o.table, p))
            && Deconfirmed(t, o.table, {tx.hash})
  {
    assert RealPoints(tx.inputs) == Spends(tx);
    forall p | p in Spends(tx) ensures CanSpend(t, p, UNVERIFIED) {
      assert WasConfirmed(t, p) && RowAgrees(p.hash, t[p.hash], m);
    }
    SpendingEffect(t, tx.inputs, UNVERIFIED);
    var u := Each(t, tx.inputs, ConfirmedSpending(UNVERIFIED)).table;
    assert SpentAs(t, u, Spends(tx), NOT_SPENT);
    DeconfirmizeAgrees(t, u, m, tx);
  }

  lemma DeconfirmizeAgrees(t: Table, u: Table, m: Summary, tx: Tx)
    requires Agrees(t, m) && Stored(t, tx) && SpentAs(t, u, Spends(tx), NOT_SPENT)
    ensures var v := Confirmize(u, tx.hash, UNVERIFIED, NO_TIME, DECONFIRMED).table;
            && Agrees(v, WithoutTx(m, tx)) && Unmoved(t, v)
            && (forall p :: WasConfirmed(t, p) ==> WasConfirmed(v, p))
            && Deconfirmed(t, v, {tx.hash})
  {
    hide RowAgrees;
    hide RowSpentAs;
    hide RowUnmoved;
    var v, r := Confirmize(u, tx.hash, UNVERIFIED, NO_TIME, DECONFIRMED).table, WithoutTx(m, tx);
    forall h | h in t
      ensures RowAgrees(h, v[h], r) && RowUnmoved(t[h], v[h])
      ensures h != tx.hash ==> v[h] == t[h].(outputs := v[h].outputs)
    {
      DeconfirmizeRow(h, t[h], u[h], m, tx);
    }
    forall p | WasConfirmed(t, p) ensures WasConfirmed(v, p) {
      ConfirmedStays(t, u, tx, NOT_SPENT, p);
    }
    forall p | p in r.spent ensures WasConfirmed(v, p) {
      assert WasConfirmed(t, p);
    }
  }

  /** One row after a deconfirmation. */
  lemma DeconfirmizeRow(h: Hash, a: Row, b: Row, m: Summary, tx: Tx)
    requires RowAgrees(h, a, m) && RowSpentAs(h, a, b, Spends(tx), NOT_SPENT)
    ensures var c := if h == tx.hash
                     then b.(height := UNVERIFIED, position := DECONFIRMED, candidate := false, time := NO_TIME) else b;
            RowAgrees(h, c, WithoutTx(m, tx)) && RowUnmoved(a, c)
    ensures b == a.(outputs := b.outputs)
  {
    var r := WithoutTx(m, tx);
    forall i | 0 <= i < |b.outputs| ensures b.outputs[i].spender == SpenderOf(r, Point(h, i)) {
      assert a.outputs[i].spender == SpenderOf(m, Point(h, i));
    }
  }

  lemma DeconfirmedNothing(t: Table)
    ensures Deconfirmed(t, t, {}) && Hashes([]) == {}
  {
  }

  lemma DeconfirmedTransitive(t: Table, u: Table, v: Table, a: set<Hash>, b: set<Hash>)
    requires Deconfirmed(t, u, a) && Deconfirmed(u, v, b)
    ensures Deconfirmed(t, v, a + b)
  {
  }

  /** Deconfirming runs in forward order, so an output may be unspent after its own transaction was
      deconfirmed; that never fails. */
  lemma WithoutNothing(m: Summary)
    ensures Without(m, []) == m && Hashes([]) == {}
  {
  }

  lemma WithoutSnoc(m: Summary, txs: seq<Tx>)
    requires txs != []
    ensures WithoutTx(Without(m, txs[..|txs| - 1]), txs[|txs| - 1]) == Without(m, txs)
  {
  }

  lemma {:induction false} UnconfirmTxsAgrees(t: Table, m: Summary, txs: seq<Tx>)
    requires Agrees(t, m) && AllStored(t, txs)
    requires forall p :: p in AllSpends(txs) ==> WasConfirmed(t, p)
    ensures var o := UnconfirmBlock(t, Links(txs));
            && o.ok && Agrees(o.table, Without(m, txs)) && Unmoved(t, o.table)
            && (forall p :: WasConfirmed(t, p) ==> WasConfirmed(o.table, p))
            && Deconfirmed(t, o.table, Hashes(txs))
    decreases |txs|
  {
    hide Agrees;
    hide Unmoved;
    hide WasConfirmed;
    hide Confirm;
    hide Deconfirmed;
    hide Without;
    hide WithoutTx;
    hide Hashes;
    if txs == [] {
      UnmovedReflexive(t);
      DeconfirmedNothing(t);
      WithoutNothing(m);
    } else {
      var n := |txs| - 1;
      var front, tx := txs[..n], txs[n];
      HashesSnoc(txs);
      assert Links(txs)[..n] == Links(front);
      UnconfirmTxsAgrees(t, m, front);
      var u := UnconfirmBlock(t, Links(front)).table;
      AllStoredUnmoved(t, u, txs);
      UnconfirmAgrees(u, Without(m, front), tx);
      WithoutSnoc(m, txs);
      var v := Confirm(u, tx.hash, UNVERIFIED, NO_TIME, DECONFIRMED).table;
      UnmovedTransitive(t, u, v);
      DeconfirmedTransitive(t, u, v, Hashes(front), {tx.hash});
    }
  }

  /** Deconfirming the top block always succeeds, and the table then agrees with the shorter chain. */
  lemma UnconfirmBlockAgrees(t: Table, chain: seq<Block>, block: Block)
    requires ValidChain(chain) && ValidNext(chain, block)
    requires Agrees(t, Summarize(chain + [block])) && AllStored(t, block.txs)
    ensures var o := UnconfirmBlock(t, Links(block.txs));
            && o.ok && Agrees(o.table, Summarize(chain)) && Unmoved(t, o.table)
            && Deconfirmed(t, o.table, Hashes(block.txs))
  {
    var m := Summarize(chain);
    SummarizeAppend(chain, block);
    NextIsNew(chain, block);
    AddTxsEffect(m, block.txs, |chain|, block.time);
    AddThenRemove(m, block.txs, |chain|, block.time);
    UnconfirmTxsAgrees(t, Summarize(chain + [block]), block.txs);
  }
}
