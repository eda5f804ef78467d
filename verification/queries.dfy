/** What the queries and the confirmation of a block mean in terms of the chain. */
module Queries {
  import opened Types
  import opened Record
  import opened TransactionTable
  import opened Ledger
  import opened Agreement

  /** The blocks at or below a height. */
  function UpTo(chain: seq<Block>, height: nat): seq<Block> {
    if height + 1 <= |chain| then chain[..height + 1] else chain
  }

  /** The query finds the output confirmed and not spent as of the fork. */
  predicate FoundUnspent(o: Option<Prevout>) {
    o.Some? && o.value.confirmed && !o.value.confirmedSpent
  }

  ghost predicate AllWellFormed(t: Table) {
    forall h :: h in t ==> WellFormed(t[h])
  }

  lemma SummaryUpTo(chain: seq<Block>, f: nat)
    requires ValidChain(chain)
    ensures ValidChain(UpTo(chain, f))
    ensures RestrictedTo(Summarize(chain), Summarize(UpTo(chain, f)), f)
  {
    UtxoIsLive(chain);
    if f + 1 <= |chain| {
      ValidPrefix(chain, f + 1);
      SummaryOfPrefix(chain, f);
    }
  }

  lemma SpentBelowSentinel(chain: seq<Block>, p: Point)
    requires ValidChain(chain) && p in Summarize(chain).spent
    ensures Summarize(chain).spent[p] < NOT_SPENT
  {
    UtxoIsLive(chain);
  }

  /** What the flags of a row's output say about the summary of the chain. */
  lemma FlagsSayLive(row: Row, p: Point, m: Summary, f: nat)
    requires RowAgrees(p.hash, row, m) && p.index < |row.outputs|
    requires p in m.spent ==> m.spent[p] < NOT_SPENT
    ensures row.HasPosition() && row.height <= f <==> p.hash in m.located && m.located[p.hash].height <= f
    ensures p.hash in m.located ==> m.located[p.hash].height == row.height && p.index < m.located[p.hash].outputs
    ensures var spender := row.outputs[p.index].spender;
            spender != NOT_SPENT && spender <= f <==> p in m.spent && m.spent[p] <= f
  {
    assert p == Point(p.hash, p.index);
    assert row.outputs[p.index].spender == SpenderOf(m, Point(p.hash, p.index));
  }

  /** For every fork height, a previous-output query finds exactly the unspent outputs of the blocks up to it. */
  lemma GetOutputFindsUtxo(t: Table, chain: seq<Block>, p: Point, f: nat)
    requires ValidChain(chain) && Agrees(t, Summarize(chain)) && AllWellFormed(t)
    ensures FoundUnspent(GetOutput(t, p, f)) <==> p in Utxo(UpTo(chain, f))
  {
    hide ValidChain;
    hide Summarize;
    hide Utxo;
    hide UpTo;
    hide RowAgrees;
    var m, r := Summarize(chain), Summarize(UpTo(chain, f));
    SummaryUpTo(chain, f);
    UtxoIsLive(UpTo(chain, f));
    assert p in Utxo(UpTo(chain, f)) <==> Live(r, p);
    if p in m.spent {
      SpentBelowSentinel(chain, p);
    }
    if p.hash in t {
      assert RowAgrees(p.hash, t[p.hash], m) && WellFormed(t[p.hash]);
      LocatedOutputs(t[p.hash], p, m);
      if p.index < |t[p.hash].outputs| {
        FlagsSayLive(t[p.hash], p, m, f);
      }
    }
  }

  lemma LocatedOutputs(row: Row, p: Point, m: Summary)
    requires RowAgrees(p.hash, row, m)
    ensures p.hash in m.located ==> m.located[p.hash].outputs == |row.outputs|
  {
  }

  /** The two flags a query sets, when it finds the output. */
  function Flags(o: Option<Prevout>): Option<(bool, bool)> {
    if o.None? then None else Some((o.value.confirmed, o.value.confirmedSpent))
  }

  /** u is t with the blocks above f deconfirmed. */
  ghost predicate PoppedTo(t: Table, u: Table, chain: seq<Block>, f: nat) {
    && f < |chain|
    && Agrees(u, Summarize(UpTo(chain, f)))
    && Unmoved(t, u)
    && Deconfirmed(t, u, ChainHashes(chain[f + 1..]))
  }

  /** A query relative to a fork reads the flags that popping down to the fork would leave. */
  lemma ForkQueryIsPoppedQuery(t: Table, u: Table, chain: seq<Block>, p: Point, f: nat)
    requires ValidChain(chain) && Agrees(t, Summarize(chain))
    requires PoppedTo(t, u, chain, f)
    ensures Flags(GetOutput(t, p, f)) == Flags(GetOutput(u, p, f))
  {
    hide ValidChain;
    hide Summarize;
    hide Agrees;
    hide UpTo;
    if p.hash in t {
      ForkLocation(t, u, chain, p.hash, f);
      if p.index < |t[p.hash].outputs| {
        ForkSpend(t, u, chain, p, f);
      }
    }
  }

  lemma ForkLocation(t: Table, u: Table, chain: seq<Block>, h: Hash, f: nat)
    requires ValidChain(chain) && Agrees(t, Summarize(chain))
    requires PoppedTo(t, u, chain, f) && h in t
    ensures |t[h].outputs| == |u[h].outputs|
    ensures t[h].height == 0 <==> u[h].height == 0
    ensures t[h].HasPosition() && t[h].height <= f <==> u[h].HasPosition() && u[h].height <= f
  {
    var m, r := Summarize(chain), Summarize(UpTo(chain, f));
    SummaryUpTo(chain, f);
    assert RowAgrees(h, t[h], m) && RowAgrees(h, u[h], r) && RowUnmoved(t[h], u[h]);
    if h in m.located && h !in r.located {
      assert m.located[h].height > f;
      LocatedIsPopped(t, u, chain, h, f);
    } else if h !in m.located {
      UnlocatedIsKept(t, u, chain, f, h);
    }
  }

  lemma ForkSpend(t: Table, u: Table, chain: seq<Block>, p: Point, f: nat)
    requires ValidChain(chain) && Agrees(t, Summarize(chain))
    requires PoppedTo(t, u, chain, f) && p.hash in t && p.index < |t[p.hash].outputs|
    ensures p.index < |u[p.hash].outputs|
    ensures var a, b := t[p.hash].outputs[p.index].spender, u[p.hash].outputs[p.index].spender;
            (a != NOT_SPENT && a <= f) == (b != NOT_SPENT && b <= f)
  {
    var m, r := Summarize(chain), Summarize(UpTo(chain, f));
    SummaryUpTo(chain, f);
    assert RowUnmoved(t[p.hash], u[p.hash]);
    assert RowAgrees(p.hash, t[p.hash], m) && RowAgrees(p.hash, u[p.hash], r);
    assert p == Point(p.hash, p.index);
    assert t[p.hash].outputs[p.index].spender == SpenderOf(m, p);
    assert u[p.hash].outputs[p.index].spender == SpenderOf(r, p);
  }

  lemma UnlocatedIsKept(t: Table, u: Table, chain: seq<Block>, f: nat, h: Hash)
    requires PoppedTo(t, u, chain, f) && h in t && h !in Summarize(chain).located
    ensures u[h] == t[h].(outputs := u[h].outputs)
  {
    LocatedAreChainHashes(chain);
    assert forall block :: block in chain[f + 1..] ==> block in chain;
  }

  lemma LocatedIsPopped(t: Table, u: Table, chain: seq<Block>, h: Hash, f: nat)
    requires ValidChain(chain) && PoppedTo(t, u, chain, f) && h in t
    requires h in Summarize(chain).located && Summarize(chain).located[h].height > f
    ensures u[h].height == UNVERIFIED
  {
    hide Agrees;
    hide Unmoved;
    hide Summarize;
    hide ValidChain;
    var at := Summarize(chain).located[h];
    LocatedWhereItSits(chain, h, at.height, at.position);
    var block := chain[at.height];
    assert block == chain[f + 1..][at.height - f - 1];
    assert block in chain[f + 1..] && block.txs[at.position] in block.txs;
  }

  // ---------------------------------------------------------------- confirming a block

  /** The previous output can be spent when it is reached: confirmed in time, or earlier in the block. */
  ghost predicate InputFound(t: Table, links: seq<Hash>, position: nat, p: Point, height: nat)
    requires position <= |links|
  {
    && p.hash in t && p.index < |t[p.hash].outputs|
    && ((t[p.hash].HasPosition() && t[p.hash].height <= height) || p.hash in links[..position])
  }

  ghost predicate InputsFound(t: Table, links: seq<Hash>, position: nat, height: nat)
    requires position < |links| && links[position] in t
  {
    forall p :: p in RealPoints(t[links[position]].Points()) ==> InputFound(t, links, position, p, height)
  }

  /** A block of distinct stored transactions, none of which is confirmed. */
  ghost predicate Unconfirmed(t: Table, links: seq<Hash>) {
    && (forall i :: 0 <= i < |links| ==> links[i] in t && !t[links[i]].HasPosition())
    && (forall i, j :: 0 <= i < j < |links| ==> links[i] != links[j])
    && |links| <= MAX_BLOCK_TXS
  }

  ghost predicate DeconfirmedAreUnverified(t: Table) {
    forall h :: h in t && t[h].position == DECONFIRMED ==> t[h].height == UNVERIFIED
  }

  /** The rows of u after the links were confirmed at the height. */
  ghost predicate ConfirmedRows(t: Table, u: Table, links: seq<Hash>, height: nat) {
    && t.Keys == u.Keys
    && forall h :: h in t ==>
         && u[h].inputs == t[h].inputs && |u[h].outputs| == |t[h].outputs|
         && (if h in links then u[h].HasPosition() && u[h].height == height
             else u[h].position == t[h].position && u[h].height == t[h].height)
  }

  /** Confirming a block of unconfirmed transactions succeeds exactly when every input that is read
      is found confirmed in time or earlier in the block; pooled and deconfirmed ones are rejected. */
  lemma {:induction false} ConfirmSucceedsExactly(t: Table, links: seq<Hash>, height: nat, time: nat)
    requires Unconfirmed(t, links) && DeconfirmedAreUnverified(t) && height <= MAX_HEIGHT
    ensures var o := ConfirmBlock(t, links, height, time);
            && (o.ok <==> forall i :: 1 <= i < |links| ==> InputsFound(t, links, i, height))
            && (o.ok ==> ConfirmedRows(t, o.table, links, height))
    decreases |links|
  {
    hide InputsFound;
    hide ConfirmedRows;
    hide Confirm;
    if links == [] {
      NoRowsConfirmed(t, height);
    } else {
      var n := |links| - 1;
      var front, link := links[..n], links[n];
      ConfirmSucceedsExactly(t, front, height, time);
      var o := ConfirmBlock(t, front, height, time);
      FoundInFront(t, links, height);
      if o.ok {
        ConfirmOneExactly(t, o.table, links, height, time);
      }
    }
  }

  lemma FoundInFront(t: Table, links: seq<Hash>, height: nat)
    requires Unconfirmed(t, links) && links != []
    ensures var n := |links| - 1;
            (forall i :: 1 <= i < n ==> InputsFound(t, links, i, height)) <==>
            (forall i :: 1 <= i < n ==> InputsFound(t, links[..n], i, height))
  {
    var n := |links| - 1;
    forall i | 1 <= i < n ensures InputsFound(t, links, i, height) <==> InputsFound(t, links[..n], i, height) {
      assert links[..i] == links[..n][..i];
    }
  }

  lemma NoRowsConfirmed(t: Table, height: nat)
    ensures ConfirmedRows(t, t, [], height)
  {
  }

  lemma ConfirmOneExactly(t: Table, u: Table, links: seq<Hash>, height: nat, time: nat)
    requires Unconfirmed(t, links) && DeconfirmedAreUnverified(t) && height <= MAX_HEIGHT && links != []
    requires ConfirmedRows(t, u, links[..|links| - 1], height)
    ensures var n := |links| - 1;
            var o := Confirm(u, links[n], height, time, n);
            && (o.ok <==> n == 0 || InputsFound(t, links, n, height))
            && (o.ok ==> ConfirmedRows(t, o.table, links, height))
  {
    var n := |links| - 1;
    var link, front := links[n], links[..n];
    var points := t[link].Points();
    assert u[link].Points() == points;
    SpendingEffect(u, points, height);
    forall p | p in RealPoints(points) ensures CanSpend(u, p, height) <==> InputFound(t, links, n, p, height) {
    }
    assert links == front + [link];
    var o := Confirm(u, link, height, time, n);
    if o.ok {
      var w := if n == 0 then u else Each(u, points, ConfirmedSpending(height)).table;
      assert forall h :: h in u ==> w[h] == u[h].(outputs := w[h].outputs) && |w[h].outputs| == |u[h].outputs| by {
        assert n != 0 ==> forall h :: h in u ==> RowSpentAs(h, u[h], w[h], RealPoints(points), SpenderField(height));
      }
    }
  }
}
