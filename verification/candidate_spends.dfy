/** Marking and unmarking a block's previous outputs as candidate spent. */
module CandidateSpends {
  import opened Types
  import opened Record
  import opened TransactionTable
  import opened Ledger
  import opened Agreement

  ghost predicate OutputExists(t: Table, p: Point) {
    p.hash in t && p.index < |t[p.hash].outputs|
  }

  /** The previous outputs that the transactions at these links spend. */
  function BlockPoints(t: Table, links: seq<Hash>): set<Point> {
    set link, p | link in links && link in t && p in RealPoints(t[link].Points()) :: p
  }

  /** The transactions at these links are stored, and so is every output they spend. */
  ghost predicate LinksReady(t: Table, links: seq<Hash>) {
    && (forall link :: link in links ==> link in t)
    && (forall p :: p in BlockPoints(t, links) ==> OutputExists(t, p))
  }

  function LinkSet(links: seq<Hash>): set<Hash> {
    set link | link in links
  }

  /** u is t with the candidate-spent byte of these outputs, and the candidate flag of these transactions,
      set or cleared. */
  ghost predicate MarkedAs(t: Table, u: Table, ps: set<Point>, flagged: set<Hash>, positive: bool) {
    && t.Keys == u.Keys
    && forall h :: h in t ==> RowMarkedAs(h, t[h], u[h], ps, flagged, positive)
  }

  ghost predicate RowMarkedAs(h: Hash, a: Row, b: Row, ps: set<Point>, flagged: set<Hash>, positive: bool) {
    && b == a.(outputs := b.outputs, candidate := if h in flagged then positive else a.candidate)
    && |b.outputs| == |a.outputs|
    && forall i :: 0 <= i < |a.outputs| ==>
         b.outputs[i] == if Point(h, i) in ps then a.outputs[i].(candidateSpent := positive) else a.outputs[i]
  }

  /** Marking a list of points succeeds exactly when each real one exists, and marks just those. */
  lemma {:induction false} MarkingEffect(t: Table, ps: seq<Point>, positive: bool)
    ensures var o := Each(t, ps, CandidateSpending(positive));
            && (o.ok <==> forall p :: p in RealPoints(ps) ==> OutputExists(t, p))
            && (o.ok ==> MarkedAs(t, o.table, RealPoints(ps), {}, positive))
    decreases |ps|
  {
    hide MarkedAs;
    if ps == [] {
      MarkedNothing(t, positive);
    } else {
      var n := |ps| - 1;
      var p := ps[n];
      MarkingEffect(t, ps[..n], positive);
      RealPointsSnoc(ps);
      var front := Each(t, ps[..n], CandidateSpending(positive));
      if front.ok {
        MarkedKeepsOutputs(t, front.table, RealPoints(ps[..n]), {}, positive, p);
        if p.IsNull() || OutputExists(front.table, p) {
          MarkOne(t, front.table, RealPoints(ps[..n]), p, {}, positive);
        }
      }
    }
  }

  lemma RealPointsSnoc(ps: seq<Point>)
    requires ps != []
    ensures var n := |ps| - 1;
            RealPoints(ps) == RealPoints(ps[..n]) + (if ps[n].IsNull() then {} else {ps[n]})
  {
    var n := |ps| - 1;
    assert ps == ps[..n] + [ps[n]];
  }

  lemma MarkedNothing(t: Table, positive: bool)
    ensures MarkedAs(t, t, {}, {}, positive) && RealPoints([]) == {}
  {
  }

  lemma MarkedKeepsOutputs(t: Table, u: Table, ps: set<Point>, flagged: set<Hash>, positive: bool, p: Point)
    requires MarkedAs(t, u, ps, flagged, positive)
    ensures OutputExists(t, p) <==> OutputExists(u, p)
  {
    if p.hash in t {
      assert RowMarkedAs(p.hash, t[p.hash], u[p.hash], ps, flagged, positive);
    }
  }

  lemma MarkOne(t: Table, u: Table, ps: set<Point>, p: Point, flagged: set<Hash>, positive: bool)
    requires MarkedAs(t, u, ps, flagged, positive)
    requires p.IsNull() || OutputExists(u, p)
    ensures var o := CandidateSpend(u, p, positive);
            o.ok && MarkedAs(t, o.table, ps + (if p.IsNull() then {} else {p}), flagged, positive)
  {
    var v := CandidateSpend(u, p, positive).table;
    var added := ps + (if p.IsNull() then {} else {p});
    forall h | h in t ensures RowMarkedAs(h, t[h], v[h], added, flagged, positive) {
      assert RowMarkedAs(h, t[h], u[h], ps, flagged, positive);
    }
  }

  lemma MarkedTransitive(t: Table, u: Table, v: Table, a: set<Point>, b: set<Point>,
                         f: set<Hash>, g: set<Hash>, positive: bool)
    requires MarkedAs(t, u, a, f, positive) && MarkedAs(u, v, b, g, positive)
    ensures MarkedAs(t, v, a + b, f + g, positive)
  {
    forall h | h in t ensures RowMarkedAs(h, t[h], v[h], a + b, f + g, positive) {
      assert RowMarkedAs(h, t[h], u[h], a, f, positive) && RowMarkedAs(h, u[h], v[h], b, g, positive);
    }
  }

  lemma MarkedKeys(t: Table, u: Table, ps: set<Point>, flagged: set<Hash>, positive: bool)
    requires MarkedAs(t, u, ps, flagged, positive)
    ensures u.Keys == t.Keys
  {
  }

  /** Marking changes no stored transaction, no location and no spender. */
  lemma MarkedKeeps(t: Table, u: Table, ps: set<Point>, flagged: set<Hash>, positive: bool)
    requires MarkedAs(t, u, ps, flagged, positive)
    ensures SameTransactions(t, u)
    ensures forall m :: Agrees(t, m) ==> Agrees(u, m)
  {
    forall h | h in t ensures SameTransaction(t[h], u[h]) {
      assert RowMarkedAs(h, t[h], u[h], ps, flagged, positive);
    }
    forall m | Agrees(t, m) ensures Agrees(u, m) {
      MarkedAgrees(t, u, ps, flagged, positive, m);
    }
  }

  lemma MarkedAgrees(t: Table, u: Table, ps: set<Point>, flagged: set<Hash>, positive: bool, m: Summary)
    requires MarkedAs(t, u, ps, flagged, positive) && Agrees(t, m)
    ensures Agrees(u, m)
  {
    forall h | h in u ensures RowAgrees(h, u[h], m) {
      assert RowMarkedAs(h, t[h], u[h], ps, flagged, positive) && RowAgrees(h, t[h], m);
      assert forall i :: 0 <= i < |u[h].outputs| ==> u[h].outputs[i].spender == t[h].outputs[i].spender;
    }
    forall p | p in m.spent ensures WasConfirmed(u, p) {
      assert WasConfirmed(t, p) && RowMarkedAs(p.hash, t[p.hash], u[p.hash], ps, flagged, positive);
    }
  }

  lemma SameTransactionsPoints(t: Table, u: Table, links: seq<Hash>)
    requires SameTransactions(t, u) && forall link :: link in links ==> link in t
    ensures BlockPoints(u, links) == BlockPoints(t, links)
  {
    forall link | link in links ensures t[link].Points() == u[link].Points() {
      assert SameTransaction(t[link], u[link]);
    }
  }

  lemma MarkTransaction(t: Table, link: Hash, positive: bool)
    ensures var o := Candidate(t, link, positive);
            && (o.ok <==> LinksReady(t, [link]))
            && (o.ok ==> MarkedAs(t, o.table, BlockPoints(t, [link]), {link}, positive))
  {
    if link in t {
      var ps := t[link].Points();
      MarkingEffect(t, ps, positive);
      assert BlockPoints(t, [link]) == RealPoints(ps) by {
        assert forall x :: x in [link] <==> x == link;
      }
      var spent := Each(t, ps, CandidateSpending(positive));
      if spent.ok {
        CandidizeKeepsMarks(spent.table, link, positive);
        MarkedTransitive(t, spent.table, Candidize(spent.table, link, positive).table, RealPoints(ps), {},
                         {}, {link}, positive);
        assert RealPoints(ps) + {} == RealPoints(ps) && {} + {link} == {link};
      }
    } else {
      assert link in [link];
    }
  }

  lemma CandidizeKeepsMarks(t: Table, link: Hash, positive: bool)
    requires link in t
    ensures MarkedAs(t, Candidize(t, link, positive).table, {}, {link}, positive)
  {
  }

  /** Marking a block succeeds exactly when its transactions and the outputs they spend are stored; it sets
      the candidate flags of exactly its transactions, and the candidate-spent bytes of exactly those outputs. */
  lemma {:induction false} MarkBlock(t: Table, links: seq<Hash>, positive: bool)
    ensures var o := Each(t, links, Candidating(positive));
            && (o.ok <==> LinksReady(t, links))
            && (o.ok ==> MarkedAs(t, o.table, BlockPoints(t, links), LinkSet(links), positive))
    decreases |links|
  {
    hide MarkedAs;
    hide BlockPoints;
    hide LinkSet;
    hide LinksReady;
    hide Candidate;
    if links == [] {
      MarkedNothing(t, positive);
      NoLinks(t);
    } else {
      var n := |links| - 1;
      MarkBlock(t, links[..n], positive);
      LinksSnoc(t, links);
      var front := Each(t, links[..n], Candidating(positive));
      if front.ok {
        MarkTransaction(front.table, links[n], positive);
        MarkedKeeps(t, front.table, BlockPoints(t, links[..n]), LinkSet(links[..n]), positive);
        ReadyUnchanged(t, front.table, [links[n]], BlockPoints(t, links[..n]), LinkSet(links[..n]), positive);
        var o := Candidate(front.table, links[n], positive);
        if o.ok {
          MarkedTransitive(t, front.table, o.table, BlockPoints(t, links[..n]), BlockPoints(t, [links[n]]),
                           LinkSet(links[..n]), {links[n]}, positive);
        }
      }
    }
  }

  lemma NoLinks(t: Table)
    ensures LinksReady(t, []) && BlockPoints(t, []) == {} && LinkSet([]) == {}
  {
  }

  lemma LinksSnoc(t: Table, links: seq<Hash>)
    requires links != []
    ensures var n := |links| - 1;
            && BlockPoints(t, links) == BlockPoints(t, links[..n]) + BlockPoints(t, [links[n]])
            && LinkSet(links) == LinkSet(links[..n]) + {links[n]}
            && (LinksReady(t, links) <==> LinksReady(t, links[..n]) && LinksReady(t, [links[n]]))
  {
    var n := |links| - 1;
    assert links == links[..n] + [links[n]];
    assert forall x :: x in links <==> x in links[..n] || x in [links[n]];
  }

  lemma ReadyUnchanged(t: Table, u: Table, links: seq<Hash>, ps: set<Point>, flagged: set<Hash>, positive: bool)
    requires MarkedAs(t, u, ps, flagged, positive)
    ensures LinksReady(t, links) <==> LinksReady(u, links)
    ensures LinksReady(t, links) ==> BlockPoints(t, links) == BlockPoints(u, links)
  {
    MarkedKeeps(t, u, ps, flagged, positive);
    if forall link :: link in links ==> link in t {
      SameTransactionsPoints(t, u, links);
      forall p | p in BlockPoints(t, links) ensures OutputExists(t, p) <==> OutputExists(u, p) {
        MarkedKeepsOutputs(t, u, ps, flagged, positive, p);
      }
    }
  }
}
