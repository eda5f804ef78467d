/** Header reorganization is exact on the candidate index, and undone up to confirmation bits it overwrites. */
module HeaderReorganization {
  import opened Types
  import opened Record
  import opened BlockState
  import opened BlockTable
  import opened TransactionTable
  import opened Agreement
  import opened CandidateSpends
  import opened ChainState
  import opened Invariants
  import opened Steps
  import Runs

  datatype Popped = Popped(ok: bool, state: State, outgoing: seq<Header>)

  datatype Incoming = Incoming(header: Header, known: bool, time: nat)

  function TopHeader(b: Blocks): Header
    requires b.candidate != []
  {
    var hash := b.candidate[|b.candidate| - 1];
    Header(hash, if hash in b.rows then b.rows[hash].previous else NULL_HASH)
  }

  /** Take headers off the top until the fork is on top; the list of them is ascending. */
  function PopAbove(s: State, fork: nat): Popped
    decreases |s.blocks.candidate|
  {
    var count := |s.blocks.candidate|;
    if count <= fork + 1 then Popped(true, s, [])
    else
      var d := PopHeader(s, count - 1);
      if !d.ok then Popped(false, d.state, [])
      else
        var rest := PopAbove(d.state, fork);
        Popped(rest.ok, rest.state, rest.outgoing + [TopHeader(s.blocks)])
  }

  function PushAll(s: State, headers: seq<Incoming>, first: nat): Done {
    if headers == [] then Done(true, s)
    else
      var n := |headers| - 1;
      var front := PushAll(s, headers[..n], first);
      if front.ok then PushHeader(front.state, headers[n].header, headers[n].known, first + n, headers[n].time)
      else front
  }

  function Reorganize(s: State, fork: nat, incoming: seq<Incoming>): Popped {
    var p := PopAbove(s, fork);
    if !p.ok then p
    else
      var d := PushAll(p.state, incoming, fork + 1);
      Popped(d.ok, d.state, p.outgoing)
  }

  /** Every header to be popped spends nothing another marked block spends, and its stored transactions
      have their previous outputs stored. */
  ghost predicate PopsOwed(s: State, fork: nat)
    decreases |s.blocks.candidate|
  {
    var count := |s.blocks.candidate|;
    count <= fork + 1 ||
    (&& PopHeaderOwed(s)
     && LinksReady(s.table, s.blocks.LinksOf(s.blocks.candidate[count - 1]))
     && var d := PopHeader(s, count - 1);
        |d.state.blocks.candidate| < count && PopsOwed(d.state, fork))
  }

  ghost predicate PushesOwed(s: State, headers: seq<Incoming>, first: nat) {
    headers == [] ||
    (var n := |headers| - 1;
     && PushesOwed(s, headers[..n], first)
     && PushHeaderOwed(PushAll(s, headers[..n], first).state, headers[n].header, headers[n].known, first + n))
  }

  // ---------------------------------------------------------------- rows

  /** The rows of b in c: those of the moved blocks have their confirmation state overwritten. */
  ghost predicate Moved(b: Blocks, c: Blocks, moved: set<Hash>, positive: bool) {
    && b.rows.Keys <= c.rows.Keys && b.confirmed == c.confirmed && b.links == c.links
    && forall x :: x in b.rows ==>
         c.rows[x] == if x in moved then b.rows[x].(state := UpdateConfirmation(b.rows[x].state, positive, true))
                      else b.rows[x]
  }

  lemma MovedTransitive(a: Blocks, b: Blocks, c: Blocks, x: set<Hash>, y: set<Hash>, positive: bool)
    requires Moved(a, b, x, positive) && Moved(b, c, y, positive) && x !! y
    ensures Moved(a, c, x + y, positive)
  {
    hide UpdateConfirmation;
  }

  function HashSet(index: seq<Hash>): set<Hash> {
    set x | x in index
  }

  lemma HashSetSnoc(index: seq<Hash>)
    requires index != []
    ensures var n := |index| - 1; HashSet(index) == HashSet(index[..n]) + {index[n]}
  {
    var n := |index| - 1;
    assert index == index[..n] + [index[n]];
  }

  /** Moving headers leaves the confirmed chain and every stored transaction as they are. */
  ghost predicate SameChain(s: State, u: State) {
    u.chain == s.chain && u.table.Keys == s.table.Keys && SameTransactions(s.table, u.table)
  }

  lemma SameChainTransitive(s: State, u: State, v: State)
    requires SameChain(s, u) && SameChain(u, v)
    ensures SameChain(s, v)
  {
    forall h | h in s.table ensures SameTransaction(s.table[h], v.table[h]) {
      assert SameTransaction(s.table[h], u.table[h]) && SameTransaction(u.table[h], v.table[h]);
    }
  }

  lemma SameChainWithBlocks(s: State, u: State)
    requires u == s.(blocks := u.blocks)
    ensures SameChain(s, u)
  {
  }

  // ---------------------------------------------------------------- popping

  ghost predicate OutgoingIs(b: Blocks, outgoing: seq<Header>, fork: nat) {
    && |outgoing| + fork + 1 == |b.candidate|
    && forall i :: 0 <= i < |outgoing| ==> HeaderOf(b, outgoing[i], b.candidate[fork + 1 + i])
  }

  ghost predicate HeaderOf(b: Blocks, header: Header, x: Hash) {
    x in b.rows && header == Header(x, b.rows[x].previous)
  }

  lemma PopOne(s: State)
    requires Inv(s) && PopHeaderOwed(s)
    requires LinksReady(s.table, s.blocks.LinksOf(s.blocks.candidate[|s.blocks.candidate| - 1]))
    ensures var n := |s.blocks.candidate| - 1;
            var d := PopHeader(s, n);
            && d.ok && Inv(d.state) && d.state.blocks.candidate == s.blocks.candidate[..n]
            && Moved(s.blocks, d.state.blocks, {s.blocks.candidate[n]}, false)
            && d.state.blocks.rows.Keys == s.blocks.rows.Keys
            && s.blocks.candidate[n] in s.blocks.rows
            && SameChain(s, d.state) && d.state.marked == s.marked - {s.blocks.candidate[n]}
  {
    hide Inv;
    hide LinksReady;
    hide MarkedAs;
    hide UpdateConfirmation;
    var n := |s.blocks.candidate| - 1;
    var links := s.blocks.LinksOf(s.blocks.candidate[n]);
    PopHeaderKeepsInv(s);
    MarkBlock(s.table, links, false);
    MarkedKeeps(s.table, PopHeader(s, n).state.table, BlockPoints(s.table, links), LinkSet(links), false);
    assert PopHeader(s, n).state.table.Keys == s.table.Keys by {
      MarkedKeys(s.table, PopHeader(s, n).state.table, BlockPoints(s.table, links), LinkSet(links), false);
    }
  }

  lemma CandidateInRows(s: State)
    requires Inv(s)
    ensures Linked(s.blocks, s.blocks.candidate) && Words(s.blocks) && NULL_HASH !in s.blocks.rows
    ensures forall x :: x in s.blocks.candidate ==> x in s.blocks.rows
  {
  }

  /** Popping takes exactly the headers above the fork off the index and hands them back in ascending order. */
  lemma {:induction false} PopAboveExact(s: State, fork: nat)
    requires Inv(s) && fork < |s.blocks.candidate| && PopsOwed(s, fork)
    ensures var p := PopAbove(s, fork);
            && p.ok && Inv(p.state)
            && p.state.blocks.candidate == s.blocks.candidate[..fork + 1]
            && p.state.blocks.rows.Keys == s.blocks.rows.Keys
            && Moved(s.blocks, p.state.blocks, HashSet(s.blocks.candidate[fork + 1..]), false)
            && OutgoingIs(s.blocks, p.outgoing, fork)
            && SameChain(s, p.state) && p.state.marked == s.marked - HashSet(s.blocks.candidate[fork + 1..])
    decreases |s.blocks.candidate|
  {
    hide Inv;
    hide LinksReady;
    hide PopHeader;
    hide PopHeaderOwed;
    hide Moved;
    hide HashSet;
    hide SameChain;
    hide TopHeader;
    hide OutgoingIs;
    var count := |s.blocks.candidate|;
    if count == fork + 1 {
      assert s.blocks.candidate[..fork + 1] == s.blocks.candidate;
      MovedNothing(s, fork);
    } else {
      var n := count - 1;
      var u := PopHeader(s, n).state;
      PopOne(s);
      PopAboveExact(u, fork);
      var p := PopAbove(u, fork);
      assert u.blocks.candidate[..fork + 1] == s.blocks.candidate[..fork + 1];
      MovedWithTop(s, u, p.state.blocks, fork);
      SameChainTransitive(s, u, p.state);
      OutgoingSnoc(s, u, p.outgoing, fork);
    }
  }

  lemma MovedNothing(s: State, fork: nat)
    requires |s.blocks.candidate| == fork + 1
    ensures HashSet(s.blocks.candidate[fork + 1..]) == {} && SameChain(s, s)
    ensures Moved(s.blocks, s.blocks, HashSet(s.blocks.candidate[fork + 1..]), false) && OutgoingIs(s.blocks, [], fork)
  {
  }

  lemma MovedWithTop(s: State, u: State, b: Blocks, fork: nat)
    requires Inv(s) && fork + 1 < |s.blocks.candidate|
    requires var n := |s.blocks.candidate| - 1;
             && u.blocks.candidate == s.blocks.candidate[..n]
             && Moved(s.blocks, u.blocks, {s.blocks.candidate[n]}, false)
             && Moved(u.blocks, b, HashSet(u.blocks.candidate[fork + 1..]), false)
    ensures Moved(s.blocks, b, HashSet(s.blocks.candidate[fork + 1..]), false)
    ensures HashSet(s.blocks.candidate[fork + 1..])
         == {s.blocks.candidate[|s.blocks.candidate| - 1]} + HashSet(u.blocks.candidate[fork + 1..])
  {
    hide Inv;
    hide Moved;
    var n := |s.blocks.candidate| - 1;
    var above, top := s.blocks.candidate[fork + 1..], s.blocks.candidate[n];
    assert above[..|above| - 1] == u.blocks.candidate[fork + 1..];
    HashSetSnoc(above);
    TopIsNew(s);
    assert top !in u.blocks.candidate[fork + 1..];
    MovedTransitive(s.blocks, u.blocks, b, {top}, HashSet(u.blocks.candidate[fork + 1..]), false);
    assert {top} + HashSet(u.blocks.candidate[fork + 1..]) == HashSet(above);
  }

  lemma OutgoingSnoc(s: State, u: State, outgoing: seq<Header>, fork: nat)
    requires fork + 1 < |s.blocks.candidate| && OutgoingIs(u.blocks, outgoing, fork)
    requires var n := |s.blocks.candidate| - 1;
             && u.blocks.candidate == s.blocks.candidate[..n]
             && Moved(s.blocks, u.blocks, {s.blocks.candidate[n]}, false)
             && s.blocks.candidate[n] in s.blocks.rows
             && u.blocks.rows.Keys == s.blocks.rows.Keys
    ensures OutgoingIs(s.blocks, outgoing + [TopHeader(s.blocks)], fork)
  {
    hide UpdateConfirmation;
    var all := outgoing + [TopHeader(s.blocks)];
    forall i | 0 <= i < |all|
      ensures HeaderOf(s.blocks, all[i], s.blocks.candidate[fork + 1 + i])
    {
      if i < |outgoing| {
        var x := u.blocks.candidate[fork + 1 + i];
        assert HeaderOf(u.blocks, outgoing[i], x);
        assert u.blocks.rows[x].previous == s.blocks.rows[x].previous;
      }
    }
  }

  lemma TopIsNew(s: State)
    requires Inv(s)
    ensures var n := |s.blocks.candidate| - 1;
            s.blocks.candidate[n] !in s.blocks.candidate[..n]
  {
    hide Words;
    hide Tree;
    hide Marks;
    hide Tied;
    hide Confirmations;
  }

  // ---------------------------------------------------------------- what popping owes

  /** The block at a height of the candidate index can be popped once those above it are: its transactions and
      the outputs they spend are stored, and no marked block below it spends one of these outputs. */
  ghost predicate PoppableAt(s: State, k: nat)
    requires k < |s.blocks.candidate|
  {
    var x := s.blocks.candidate[k];
    && s.blocks.LinksInRange(x) && LinksReady(s.table, s.blocks.LinksOf(x))
    && SpendsApart(s, x, s.blocks.candidate[..k])
  }

  /** No marked block of these spends an output that the block spends. */
  ghost predicate SpendsApart(s: State, x: Hash, others: seq<Hash>)
    requires s.blocks.LinksInRange(x)
  {
    forall y :: y in s.marked && y in others && s.blocks.LinksInRange(y) ==>
      BlockPoints(s.table, s.blocks.LinksOf(y)) !! BlockPoints(s.table, s.blocks.LinksOf(x))
  }

  ghost predicate Poppable(s: State, fork: nat) {
    forall k :: fork < k < |s.blocks.candidate| ==> PoppableAt(s, k)
  }

  lemma SameChainSymmetric(s: State, u: State)
    requires SameChain(s, u)
    ensures SameChain(u, s)
  {
    forall h | h in u.table ensures SameTransaction(u.table[h], s.table[h]) {
      assert SameTransaction(s.table[h], u.table[h]);
    }
  }

  /** What a block spends, and whether it is stored, depends only on its links and the stored transactions. */
  lemma LinksAlike(s: State, u: State, x: Hash)
    requires SameChain(s, u) && Populated(s)
    requires s.blocks.LinksInRange(x) && u.blocks.LinksInRange(x) && u.blocks.LinksOf(x) == s.blocks.LinksOf(x)
    ensures LinksReady(u.table, u.blocks.LinksOf(x)) <==> LinksReady(s.table, s.blocks.LinksOf(x))
    ensures BlockPoints(u.table, u.blocks.LinksOf(x)) == BlockPoints(s.table, s.blocks.LinksOf(x))
  {
    hide LinksReady;
    hide BlockPoints;
    var links := s.blocks.LinksOf(x);
    SameChainSymmetric(s, u);
    assert LinksStored(s.table, links);
    SameTransactionsPoints(s.table, u.table, links);
    if LinksReady(s.table, links) {
      ReadyFrame(s.table, u.table, links);
    }
    if LinksReady(u.table, links) {
      ReadyFrame(u.table, s.table, links);
    }
  }

  lemma TopIsPoppable(s: State)
    requires Inv(s) && |s.blocks.candidate| >= 2
    ensures var n := |s.blocks.candidate| - 1;
            && s.blocks.LinksInRange(s.blocks.candidate[n])
            && (PopHeaderOwed(s) && LinksReady(s.table, s.blocks.LinksOf(s.blocks.candidate[n])) <==> PoppableAt(s, n))
  {
    hide LinksReady;
    hide BlockPoints;
    hide Inv;
    var n := |s.blocks.candidate| - 1;
    LinksOfCandidates(s);
    MarkedOnIndex(s);
    TopIsNew(s);
    assert s.blocks.candidate == s.blocks.candidate[..n] + [s.blocks.candidate[n]];
  }

  lemma LinksOfCandidates(s: State)
    requires Inv(s)
    ensures forall x :: x in s.blocks.candidate ==> s.blocks.LinksInRange(x)
    ensures Populated(s)
  {
    CandidateInRows(s);
  }

  lemma MarkedOnIndex(s: State)
    requires Inv(s)
    ensures forall x :: x in s.marked ==> x in s.blocks.candidate && s.blocks.LinksInRange(x)
  {
    MarkedAreCandidates(s);
  }

  /** Popping the top leaves the lower blocks as poppable as they were. */
  lemma PoppableBelowTop(s: State, u: State, k: nat)
    requires Inv(s) && Inv(u) && SameChain(s, u) && k + 1 < |s.blocks.candidate|
    requires var n := |s.blocks.candidate| - 1;
             && u.blocks.candidate == s.blocks.candidate[..n] && u.marked == s.marked - {s.blocks.candidate[n]}
             && Moved(s.blocks, u.blocks, {s.blocks.candidate[n]}, false)
    ensures PoppableAt(u, k) <==> PoppableAt(s, k)
  {
    hide LinksReady;
    hide BlockPoints;
    hide Inv;
    hide SameChain;
    hide UpdateConfirmation;
    var n := |s.blocks.candidate| - 1;
    LinksOfCandidates(s);
    TopIsNew(s);
    assert u.blocks.candidate[..k] == s.blocks.candidate[..k];
    forall x | x in s.blocks.candidate
      ensures u.blocks.LinksInRange(x) && u.blocks.LinksOf(x) == s.blocks.LinksOf(x)
      ensures LinksReady(u.table, u.blocks.LinksOf(x)) <==> LinksReady(s.table, s.blocks.LinksOf(x))
      ensures BlockPoints(u.table, u.blocks.LinksOf(x)) == BlockPoints(s.table, s.blocks.LinksOf(x))
    {
      LinksAlike(s, u, x);
    }
    assert forall y :: y in s.blocks.candidate[..k] ==> y in s.blocks.candidate[..n] && y in s.blocks.candidate;
  }

  /** What popping down to a fork owes can be told from the state before. */
  lemma {:induction false} PopsOwedExactly(s: State, fork: nat)
    requires Inv(s)
    ensures PopsOwed(s, fork) <==> Poppable(s, fork)
    decreases |s.blocks.candidate|
  {
    hide Inv;
    hide LinksReady;
    hide PopHeader;
    hide PopHeaderOwed;
    hide PoppableAt;
    hide Moved;
    hide SameChain;
    var n := |s.blocks.candidate| - 1;
    if n > fork {
      TopIsPoppable(s);
      if PoppableAt(s, n) {
        PopOne(s);
        var u := PopHeader(s, n).state;
        PopsOwedExactly(u, fork);
        forall k | fork < k < n ensures PoppableAt(u, k) <==> PoppableAt(s, k) {
          PoppableBelowTop(s, u, k);
        }
      }
    }
  }

  // ---------------------------------------------------------------- pushing

  function IncomingHashes(headers: seq<Incoming>): (hashes: seq<Hash>)
    ensures |hashes| == |headers|
  {
    seq(|headers|, i requires 0 <= i < |headers| => headers[i].header.hash)
  }

  lemma PushOne(s: State, x: Incoming, height: nat)
    requires Inv(s) && PushHeaderOwed(s, x.header, x.known, height)
    ensures var d := PushHeader(s, x.header, x.known, height, x.time);
            && d.ok && Inv(d.state)
            && d.state.blocks.candidate == s.blocks.candidate + [x.header.hash]
            && x.header.hash in d.state.blocks.rows
            && Moved(s.blocks, d.state.blocks, {x.header.hash}, true)
            && x.header.hash !in s.blocks.candidate
            && d.state == s.(blocks := d.state.blocks)
  {
    hide UpdateConfirmation;
    hide Marks;
    hide Tied;
    hide Confirmations;
    hide Words;
    PushHeaderKeepsInv(s, x.header, x.known, height, x.time);
    if x.known {
      NextHeight(s.blocks, s.blocks.candidate, x.header.hash);
    }
  }

  /** Pushing puts exactly the headers on the index. */
  lemma {:induction false} PushAllExact(s: State, headers: seq<Incoming>, first: nat)
    requires Inv(s) && PushesOwed(s, headers, first)
    ensures var d := PushAll(s, headers, first);
            && d.ok && Inv(d.state)
            && d.state.blocks.candidate == s.blocks.candidate + IncomingHashes(headers)
            && Moved(s.blocks, d.state.blocks, HashSet(IncomingHashes(headers)), true)
            && HashSet(IncomingHashes(headers)) !! HashSet(s.blocks.candidate)
            && d.state == s.(blocks := d.state.blocks)
    decreases |headers|
  {
    hide Inv;
    hide UpdateConfirmation;
    hide PushHeaderOwed;
    hide PushHeader;
    if headers != [] {
      var n := |headers| - 1;
      var x := headers[n].header.hash;
      PushAllExact(s, headers[..n], first);
      var u := PushAll(s, headers[..n], first).state;
      PushOne(u, headers[n], first + n);
      var v := PushAll(s, headers, first).state;
      var hashes := IncomingHashes(headers);
      assert hashes[..n] == IncomingHashes(headers[..n]);
      assert hashes == hashes[..n] + [x];
      HashSetSnoc(hashes);
      assert x !in HashSet(hashes[..n]) by {
        assert forall y :: y in hashes[..n] ==> y in u.blocks.candidate;
      }
      MovedTransitive(s.blocks, u.blocks, v.blocks, HashSet(hashes[..n]), {x}, true);
      assert forall y :: y in s.blocks.candidate ==> y in u.blocks.candidate;
    }
  }

  /** A header reorganization replaces exactly the headers above the fork. */
  lemma ReorganizeExact(s: State, fork: nat, incoming: seq<Incoming>)
    requires Inv(s) && fork < |s.blocks.candidate| && PopsOwed(s, fork)
    requires PushesOwed(PopAbove(s, fork).state, incoming, fork + 1)
    ensures var r := Reorganize(s, fork, incoming);
            && r.ok && Inv(r.state)
            && r.state.blocks.candidate == s.blocks.candidate[..fork + 1] + IncomingHashes(incoming)
            && OutgoingIs(s.blocks, r.outgoing, fork)
            && r.state.blocks.confirmed == s.blocks.confirmed && SameChain(s, r.state)
            && r.state.marked == s.marked - HashSet(s.blocks.candidate[fork + 1..])
  {
    hide Inv;
    hide PopsOwed;
    PopAboveExact(s, fork);
    PushAllExact(PopAbove(s, fork).state, incoming, fork + 1);
  }

  /** A header reorganization leads from one reachable state to another. */
  lemma ReorganizeIsReachable(s: State, fork: nat, incoming: seq<Incoming>)
    requires Runs.Reachable(s) && fork < |s.blocks.candidate| && PopsOwed(s, fork)
    requires PushesOwed(PopAbove(s, fork).state, incoming, fork + 1)
    ensures Runs.Reachable(Reorganize(s, fork, incoming).state)
  {
    hide Runs.Reachable;
    hide PopsOwed;
    hide PushesOwed;
    Runs.ReachableInv(s);
    PopAboveExact(s, fork);
    PopAboveIsReachable(s, fork);
    PushAllIsReachable(PopAbove(s, fork).state, incoming, fork + 1);
  }

  lemma {:induction false} PopAboveIsReachable(s: State, fork: nat)
    requires Runs.Reachable(s) && fork < |s.blocks.candidate| && PopsOwed(s, fork)
    ensures Runs.Reachable(PopAbove(s, fork).state)
    decreases |s.blocks.candidate|
  {
    hide Runs.Reachable;
    hide PopHeader;
    hide Inv;
    hide LinksReady;
    hide Moved;
    var n := |s.blocks.candidate| - 1;
    if n > fork {
      Runs.ReachableInv(s);
      PopOne(s);
      Runs.ReachableStep(s, Runs.PopHeaderStep(n));
      PopAboveIsReachable(PopHeader(s, n).state, fork);
    }
  }

  lemma {:induction false} PushAllIsReachable(s: State, headers: seq<Incoming>, first: nat)
    requires Runs.Reachable(s) && PushesOwed(s, headers, first)
    ensures Runs.Reachable(PushAll(s, headers, first).state)
    decreases |headers|
  {
    hide Runs.Reachable;
    hide PushHeader;
    hide PushHeaderOwed;
    hide Inv;
    hide Moved;
    if headers != [] {
      var n := |headers| - 1;
      PushAllIsReachable(s, headers[..n], first);
      var u := PushAll(s, headers[..n], first).state;
      Runs.ReachableInv(u);
      PushOne(u, headers[n], first + n);
      Runs.ReachableStep(u, Runs.PushHeaderStep(headers[n].header, headers[n].known, first + n, headers[n].time));
    }
  }

  // ---------------------------------------------------------------- undoing

  /** The headers handed out, which are all stored by now. */
  function AsKnown(outgoing: seq<Header>): (r: seq<Incoming>)
    ensures |r| == |outgoing|
  {
    seq(|outgoing|, i requires 0 <= i < |outgoing| => Incoming(outgoing[i], true, NO_TIME))
  }

  /** Every header is stored as it was, and what its block points at too. */
  ghost predicate SameConstants(b: Blocks, c: Blocks) {
    && b.rows.Keys <= c.rows.Keys && b.links == c.links
    && forall x :: x in b.rows ==>
         && c.rows[x] == b.rows[x].(state := c.rows[x].state)
         && IsFailed(c.rows[x].state) == IsFailed(b.rows[x].state)
  }

  lemma MovedKeepsConstants(b: Blocks, c: Blocks, moved: set<Hash>, positive: bool)
    requires Moved(b, c, moved, positive)
    ensures SameConstants(b, c)
  {
    hide UpdateConfirmation;
    hide IsFailed;
    forall x | x in b.rows ensures IsFailed(c.rows[x].state) == IsFailed(b.rows[x].state) {
      ConfirmationBits(b.rows[x].state, positive, true);
    }
  }

  lemma SameConstantsTransitive(a: Blocks, b: Blocks, c: Blocks)
    requires SameConstants(a, b) && SameConstants(b, c)
    ensures SameConstants(a, c)
  {
    hide IsFailed;
  }

  /** The popped headers can be pushed back onto a state popped to the fork. */
  lemma {:induction false} SuffixIsOwed(s: State, u: State, outgoing: seq<Header>, fork: nat)
    requires Inv(s) && Inv(u) && fork < |s.blocks.candidate|
    requires fork + 1 + |outgoing| <= |s.blocks.candidate|
    requires u.blocks.candidate == s.blocks.candidate[..fork + 1] && SameConstants(s.blocks, u.blocks)
    requires forall i :: 0 <= i < |outgoing| ==> HeaderOf(s.blocks, outgoing[i], s.blocks.candidate[fork + 1 + i])
    ensures PushesOwed(u, AsKnown(outgoing), fork + 1)
    ensures IncomingHashes(AsKnown(outgoing)) == s.blocks.candidate[fork + 1..fork + 1 + |outgoing|]
    decreases |outgoing|
  {
    hide Inv;
    hide SameConstants;
    hide PushHeader;
    hide PushHeaderOwed;
    hide HeaderOf;
    hide Moved;
    hide HashSet;
    hide IncomingHashes;
    hide IsFailed;
    hide PushAll;
    hide PushesOwed;
    if outgoing == [] {
      NothingOwed(u, outgoing, fork);
    } else {
      var n := |outgoing| - 1;
      var headers := AsKnown(outgoing);
      assert headers[..n] == AsKnown(outgoing[..n]);
      SuffixIsOwed(s, u, outgoing[..n], fork);
      PushAllExact(u, headers[..n], fork + 1);
      var v := PushAll(u, headers[..n], fork + 1).state;
      MovedKeepsConstants(u.blocks, v.blocks, HashSet(IncomingHashes(headers[..n])), true);
      SameConstantsTransitive(s.blocks, u.blocks, v.blocks);
      assert v.blocks.candidate == s.blocks.candidate[..fork + 1 + n];
      NextOfSuffix(s, v, outgoing[n], fork + 1 + n);
      HashesOfLast(outgoing);
      LastIsOwed(u, headers, fork + 1);
    }
  }

  lemma NothingOwed(u: State, outgoing: seq<Header>, fork: nat)
    requires outgoing == []
    ensures PushesOwed(u, AsKnown(outgoing), fork + 1) && IncomingHashes(AsKnown(outgoing)) == []
  {
  }

  lemma LastIsOwed(u: State, headers: seq<Incoming>, first: nat)
    requires headers != []
    requires var n := |headers| - 1;
             && PushesOwed(u, headers[..n], first)
             && PushHeaderOwed(PushAll(u, headers[..n], first).state, headers[n].header, headers[n].known, first + n)
    ensures PushesOwed(u, headers, first)
  {
  }

  lemma HashesOfLast(outgoing: seq<Header>)
    requires outgoing != []
    ensures var n := |outgoing| - 1;
            IncomingHashes(AsKnown(outgoing)) == IncomingHashes(AsKnown(outgoing[..n])) + [outgoing[n].hash]
  {
  }

  lemma NextOfSuffix(s: State, v: State, header: Header, k: nat)
    requires Inv(s) && 1 <= k < |s.blocks.candidate| && SameConstants(s.blocks, v.blocks)
    requires v.blocks.candidate == s.blocks.candidate[..k]
    requires HeaderOf(s.blocks, header, s.blocks.candidate[k])
    ensures PushHeaderOwed(v, header, true, k) && header.hash == s.blocks.candidate[k]
  {
    hide Words;
    hide Marks;
    hide Tied;
    hide Confirmations;
    hide IsFailed;
  }

  // ---------------------------------------------------------------- what undoing owes

  /** Each incoming header that is stored already belongs to a block that could be popped again: it and the
      outputs it spends are stored, and it spends nothing that a block still marked at the fork spends. */
  ghost predicate IncomingApart(s: State, fork: nat, incoming: seq<Incoming>)
    requires fork < |s.blocks.candidate|
  {
    forall i :: 0 <= i < |incoming| && incoming[i].header.hash in s.blocks.rows ==>
      StoredApart(s, fork, incoming[i].header.hash)
  }

  ghost predicate StoredApart(s: State, fork: nat, x: Hash)
    requires fork < |s.blocks.candidate|
  {
    && s.blocks.LinksInRange(x) && LinksReady(s.table, s.blocks.LinksOf(x))
    && SpendsApart(s, x, s.blocks.candidate[..fork + 1])
  }

  /** Headers that were not stored have no transactions once they are pushed. */
  lemma {:induction false} NewRowsAreEmpty(s: State, headers: seq<Incoming>, first: nat)
    requires Inv(s) && PushesOwed(s, headers, first)
    ensures var u := PushAll(s, headers, first).state;
            forall x :: x in u.blocks.rows && x !in s.blocks.rows ==> u.blocks.rows[x].count == 0
    decreases |headers|
  {
    hide Inv;
    hide PushHeaderOwed;
    hide UpdateConfirmation;
    if headers != [] {
      var n := |headers| - 1;
      NewRowsAreEmpty(s, headers[..n], first);
      PushAllExact(s, headers[..n], first);
      PushOne(PushAll(s, headers[..n], first).state, headers[n], first + n);
    }
  }

  /** The marked blocks that a reorganized state has below an incoming header are those at or below the fork. */
  lemma MarkedBelowIncoming(s: State, r: State, fork: nat, ins: seq<Hash>, k: nat, y: Hash)
    requires Inv(s) && fork < |s.blocks.candidate| && fork < k <= |r.blocks.candidate|
    requires r.blocks.candidate == s.blocks.candidate[..fork + 1] + ins
    requires r.marked == s.marked - HashSet(s.blocks.candidate[fork + 1..])
    ensures y in r.marked && y in r.blocks.candidate[..k] <==> y in s.marked && y in s.blocks.candidate[..fork + 1]
  {
    hide Inv;
    MarkedOnIndex(s);
    var index := s.blocks.candidate;
    assert index == index[..fork + 1] + index[fork + 1..];
    assert r.blocks.candidate[..k] == index[..fork + 1] + ins[..k - fork - 1];
    if y in index[..fork + 1] && y in index[fork + 1..] {
      NoneAboveAndBelow(s, fork, y);
    }
  }

  lemma NoneAboveAndBelow(s: State, fork: nat, y: Hash)
    requires Inv(s) && fork < |s.blocks.candidate| && y in s.blocks.candidate[..fork + 1]
    ensures y !in s.blocks.candidate[fork + 1..]
  {
    hide Inv;
    CandidateInRows(s);
    NotInBoth(s.blocks.candidate, fork + 1, y);
  }

  lemma NotInBoth(index: seq<Hash>, k: nat, y: Hash)
    requires k <= |index| && y in index[..k]
    requires forall i, j :: 0 <= i < j < |index| ==> index[i] != index[j]
    ensures y !in index[k..]
  {
  }

  lemma IncomingIsPoppable(s: State, r: State, fork: nat, ins: seq<Hash>, i: nat)
    requires Inv(s) && Inv(r) && fork < |s.blocks.candidate| && i < |ins|
    requires r.blocks.candidate == s.blocks.candidate[..fork + 1] + ins
    requires r.marked == s.marked - HashSet(s.blocks.candidate[fork + 1..])
    requires SameChain(s, r) && SameConstants(s.blocks, r.blocks)
    requires ins[i] !in s.blocks.rows ==> ins[i] in r.blocks.rows && r.blocks.rows[ins[i]].count == 0
    ensures PoppableAt(r, fork + 1 + i) <==> (ins[i] in s.blocks.rows ==> StoredApart(s, fork, ins[i]))
  {
    hide Inv;
    hide LinksReady;
    hide BlockPoints;
    hide SameChain;
    hide HashSet;
    hide IsFailed;
    var x, k := ins[i], fork + 1 + i;
    LinksOfCandidates(r);
    LinksOfStored(s);
    assert r.blocks.candidate[k] == x;
    if x in s.blocks.rows {
      LinksAlike(s, r, x);
      forall y | y in s.marked && y in s.blocks.candidate[..fork + 1]
        ensures s.blocks.LinksInRange(y) && r.blocks.LinksInRange(y)
        ensures BlockPoints(r.table, r.blocks.LinksOf(y)) == BlockPoints(s.table, s.blocks.LinksOf(y))
      {
        MarkedOnIndex(s);
        LinksAlike(s, r, y);
      }
    } else {
      NoLinks(r.table);
    }
    forall y
      ensures y in r.marked && y in r.blocks.candidate[..k] <==> y in s.marked && y in s.blocks.candidate[..fork + 1]
    {
      MarkedBelowIncoming(s, r, fork, ins, k, y);
    }
  }

  lemma LinksOfStored(s: State)
    requires Inv(s)
    ensures forall x :: x in s.blocks.rows ==> s.blocks.LinksInRange(x)
    ensures Populated(s)
  {
  }

  /** Undoing a header reorganization owes exactly what can be told of the incoming headers beforehand. */
  lemma UndoIsOwedExactly(s: State, fork: nat, incoming: seq<Incoming>)
    requires Inv(s) && fork < |s.blocks.candidate| && PopsOwed(s, fork)
    requires PushesOwed(PopAbove(s, fork).state, incoming, fork + 1)
    ensures PopsOwed(Reorganize(s, fork, incoming).state, fork) <==> IncomingApart(s, fork, incoming)
  {
    hide Inv;
    hide PopsOwed;
    hide PushesOwed;
    hide PopAbove;
    hide PushAll;
    hide Moved;
    hide SameChain;
    hide SameConstants;
    hide PoppableAt;
    hide StoredApart;
    hide HashSet;
    var p := PopAbove(s, fork).state;
    PopAboveExact(s, fork);
    PushAllExact(p, incoming, fork + 1);
    NewRowsAreEmpty(p, incoming, fork + 1);
    var r := PushAll(p, incoming, fork + 1).state;
    var ins := IncomingHashes(incoming);
    MovedKeepsConstants(s.blocks, p.blocks, HashSet(s.blocks.candidate[fork + 1..]), false);
    MovedKeepsConstants(p.blocks, r.blocks, HashSet(ins), true);
    SameConstantsTransitive(s.blocks, p.blocks, r.blocks);
    SameChainWithBlocks(p, r);
    SameChainTransitive(s, p, r);
    PopsOwedExactly(r, fork);
    CandidateInRows(r);
    forall i | 0 <= i < |incoming|
      ensures PoppableAt(r, fork + 1 + i) <==> (ins[i] in s.blocks.rows ==> StoredApart(s, fork, ins[i]))
    {
      assert r.blocks.candidate[fork + 1 + i] == ins[i];
      IncomingIsPoppable(s, r, fork, ins, i);
    }
    if IncomingApart(s, fork, incoming) {
      forall k | fork < k < |r.blocks.candidate| ensures PoppableAt(r, k) {
        var i := k - fork - 1;
        assert incoming[i].header.hash == ins[i] && k == fork + 1 + i;
      }
    }
    if Poppable(r, fork) {
      forall i | 0 <= i < |incoming| && incoming[i].header.hash in s.blocks.rows
        ensures StoredApart(s, fork, incoming[i].header.hash)
      {
        assert PoppableAt(r, fork + 1 + i) && ins[i] == incoming[i].header.hash;
      }
    }
    assert Reorganize(s, fork, incoming).state == r;
  }

  /** When every incoming header is new, undoing owes nothing. */
  lemma NewHeadersCanBeUndone(s: State, fork: nat, incoming: seq<Incoming>)
    requires Inv(s) && fork < |s.blocks.candidate| && PopsOwed(s, fork)
    requires PushesOwed(PopAbove(s, fork).state, incoming, fork + 1)
    requires forall i :: 0 <= i < |incoming| ==> incoming[i].header.hash !in s.blocks.rows
    ensures IncomingApart(s, fork, incoming) && PopsOwed(Reorganize(s, fork, incoming).state, fork)
  {
    hide Inv;
    hide PopsOwed;
    hide PushesOwed;
    hide Reorganize;
    UndoIsOwedExactly(s, fork, incoming);
  }

  /** Reorganizing headers back restores the candidate index. It restores a header row exactly when the
      header, if it was popped, had its candidate bit, and is not that of a confirmed block that was brought
      in: the former gains the candidate bit, the latter loses the confirmed one. */
  lemma ReorganizeIsUndone(s: State, fork: nat, incoming: seq<Incoming>)
    requires Inv(s) && fork < |s.blocks.candidate| && PopsOwed(s, fork)
    requires PushesOwed(PopAbove(s, fork).state, incoming, fork + 1)
    requires IncomingApart(s, fork, incoming)
    ensures var there := Reorganize(s, fork, incoming);
            var back := Reorganize(there.state, fork, AsKnown(there.outgoing));
            && back.ok && Inv(back.state)
            && back.state.blocks.candidate == s.blocks.candidate
            && back.state.blocks.confirmed == s.blocks.confirmed
            && SameConstants(s.blocks, back.state.blocks) && SameChain(s, back.state)
            && back.state.marked == s.marked - HashSet(s.blocks.candidate[fork + 1..])
            && s.blocks.rows.Keys <= back.state.blocks.rows.Keys
            && forall x :: x in s.blocks.rows ==>
                 && back.state.blocks.rows[x].state == UndoneWord(s.blocks, x, fork, IncomingHashes(incoming))
                 && (back.state.blocks.rows[x] == s.blocks.rows[x]
                     <==> Restores(s.blocks, x, fork, IncomingHashes(incoming)))
  {
    hide Inv;
    hide PopsOwed;
    hide PushesOwed;
    hide Moved;
    hide SameConstants;
    hide UpdateConfirmation;
    hide IsConfirmed;
    hide IsCandidate;
    hide SameChain;
    hide HashSet;
    hide PushAll;
    hide PopAbove;
    hide IncomingApart;
    UndoIsOwedExactly(s, fork, incoming);
    var p := PopAbove(s, fork);
    PopAboveExact(s, fork);
    PushAllExact(p.state, incoming, fork + 1);
    var r := PushAll(p.state, incoming, fork + 1).state;
    PopAboveExact(r, fork);
    var u := PopAbove(r, fork).state;
    var outs, ins := s.blocks.candidate[fork + 1..], IncomingHashes(incoming);
    assert r.blocks.candidate[..fork + 1] == s.blocks.candidate[..fork + 1];
    assert r.blocks.candidate[fork + 1..] == ins;
    MovedKeepsConstants(s.blocks, p.state.blocks, HashSet(outs), false);
    MovedKeepsConstants(p.state.blocks, r.blocks, HashSet(ins), true);
    MovedKeepsConstants(r.blocks, u.blocks, HashSet(ins), false);
    SameConstantsTransitive(s.blocks, p.state.blocks, r.blocks);
    SameConstantsTransitive(s.blocks, r.blocks, u.blocks);
    SuffixIsOwed(s, u, p.outgoing, fork);
    PushAllExact(u, AsKnown(p.outgoing), fork + 1);
    var back := PushAll(u, AsKnown(p.outgoing), fork + 1).state;
    assert s.blocks.candidate[..fork + 1] + outs == s.blocks.candidate;
    assert s.blocks.candidate[fork + 1..fork + 1 + |p.outgoing|] == outs;
    MovedKeepsConstants(u.blocks, back.blocks, HashSet(IncomingHashes(AsKnown(p.outgoing))), true);
    SameConstantsTransitive(s.blocks, u.blocks, back.blocks);
    SameChainWithBlocks(p.state, r);
    SameChainTransitive(s, p.state, r);
    SameChainTransitive(s, r, u);
    SameChainWithBlocks(u, back);
    SameChainTransitive(s, u, back);
    MarkedBelow(s, fork, ins);
    RowsUndone(s, p.state.blocks, r.blocks, u.blocks, back.blocks, fork, ins);
  }

  /** The blocks that stay marked are below the fork. */
  lemma MarkedBelow(s: State, fork: nat, ins: seq<Hash>)
    requires Inv(s) && fork < |s.blocks.candidate|
    requires HashSet(ins) !! HashSet(s.blocks.candidate[..fork + 1])
    ensures var left := s.marked - HashSet(s.blocks.candidate[fork + 1..]); left - HashSet(ins) == left
  {
    MarkedAreCandidates(s);
    assert s.blocks.candidate == s.blocks.candidate[..fork + 1] + s.blocks.candidate[fork + 1..];
  }

  /** The header kept the bits that popping and pushing it again overwrites. */
  predicate Restores(b: Blocks, x: Hash, fork: nat, ins: seq<Hash>)
    requires x in b.rows && fork < |b.candidate|
  {
    && (x in b.candidate[fork + 1..] ==> IsCandidate(b.rows[x].state))
    && !(x in ins && IsConfirmed(b.rows[x].state))
  }

  /** What undoing leaves of a state word. */
  function UndoneWord(b: Blocks, x: Hash, fork: nat, ins: seq<Hash>): StateWord
    requires x in b.rows && fork < |b.candidate|
  {
    var word := b.rows[x].state;
    if x in b.candidate[fork + 1..] then UpdateConfirmation(word, true, true)
    else if x in ins then UpdateConfirmation(word, false, true)
    else word
  }

  lemma RowsUndone(s: State, b1: Blocks, b2: Blocks, b3: Blocks, b4: Blocks, fork: nat, ins: seq<Hash>)
    requires Inv(s) && fork < |s.blocks.candidate|
    requires var outs := HashSet(s.blocks.candidate[fork + 1..]);
             && Moved(s.blocks, b1, outs, false) && Moved(b1, b2, HashSet(ins), true)
             && Moved(b2, b3, HashSet(ins), false) && Moved(b3, b4, outs, true)
    requires HashSet(ins) !! HashSet(s.blocks.candidate[..fork + 1])
    ensures s.blocks.rows.Keys <= b4.rows.Keys && b4.confirmed == s.blocks.confirmed
    ensures forall x :: x in s.blocks.rows ==>
              && b4.rows[x].state == UndoneWord(s.blocks, x, fork, ins)
              && (b4.rows[x] == s.blocks.rows[x] <==> Restores(s.blocks, x, fork, ins))
  {
    CandidateInRows(s);
    forall x | x in s.blocks.rows
      ensures b4.rows[x].state == UndoneWord(s.blocks, x, fork, ins)
      ensures b4.rows[x] == s.blocks.rows[x] <==> Restores(s.blocks, x, fork, ins)
    {
      RowUndone(s.blocks, x, b1.rows[x], b2.rows[x], b3.rows[x], b4.rows[x], fork, ins);
    }
  }

  lemma RowUndone(b: Blocks, x: Hash, r1: BlockRow, r2: BlockRow, r3: BlockRow, r4: BlockRow, fork: nat, ins: seq<Hash>)
    requires x in b.rows && Words(b) && fork < |b.candidate|
    requires HashSet(ins) !! HashSet(b.candidate[..fork + 1])
    requires var out := x in b.candidate[fork + 1..];
             && r1 == (if out then b.rows[x].(state := UpdateConfirmation(b.rows[x].state, false, true)) else b.rows[x])
             && r2 == (if x in ins then r1.(state := UpdateConfirmation(r1.state, true, true)) else r1)
             && r3 == (if x in ins then r2.(state := UpdateConfirmation(r2.state, false, true)) else r2)
             && r4 == (if out then r3.(state := UpdateConfirmation(r3.state, true, true)) else r3)
    ensures r4.state == UndoneWord(b, x, fork, ins)
    ensures r4 == b.rows[x] <==> Restores(b, x, fork, ins)
  {
    hide UpdateConfirmation;
    hide Legal;
    hide IsCandidate;
    hide IsConfirmed;
    var word := b.rows[x].state;
    LastConfirmationWins(word, false, true, true, true);
    LastConfirmationWins(r1.state, true, true, false, true);
    LastConfirmationWins(r1.state, false, true, true, true);
    LastConfirmationWins(word, true, true, false, true);
    ConfirmationIsIdempotent(word);
    CandidateNotConfirmed(word);
    if x in ins && x in b.candidate {
      InAbove(b.candidate, ins, fork, x);
    }
  }

  lemma InAbove(index: seq<Hash>, ins: seq<Hash>, fork: nat, x: Hash)
    requires fork < |index| && x in index && x in ins
    requires HashSet(ins) !! HashSet(index[..fork + 1])
    ensures x in index[fork + 1..]
  {
    assert x in HashSet(ins) && x !in index[..fork + 1];
    assert index == index[..fork + 1] + index[fork + 1..];
  }

  lemma CandidateNotConfirmed(word: StateWord)
    requires Legal(word)
    ensures IsCandidate(word) ==> !IsConfirmed(word)
  {
  }
}
