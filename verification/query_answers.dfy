/** What the queries answer in every reachable state, in terms of the indexes and of what was handed in. */
module QueryAnswers {
  import opened Types
  import opened Record
  import opened BlockTable
  import opened TransactionTable
  import opened TransactionResult
  import opened Ledger
  import opened Agreement
  import opened CandidateSpends
  import opened ChainState
  import opened Invariants
  import opened Steps
  import opened Runs
  import opened CandidateFlags
  import opened Provenance
  import opened HeaderOrigins

  // ---------------------------------------------------------------- where a transaction sits

  /** The confirmed block at this height has the transaction at this place. */
  ghost predicate Sits(b: Blocks, h: Hash, k: nat, j: nat) {
    && k < |b.confirmed| && b.LinksInRange(b.confirmed[k])
    && j < |b.LinksOf(b.confirmed[k])| && b.LinksOf(b.confirmed[k])[j] == h
  }

  ghost predicate SitsNowhere(b: Blocks, h: Hash) {
    forall k: nat, j: nat :: !Sits(b, h, k, j)
  }

  lemma RunIsReachable(genesis: FullBlock, steps: seq<Step>)
    requires GenesisOwed(genesis) && LegalRun(PushGenesis(genesis).state, steps)
    ensures Reachable(Run(PushGenesis(genesis).state, steps))
  {
    hide PushGenesis;
    hide GenesisOwed;
    hide LegalRun;
    hide Run;
  }

  /** A transaction sits somewhere exactly when its position is real. */
  lemma PositionTellsWhere(s: State, h: Hash)
    requires Reachable(s) && h in s.table
    ensures s.table[h].HasPosition() ==> Sits(s.blocks, h, s.table[h].height, s.table[h].position)
    ensures !s.table[h].HasPosition() ==> SitsNowhere(s.blocks, h)
  {
    hide Reachable;
    ReachableInv(s);
    LocationIsOnTheIndex(s, h, s.table[h].height, s.table[h].position);
    forall k: nat, j: nat | Sits(s.blocks, h, k, j) ensures s.table[h].HasPosition() {
      PlacedOnIndex(s, k, j);
    }
  }

  // ---------------------------------------------------------------- the output query

  /** After every run from genesis, the query finds an output of a confirmed transaction exactly when the transaction
      is not that of genesis and has such an output. It answers with the height and the time of its block, whether it
      comes first in it, and whether the block is at or below the fork. */
  lemma ConfirmedAnswer(genesis: FullBlock, steps: seq<Step>, p: Point, fork: nat, k: nat, j: nat)
    requires GenesisOwed(genesis) && LegalRun(PushGenesis(genesis).state, steps)
    requires Sits(Run(PushGenesis(genesis).state, steps).blocks, p.hash, k, j)
    ensures var r := GetOutput(Run(PushGenesis(genesis).state, steps).table, p, fork);
            var first := FirstOf(AllGifts(genesis, steps), p.hash);
            && first.Some?
            && (r.Some? <==> !p.IsNull() && k != 0 && p.index < |first.value.tx.outputs|)
            && (r.Some? ==>
                 && r.value.height == k && r.value.time == TimeAt(genesis, steps, k)
                 && r.value.coinbase == (j == 0) && r.value.confirmed == (k <= fork))
  {
    hide PushGenesis;
    hide GenesisOwed;
    hide LegalRun;
    hide Run;
    hide Inv;
    hide FirstOf;
    hide AllGifts;
    hide TimeAt;
    var s := Run(PushGenesis(genesis).state, steps);
    GenesisEstablishesInv(genesis);
    RunKeepsInv(PushGenesis(genesis).state, steps);
    PlacedOnIndex(s, k, j);
    ChainHasItsTimes(genesis, steps, k);
    StoredIsFirstHandedIn(genesis, steps, p.hash);
  }

  /** After every run from genesis, the query finds an output of a transaction that is on no confirmed block exactly
      when it is stored and has such an output, but for one that was never confirmed and was handed in with forks of
      zero. It answers as unconfirmed, with the forks or, once deconfirmed, the unverified sentinel. */
  lemma PooledAnswer(genesis: FullBlock, steps: seq<Step>, p: Point, fork: nat)
    requires GenesisOwed(genesis) && LegalRun(PushGenesis(genesis).state, steps)
    requires SitsNowhere(Run(PushGenesis(genesis).state, steps).blocks, p.hash)
    ensures var r := GetOutput(Run(PushGenesis(genesis).state, steps).table, p, fork);
            var first, ever := FirstOf(AllGifts(genesis, steps), p.hash), EverConfirmed(genesis, steps, p.hash);
            && (r.Some? <==> !p.IsNull() && first.Some? && p.index < |first.value.tx.outputs|
                             && (ever || first.value.forks != 0))
            && (r.Some? ==>
                 && r.value.height == (if ever then UNVERIFIED else first.value.forks)
                 && r.value.time == NO_TIME && !r.value.coinbase && !r.value.confirmed)
  {
    hide PushGenesis;
    hide GenesisOwed;
    hide LegalRun;
    hide Run;
    hide Inv;
    hide FirstOf;
    hide AllGifts;
    hide EverConfirmed;
    hide SitsNowhere;
    hide Sits;
    var s := Run(PushGenesis(genesis).state, steps);
    RunHoldsFirst(genesis, steps);
    PositionTellsConfirmed(genesis, steps, p.hash);
    RunIsReachable(genesis, steps);
    if p.hash in s.table {
      PositionTellsWhere(s, p.hash);
      NotBoth(s.blocks, p.hash, s.table[p.hash].height, s.table[p.hash].position);
    }
  }

  lemma NotBoth(b: Blocks, h: Hash, k: nat, j: nat)
    requires SitsNowhere(b, h)
    ensures !Sits(b, h, k, j)
  {
  }

  /** A candidated block that is still on the candidate index spends the output. */
  ghost predicate MarkedOnIndex(s: State, p: Point) {
    exists x :: x in s.marked && x in s.blocks.candidate && s.blocks.LinksInRange(x)
                && p in BlockPoints(s.table, s.blocks.LinksOf(x))
  }

  /** After every run from genesis, what the query finds is the output handed in: its value and its script. The flags
      say whether a candidated block on the candidate index, and whether a confirmed one at or below the fork, spends
      it, and whether the run last moved its transaction by candidating it. */
  lemma AnswerIsOfOutput(genesis: FullBlock, steps: seq<Step>, p: Point, fork: nat)
    requires GenesisOwed(genesis) && LegalRun(PushGenesis(genesis).state, steps)
    requires GetOutput(Run(PushGenesis(genesis).state, steps).table, p, fork).Some?
    ensures var s0 := PushGenesis(genesis).state;
            var s := Run(s0, steps);
            var r, first := GetOutput(s.table, p, fork).value, FirstOf(AllGifts(genesis, steps), p.hash);
            && first.Some? && p.index < |first.value.tx.outputs|
            && r.cache.value == first.value.tx.outputs[p.index].value
            && r.cache.script == first.value.tx.outputs[p.index].script
            && (r.candidateSpent <==> MarkedOnIndex(s, p)) && r.cache.candidateSpent == r.candidateSpent
            && (r.confirmedSpent <==> SpentBelow(s, p, fork))
            && (forall k: nat :: k < |s.blocks.confirmed| ==> (r.cache.spender == k <==> SpentAt(s, p, k)))
            && (r.cache.spender == NOT_SPENT || r.cache.spender < |s.blocks.confirmed|)
            && (r.candidate <==> exists k :: LastCandidated(s0, steps, k, p.hash))
  {
    hide PushGenesis;
    hide GenesisOwed;
    hide LegalRun;
    hide Run;
    hide Reachable;
    hide FirstOf;
    hide AllGifts;
    hide LastCandidated;
    hide SpentBelow;
    hide BlockPoints;
    var s := Run(PushGenesis(genesis).state, steps);
    assert p == Point(p.hash, p.index);
    RunIsReachable(genesis, steps);
    StoredIsFirstHandedIn(genesis, steps, p.hash);
    CandidateSpentIsOnTheIndex(s, p.hash, p.index);
    CandidateFlagIsLastMove(genesis, steps, p.hash);
    SpenderTellsSpent(s, p, fork);
    SpenderTellsBlock(s, p);
  }

  lemma SpenderTellsBlock(s: State, p: Point)
    requires Reachable(s) && OutputExists(s.table, p)
    ensures var spender := s.table[p.hash].outputs[p.index].spender;
            && (forall k: nat :: k < |s.blocks.confirmed| ==> (spender == k <==> SpentAt(s, p, k)))
            && (spender == NOT_SPENT || spender < |s.blocks.confirmed|)
  {
    hide Reachable;
    hide SpentAt;
    hide Inv;
    assert p == Point(p.hash, p.index);
    ReachableInv(s);
    HeightsBelowSentinel(s);
    SpenderIsOnTheIndex(s, p.hash, p.index, 0);
    forall k: nat | k < |s.blocks.confirmed|
      ensures s.table[p.hash].outputs[p.index].spender == k <==> SpentAt(s, p, k)
    {
      SpenderIsThere(s, p, k);
    }
  }

  // ---------------------------------------------------------------- the spentness query

  /** After every run from genesis, the query reads a transaction as spent relative to a fork exactly when it may be
      spent and each of its outputs is. It may be: when the run last moved it by candidating it; when it sits in a
      confirmed block at or below the fork, one at the fork itself included; and when it was deconfirmed, for forks
      from the unverified sentinel on. An output is when a candidated block on the candidate index or a confirmed one
      at or below the fork spends it, and from the not-spent sentinel on, always. */
  lemma ReadsAsSpentExactly(genesis: FullBlock, steps: seq<Step>, h: Hash, fork: nat)
    requires GenesisOwed(genesis) && LegalRun(PushGenesis(genesis).state, steps)
    requires h in Run(PushGenesis(genesis).state, steps).table
    ensures var s0 := PushGenesis(genesis).state;
            var s := Run(s0, steps);
            var row := s.table[h];
            MayBeSpent(row, fork) && (forall o :: o in row.outputs ==> ReadsSpent(o, fork)) <==>
            && (|| (exists k :: LastCandidated(s0, steps, k, h))
                || (exists k: nat, j: nat :: Sits(s.blocks, h, k, j) && k <= fork)
                || (SitsNowhere(s.blocks, h) && EverConfirmed(genesis, steps, h) && UNVERIFIED <= fork))
            && forall i :: 0 <= i < |row.outputs| ==>
                 MarkedOnIndex(s, Point(h, i)) || SpentBelow(s, Point(h, i), fork) || NOT_SPENT <= fork
  {
    hide PushGenesis;
    hide GenesisOwed;
    hide LegalRun;
    hide Run;
    hide Reachable;
    hide LastCandidated;
    hide EverConfirmed;
    hide SitsNowhere;
    hide Sits;
    hide SpentBelow;
    hide MarkedOnIndex;
    var s := Run(PushGenesis(genesis).state, steps);
    var row := s.table[h];
    RunIsReachable(genesis, steps);
    CandidateFlagIsLastMove(genesis, steps, h);
    GuardInIndexes(genesis, steps, h, fork);
    forall i | 0 <= i < |row.outputs|
      ensures ReadsSpent(row.outputs[i], fork) <==>
              MarkedOnIndex(s, Point(h, i)) || SpentBelow(s, Point(h, i), fork) || NOT_SPENT <= fork
    {
      OutputReadsSpent(s, h, i, fork);
    }
    assert forall i :: 0 <= i < |row.outputs| ==> row.outputs[i] in row.outputs;
  }

  /** The part of the guard that is not the candidate flag. */
  lemma GuardInIndexes(genesis: FullBlock, steps: seq<Step>, h: Hash, fork: nat)
    requires GenesisOwed(genesis) && LegalRun(PushGenesis(genesis).state, steps)
    requires h in Run(PushGenesis(genesis).state, steps).table
    ensures var s := Run(PushGenesis(genesis).state, steps);
            s.table[h].position != UNCONFIRMED && s.table[h].height <= fork <==>
            || (exists k: nat, j: nat :: Sits(s.blocks, h, k, j) && k <= fork)
            || (SitsNowhere(s.blocks, h) && EverConfirmed(genesis, steps, h) && UNVERIFIED <= fork)
  {
    hide PushGenesis;
    hide GenesisOwed;
    hide LegalRun;
    hide Run;
    hide Reachable;
    hide Inv;
    hide FirstOf;
    hide AllGifts;
    hide EverConfirmed;
    hide SitsNowhere;
    hide Sits;
    var s := Run(PushGenesis(genesis).state, steps);
    var row := s.table[h];
    RunIsReachable(genesis, steps);
    RunHoldsFirst(genesis, steps);
    PositionTellsWhere(s, h);
    PositionTellsConfirmed(genesis, steps, h);
    forall k: nat, j: nat | Sits(s.blocks, h, k, j) ensures row.HasPosition() && row.height == k {
      SitsWhereStored(s, h, k, j);
    }
    if SitsNowhere(s.blocks, h) {
      NotBoth(s.blocks, h, row.height, row.position);
    }
  }

  lemma SitsWhereStored(s: State, h: Hash, k: nat, j: nat)
    requires Inv(s) && Sits(s.blocks, h, k, j)
    ensures h in s.table && s.table[h].HasPosition() && s.table[h].height == k && s.table[h].position == j
  {
    hide Inv;
    PlacedOnIndex(s, k, j);
  }

  lemma OutputReadsSpent(s: State, h: Hash, i: nat, fork: nat)
    requires Reachable(s) && h in s.table && i < |s.table[h].outputs|
    ensures ReadsSpent(s.table[h].outputs[i], fork) <==>
            MarkedOnIndex(s, Point(h, i)) || SpentBelow(s, Point(h, i), fork) || NOT_SPENT <= fork
  {
    hide Reachable;
    hide SpentBelow;
    hide BlockPoints;
    ReachableInv(s);
    HeightsBelowSentinel(s);
    CandidateSpentIsOnTheIndex(s, h, i);
    SpenderTellsSpent(s, Point(h, i), fork);
    SpenderIsOnTheIndex(s, h, i, 0);
  }
}
