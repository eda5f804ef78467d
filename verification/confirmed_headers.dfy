/** While the candidate index runs along the confirmed one, its headers can be popped. */
module ConfirmedHeaders {
  import opened Types
  import opened Record
  import opened BlockState
  import opened BlockTable
  import opened TransactionTable
  import opened Ledger
  import opened Agreement
  import opened CandidateSpends
  import opened ChainState
  import opened Invariants
  import opened Steps
  import opened Runs
  import Headers = HeaderReorganization

  /** No two blocks of a valid chain spend the same output. */
  lemma SpendsAreDisjoint(chain: seq<Block>, j: nat, k: nat)
    requires ValidChain(chain) && j < |chain| && k < |chain| && j != k
    ensures AllSpends(chain[j].txs) !! AllSpends(chain[k].txs)
  {
    hide ValidChain;
    hide Summarize;
    hide AllSpends;
    forall p ensures !(p in AllSpends(chain[j].txs) && p in AllSpends(chain[k].txs)) {
      SpentWhereItIsSpent(chain, p, j);
      SpentWhereItIsSpent(chain, p, k);
    }
  }

  /** A confirmed block spends what the chain says, and the outputs it spends are stored. */
  lemma ConfirmedIsReady(s: State, k: nat)
    requires Inv(s) && k < |s.blocks.confirmed|
    ensures |s.chain| == |s.blocks.confirmed| && s.blocks.LinksInRange(s.blocks.confirmed[k])
    ensures BlockPoints(s.table, s.blocks.LinksOf(s.blocks.confirmed[k])) == AllSpends(s.chain[k].txs)
    ensures LinksReady(s.table, s.blocks.LinksOf(s.blocks.confirmed[k]))
  {
    hide Indexed;
    hide Marks;
    hide ValidChain;
    hide Summarize;
    hide AllSpends;
    hide BlockPoints;
    assert TiedAt(s, k);
    var links := s.blocks.LinksOf(s.blocks.confirmed[k]);
    BlockPointsAreSpends(s.table, s.chain[k].txs);
    StoredLinksOf(s.table, s.chain[k].txs);
    forall p | p in BlockPoints(s.table, links) ensures OutputExists(s.table, p) {
      SpentWhereItIsSpent(s.chain, p, k);
      assert WasConfirmed(s.table, p);
    }
  }

  lemma TopCanBePopped(s: State)
    requires Inv(s) && s.blocks.candidate <= s.blocks.confirmed && |s.blocks.candidate| >= 2
    ensures PopHeaderOwed(s)
    ensures LinksReady(s.table, s.blocks.LinksOf(s.blocks.candidate[|s.blocks.candidate| - 1]))
  {
    hide LinksReady;
    hide BlockPoints;
    hide AllSpends;
    hide Inv;
    var n := |s.blocks.candidate| - 1;
    ConfirmedIsReady(s, n);
    ChainIsValid(s);
    forall y | y in s.marked && y != s.blocks.candidate[n] && s.blocks.LinksInRange(y)
      ensures BlockPoints(s.table, s.blocks.LinksOf(y)) !! BlockPoints(s.table, s.blocks.LinksOf(s.blocks.candidate[n]))
    {
      var j :| 0 <= j < |s.blocks.candidate| && s.blocks.candidate[j] == y;
      ConfirmedIsReady(s, j);
      SpendsAreDisjoint(s.chain, j, n);
    }
  }

  lemma ChainIsValid(s: State)
    requires Inv(s)
    ensures ValidChain(s.chain) && |s.chain| == |s.blocks.confirmed|
    ensures forall y :: y in s.marked ==> y in s.blocks.candidate
  {
    MarkedAreCandidates(s);
  }

  /** While the candidate index runs along the confirmed one, its headers can be popped down to any fork. */
  lemma {:induction false} ConfirmedHeadersCanBePopped(s: State, fork: nat)
    requires Inv(s) && s.blocks.candidate <= s.blocks.confirmed
    ensures Headers.PopsOwed(s, fork)
    decreases |s.blocks.candidate|
  {
    hide Inv;
    hide LinksReady;
    hide PopHeader;
    hide PopHeaderOwed;
    hide Headers.SameChain;
    var n := |s.blocks.candidate| - 1;
    if n > fork {
      TopCanBePopped(s);
      Headers.PopOne(s);
      ConfirmedHeadersCanBePopped(PopHeader(s, n).state, fork);
    }
  }
}
