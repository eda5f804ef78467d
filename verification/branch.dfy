/** A branch of new blocks: what makes it valid, and pushing its headers. */
module Branch {
  import opened Types
  import opened Record
  import opened BlockState
  import opened BlockTable
  import opened TransactionTable
  import opened Ledger
  import opened Agreement
  import opened CandidateSpends
  import opened ChainState
  import opened Invariants
  import opened Steps
  import opened Runs
  import Headers = HeaderReorganization

  function AsTx(tx: Transaction): Tx {
    Tx(tx.hash, seq(|tx.inputs|, i requires 0 <= i < |tx.inputs| => tx.inputs[i].point), |tx.outputs|)
  }

  /** The ledger's view of a block. */
  function AsBlock(block: FullBlock): (r: Block)
    ensures |r.txs| == |block.txs| && Links(r.txs) == block.TxLinks()
  {
    Block(seq(|block.txs|, i requires 0 <= i < |block.txs| => AsTx(block.txs[i])), block.time)
  }

  function AsBlocks(branch: seq<FullBlock>): (chain: seq<Block>)
    ensures |chain| == |branch|
  {
    seq(|branch|, i requires 0 <= i < |branch| => AsBlock(branch[i]))
  }

  function HashOf(branch: seq<FullBlock>, first: Hash, i: nat): Hash
    requires i <= |branch|
  {
    if i == 0 then first else branch[i - 1].header.hash
  }

  function LinkCount(branch: seq<FullBlock>): nat {
    if branch == [] then 0 else LinkCount(branch[..|branch| - 1]) + |branch[|branch| - 1].txs|
  }

  /** Distinct new headers, each the child of the one before, the first the child of a given block. */
  ghost predicate NewHeaders(b: Blocks, branch: seq<FullBlock>, first: Hash) {
    && (forall i :: 0 <= i < |branch| ==>
         && branch[i].header.hash !in b.rows && branch[i].header.hash != NULL_HASH
         && branch[i].header.previous == HashOf(branch, first, i))
    && (forall i, j :: 0 <= i < j < |branch| ==> branch[i].header.hash != branch[j].header.hash)
  }

  /** A transaction that is stored already is the same one: hashes identify transactions. */
  ghost predicate Identified(t: Table, txs: seq<Transaction>) {
    forall tx :: tx in txs && tx.hash in t ==> Stored(t, AsTx(tx))
  }

  /** A branch of new blocks on a block of the confirmed chain that would be valid there. */
  ghost predicate NewValidBranch(s: State, fork: nat, branch: seq<FullBlock>) {
    && fork < |s.blocks.candidate| && fork < |s.chain| == |s.blocks.confirmed|
    && NewHeaders(s.blocks, branch, s.blocks.confirmed[fork])
    && ValidChain(s.chain[..fork + 1] + AsBlocks(branch))
    && (forall block :: block in branch ==> Identified(s.table, block.txs))
    && |s.blocks.links| + LinkCount(branch) <= MAX_UINT32
  }

  function Incomings(branch: seq<FullBlock>): (headers: seq<Headers.Incoming>)
    ensures |headers| == |branch|
  {
    seq(|branch|, i requires 0 <= i < |branch| => Headers.Incoming(branch[i].header, false, branch[i].time))
  }

  // ---------------------------------------------------------------- pushing the headers

  /** The header is stored, without transactions, and has not failed. */
  ghost predicate Fresh(b: Blocks, header: Header) {
    && header.hash in b.rows && b.rows[header.hash].previous == header.previous
    && b.rows[header.hash].count == 0 && !IsFailed(b.rows[header.hash].state)
  }

  ghost predicate AllFresh(b: Blocks, branch: seq<FullBlock>, from: nat) {
    forall i :: from <= i < |branch| ==> Fresh(b, branch[i].header)
  }

  lemma PushFresh(s: State, block: FullBlock, height: nat)
    requires Inv(s) && PushHeaderOwed(s, block.header, false, height)
    ensures var u := PushHeader(s, block.header, false, height, block.time).state;
            && Fresh(u.blocks, block.header)
            && u.blocks.rows.Keys == s.blocks.rows.Keys + {block.header.hash}
            && forall x :: x in s.blocks.rows ==> u.blocks.rows[x] == s.blocks.rows[x]
  {
    hide Inv;
    hide UpdateConfirmation;
    hide IsFailed;
    ConfirmationBits(CANDIDATE, true, true);
    CandidateHasNotFailed();
  }

  lemma CandidateHasNotFailed()
    ensures !IsFailed(CANDIDATE)
  {
  }

  function HeaderHashes(branch: seq<FullBlock>): set<Hash> {
    set block | block in branch :: block.header.hash
  }

  /** New headers can be pushed onto the top of the candidate index. */
  lemma {:induction false} NewHeadersAreOwed(s: State, branch: seq<FullBlock>)
    requires Inv(s) && NewHeaders(s.blocks, branch, Top(s))
    requires |s.blocks.candidate| + |branch| <= MAX_HEIGHT + 1
    ensures Headers.PushesOwed(s, Incomings(branch), |s.blocks.candidate|)
    ensures var u := Headers.PushAll(s, Incomings(branch), |s.blocks.candidate|).state;
            && AllFresh(u.blocks, branch, 0)
            && u.blocks.rows.Keys == s.blocks.rows.Keys + HeaderHashes(branch)
    decreases |branch|
  {
    hide Inv;
    hide NewHeaders;
    hide HeaderHashes;
    hide AllFresh;
    hide PushHeader;
    hide PushHeaderOwed;
    hide Headers.PushAll;
    hide Headers.PushesOwed;
    hide Headers.Moved;
    hide Headers.HashSet;
    var first := |s.blocks.candidate|;
    if branch == [] {
      NoHeaders(s, branch, first);
    } else {
      var n := |branch| - 1;
      var front := branch[..n];
      FrontIsNew(s.blocks, branch, Top(s));
      NewHeadersAreOwed(s, front);
      Headers.PushAllExact(s, Incomings(front), first);
      var v := Headers.PushAll(s, Incomings(front), first).state;
      NotEmpty(s);
      LastHeaderIsOwed(s, v, branch);
      PushFresh(v, branch[n], first + n);
      LastPushed(s, branch, first);
      FreshWithLast(s, v, PushHeader(v, branch[n].header, false, first + n, branch[n].time).state, branch);
    }
  }

  lemma NotEmpty(s: State)
    requires Inv(s)
    ensures s.blocks.candidate != []
  {
  }

  function Top(s: State): Hash {
    if s.blocks.candidate == [] then NULL_HASH else s.blocks.candidate[|s.blocks.candidate| - 1]
  }

  lemma NoHeaders(s: State, branch: seq<FullBlock>, first: nat)
    requires branch == []
    ensures Headers.PushesOwed(s, Incomings(branch), first) && HeaderHashes(branch) == {}
    ensures Headers.PushAll(s, Incomings(branch), first) == Done(true, s) && AllFresh(s.blocks, branch, 0)
  {
  }

  /** Pushing a branch is pushing its front and then its last header. */
  lemma LastPushed(s: State, branch: seq<FullBlock>, first: nat)
    requires branch != []
    requires var n := |branch| - 1;
             && Headers.PushesOwed(s, Incomings(branch[..n]), first)
             && Headers.PushAll(s, Incomings(branch[..n]), first).ok
             && PushHeaderOwed(Headers.PushAll(s, Incomings(branch[..n]), first).state, branch[n].header, false,
                               first + n)
    ensures Headers.PushesOwed(s, Incomings(branch), first)
    ensures var n := |branch| - 1;
            Headers.PushAll(s, Incomings(branch), first)
            == PushHeader(Headers.PushAll(s, Incomings(branch[..n]), first).state, branch[n].header, false,
                          first + n, branch[n].time)
  {
    hide PushHeaderOwed;
    hide PushHeader;
    var n := |branch| - 1;
    assert Incomings(branch)[..n] == Incomings(branch[..n]);
  }

  lemma FreshWithLast(s: State, v: State, u: State, branch: seq<FullBlock>)
    requires branch != []
    requires var front, header := branch[..|branch| - 1], branch[|branch| - 1].header;
             && AllFresh(v.blocks, front, 0) && Fresh(u.blocks, header)
             && v.blocks.rows.Keys == s.blocks.rows.Keys + HeaderHashes(front)
             && u.blocks.rows.Keys == v.blocks.rows.Keys + {header.hash}
    requires forall x :: x in v.blocks.rows ==> u.blocks.rows[x] == v.blocks.rows[x]
    ensures AllFresh(u.blocks, branch, 0) && u.blocks.rows.Keys == s.blocks.rows.Keys + HeaderHashes(branch)
  {
    hide Fresh;
    hide HeaderHashes;
    var n := |branch| - 1;
    var front := branch[..n];
    HeaderHashesLast(branch);
    forall i | 0 <= i < |branch| ensures Fresh(u.blocks, branch[i].header) {
      if i < n {
        assert front[i] == branch[i];
        FreshStays(v.blocks, u.blocks, branch[i].header);
      }
    }
  }

  lemma HeaderHashesLast(branch: seq<FullBlock>)
    requires branch != []
    ensures HeaderHashes(branch) == HeaderHashes(branch[..|branch| - 1]) + {branch[|branch| - 1].header.hash}
  {
    assert branch == branch[..|branch| - 1] + [branch[|branch| - 1]];
  }

  lemma FreshStays(b: Blocks, c: Blocks, header: Header)
    requires Fresh(b, header)
    requires b.rows.Keys <= c.rows.Keys && forall x :: x in b.rows ==> c.rows[x] == b.rows[x]
    ensures Fresh(c, header)
  {
  }

  lemma FrontIsNew(b: Blocks, branch: seq<FullBlock>, first: Hash)
    requires NewHeaders(b, branch, first) && branch != []
    ensures NewHeaders(b, branch[..|branch| - 1], first)
  {
    var front := branch[..|branch| - 1];
    forall i | 0 <= i < |front| ensures front[i].header.previous == HashOf(front, first, i) {
      assert front[i] == branch[i];
    }
  }

  /** The last hash is that of none of the other headers and of no stored block. */
  lemma LastIsNew(b: Blocks, branch: seq<FullBlock>, first: Hash)
    requires NewHeaders(b, branch, first) && branch != []
    ensures var n := |branch| - 1;
            && branch[n].header.hash !in b.rows.Keys + HeaderHashes(branch[..n])
            && branch[n].header.hash != NULL_HASH
  {
    var n := |branch| - 1;
    forall block | block in branch[..n] ensures block.header.hash != branch[n].header.hash {
      var i :| 0 <= i < n && branch[..n][i] == block;
      assert branch[i] == block;
    }
  }

  /** With the other headers pushed, the top of the index is the parent of the last. */
  lemma LastFollows(s: State, index: seq<Hash>, branch: seq<FullBlock>)
    requires branch != [] && s.blocks.candidate != [] && NewHeaders(s.blocks, branch, Top(s))
    requires index == s.blocks.candidate + Headers.IncomingHashes(Incomings(branch[..|branch| - 1]))
    ensures PreviousBlock(index, |index|) == branch[|branch| - 1].header.previous
  {
    hide NewHeaders;
    hide Headers.IncomingHashes;
    hide Incomings;
    var n := |branch| - 1;
    ParentOfLast(s.blocks, branch, Top(s));
    LastHash(branch[..n]);
  }

  lemma ParentOfLast(b: Blocks, branch: seq<FullBlock>, first: Hash)
    requires branch != [] && NewHeaders(b, branch, first)
    ensures var n := |branch| - 1;
            branch[n].header.previous == if n == 0 then first else branch[n - 1].header.hash
  {
    assert branch[|branch| - 1].header.previous == HashOf(branch, first, |branch| - 1);
  }

  lemma LastHash(branch: seq<FullBlock>)
    ensures var hashes := Headers.IncomingHashes(Incomings(branch));
            |hashes| == |branch| && (branch != [] ==> hashes[|branch| - 1] == branch[|branch| - 1].header.hash)
  {
  }

  lemma LastHeaderIsOwed(s: State, v: State, branch: seq<FullBlock>)
    requires branch != [] && s.blocks.candidate != [] && NewHeaders(s.blocks, branch, Top(s))
    requires |s.blocks.candidate| + |branch| <= MAX_HEIGHT + 1
    requires var front := branch[..|branch| - 1];
             && v.blocks.candidate == s.blocks.candidate + Headers.IncomingHashes(Incomings(front))
             && v.blocks.rows.Keys == s.blocks.rows.Keys + HeaderHashes(front)
    ensures var n := |branch| - 1;
            PushHeaderOwed(v, branch[n].header, false, |s.blocks.candidate| + n)
  {
    hide NewHeaders;
    hide HeaderHashes;
    LastIsNew(s.blocks, branch, Top(s));
    LastFollows(s, v.blocks.candidate, branch);
  }
}
