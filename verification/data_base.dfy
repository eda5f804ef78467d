/** The database: the block and transaction databases, driven through every write operation. */
module DataBase {
  import opened Types
  import opened Serial
  import opened Record
  import opened RecordAccess
  import opened BlockState
  import opened BlockTable
  import opened BlockDatabase
  import opened TransactionTable
  import opened TransactionDatabase
  import opened Ledger
  import opened Agreement
  import opened CandidateSpends
  import opened ChainState
  import opened Invariants
  import opened Steps
  import Runs
  import Reorganization
  import HeaderReorganization
  import FilterCheckpoints

  /** Every field of the block fits the width a record gives it. */
  ghost predicate Fits(block: FullBlock) {
    && block.time <= MAX_UINT32 && |block.txs| <= MAX_BLOCK_TXS
    && forall tx :: tx in block.txs ==> WellFormed(NewRow(tx, UNVERIFIED, NO_TIME, UNCONFIRMED))
  }

  /** The block database once the genesis block is stored, before it is confirmed. */
  function GenesisStored(genesis: FullBlock): Blocks {
    var hash := genesis.header.hash;
    var stored := Promote(StoreHeader(NO_BLOCKS, genesis.header, 0, genesis.time), hash, 0, true).blocks;
    UpdateTransactions(stored, hash, genesis.TxLinks()).blocks
  }

  lemma StoredGenesis(genesis: FullBlock)
    requires Runs.GenesisOwed(genesis)
    ensures var t := Each(map[], genesis.txs, Storing()).table;
            LinksStored(t, genesis.TxLinks()) && |genesis.TxLinks()| == 1
  {
    hide Each;
    hide Agrees;
    hide ValidNext;
    Runs.GenesisTransactions(genesis);
  }

  class Store {
    const blocks: BlockStore
    const transactions: Transactions

    // History variables: the confirmed blocks, and the candidated blocks on the candidate index.
    ghost var chain: seq<Block>
    ghost var marked: set<Hash>

    ghost predicate Valid()
      reads this, blocks, transactions, transactions.records.Values
    {
      transactions.Valid()
    }

    ghost function View(): State
      reads this, blocks, transactions
    {
      State(blocks.View(), transactions.table, chain, marked)
    }

    /** An empty database. */
    constructor ()
      ensures Valid() && View() == State(NO_BLOCKS, map[], [], {})
      ensures fresh(blocks) && fresh(transactions) && fresh(transactions.records.Values)
    {
      blocks := new BlockStore();
      transactions := new Transactions();
      chain, marked := [], {};
    }

    /** Push the genesis block into the empty database: store, update, confirm, validate and promote it. */
    method Push(genesis: FullBlock) returns (ok: bool)
      requires Valid() && View() == State(NO_BLOCKS, map[], [], {})
      requires Runs.GenesisOwed(genesis) && Fits(genesis)
      modifies this, blocks, transactions
      ensures Valid() && Done(ok, View()) == PushGenesis(genesis)
      ensures ok && Inv(View())
    {
      hide Each;
      hide Holds;
      hide Inv;
      hide WellFormed;
      hide LedgerBlock;
      hide BlockTable.Promote;
      hide BlockTable.Validate;
      hide BlockTable.UpdateTransactions;
      hide StoreHeader;
      hide TransactionTable.ConfirmBlock;
      hide Agrees;
      hide ValidNext;
      Runs.GenesisEstablishesInv(genesis);
      ok := StoreGenesis(genesis);
      ghost var t := transactions.table;
      StoredGenesis(genesis);
      ok := transactions.ConfirmBlock(genesis.TxLinks(), 0, genesis.time);
      if !ok {
        return;
      }
      var validated := blocks.Validate(genesis.header.hash, 0);
      ok := blocks.Promote(genesis.header.hash, 0, false);
      chain := [LedgerBlock(t, genesis.TxLinks(), genesis.time)];
    }

    /** Store the header and the transactions of the genesis block, and its links. */
    method StoreGenesis(genesis: FullBlock) returns (ok: bool)
      requires Valid() && View() == State(NO_BLOCKS, map[], [], {}) && Fits(genesis)
      modifies blocks, transactions
      ensures Valid() && fresh(transactions.records.Values) && chain == [] && marked == {}
      ensures transactions.table == Each(map[], genesis.txs, Storing()).table
      ensures blocks.View() == GenesisStored(genesis)
    {
      hide Each;
      hide Holds;
      hide WellFormed;
      hide BlockTable.Promote;
      hide BlockTable.UpdateTransactions;
      hide StoreHeader;
      var hash := genesis.header.hash;
      assert transactions.records.Values == {};
      blocks.Store(genesis.header, 0, genesis.time);
      var promoted := blocks.Promote(hash, 0, true);
      ok := transactions.Store(genesis.txs);
      ok := blocks.UpdateTransactions(hash, genesis.TxLinks());
    }

    // -------------------------------------------------------------- store, update, validate

    /** Store an unconfirmed transaction that was verified under the given forks. */
    method StoreTransaction(tx: Transaction, forks: nat) returns (ok: bool)
      requires Valid() && WellFormed(NewRow(tx, forks, NO_TIME, UNCONFIRMED))
      modifies transactions
      ensures Valid() && Done(ok, View()) == ChainState.StoreTransaction(old(View()), tx, forks)
    {
      hide Holds;
      ok := transactions.Storize(tx, forks, NO_TIME, UNCONFIRMED);
    }

    /** Store what is missing of the block's transactions, then its links. */
    method Update(block: FullBlock, height: nat) returns (ok: bool)
      requires Valid() && Fits(block) && VerifyUpdate(View(), block, height)
      modifies blocks, transactions
      ensures Valid() && Done(ok, View()) == ChainState.Update(old(View()), block)
    {
      hide Holds;
      hide Each;
      hide WellFormed;
      hide BlockTable.UpdateTransactions;
      ok := transactions.Store(block.txs);
      ok := blocks.UpdateTransactions(block.header.hash, block.TxLinks());
    }

    method Invalidate(hash: Hash, error: nat) returns (ok: bool)
      requires Valid()
      modifies blocks
      ensures Valid() && Done(ok, View()) == ChainState.Invalidate(old(View()), hash, error)
    {
      hide Holds;
      hide BlockTable.Validate;
      ok := blocks.Validate(hash, error);
    }

    // -------------------------------------------------------------- candidates

    /** Mark or unmark the transactions at these links, and the outputs they spend, as candidate. */
    method MarkTransactions(links: seq<Hash>, positive: bool) returns (ok: bool)
      requires Valid() && LinksStored(transactions.table, links)
      modifies transactions`table, transactions.records.Values
      ensures Valid()
      ensures Outcome(ok, transactions.table) == Each(old(transactions.table), links, Candidating(positive))
    {
      hide TransactionTable.Candidate;
      hide Each;
      hide Holds;
      ghost var t, step := transactions.table, Candidating(positive);
      EachNothing(t, links, step);
      for i := 0 to |links|
        invariant Valid() && Outcome(true, transactions.table) == Each(t, links[..i], step)
        invariant transactions.table.Keys == t.Keys
      {
        EachTake(t, links, i, step);
        ok := transactions.Candidate(links[i], positive);
        if !ok {
          EachStops(t, links, i + 1, step);
          return;
        }
      }
      assert links[..|links|] == links;
      ok := true;
    }

    /** Mark a candidate block as valid, and its transactions and the outputs they spend as candidate. */
    method Candidate(block: FullBlock) returns (ok: bool)
      requires Valid() && LinksStored(transactions.table, block.TxLinks())
      modifies this, blocks, transactions`table, transactions.records.Values
      ensures Valid() && Done(ok, View()) == CandidateBlock(old(View()), block)
    {
      hide Each;
      hide BlockTable.Validate;
      hide Holds;
      ok := blocks.Validate(block.header.hash, 0);
      if !ok {
        ValidateFails(old(View()).blocks, block.header.hash);
        return;
      }
      ok := MarkTransactions(block.TxLinks(), true);
      if ok {
        marked := marked + {block.header.hash};
      }
    }

    // -------------------------------------------------------------- headers

    /** Push the next header onto the candidate index, storing it unless it exists. */
    method PushHeader(header: Header, known: bool, height: nat, time: nat)
      requires Valid()
      modifies blocks
      ensures Valid() && Done(true, View()) == ChainState.PushHeader(old(View()), header, known, height, time)
    {
      hide Holds;
      hide BlockTable.Promote;
      hide StoreHeader;
      if !known {
        blocks.Store(header, height, time);
      }
      var promoted := blocks.Promote(header.hash, height, true);
    }

    /** Pop the header at the top of the candidate index. */
    method PopHeader(height: nat) returns (ok: bool, header: Header)
      requires Valid() && Inv(View())
      modifies this, blocks, transactions`table, transactions.records.Values
      ensures Valid() && Done(ok, View()) == ChainState.PopHeader(old(View()), height)
      ensures ok ==> header == HeaderReorganization.TopHeader(old(View()).blocks)
    {
      hide Each;
      hide Holds;
      hide Inv;
      hide SetConfirmation;
      header := Header(NULL_HASH, NULL_HASH);
      var read := blocks.ReadLink(height, true);
      if read.None? {
        return false, header;
      }
      var hash := read.value;
      IndexedBlock(View(), hash);
      var links := blocks.VisitLinks(hash);
      header := Header(hash, blocks.rows[hash].previous);
      ok := MarkTransactions(links, false);
      if !ok {
        return;
      }
      ok := blocks.Demote(hash, height, true);
      if ok {
        marked := marked - {hash};
      }
    }

    /** Pop the candidate index down to the fork. */
    method PopHeadersAbove(fork: nat) returns (ok: bool, outgoing: seq<Header>)
      requires Valid() && Inv(View()) && fork < |View().blocks.candidate|
      requires HeaderReorganization.PopsOwed(View(), fork)
      modifies this, blocks, transactions`table, transactions.records.Values
      ensures Valid()
      ensures var p := HeaderReorganization.PopAbove(old(View()), fork);
              ok == p.ok && View() == p.state && (ok ==> outgoing == p.outgoing)
    {
      hide Inv;
      hide Holds;
      hide ChainState.PopHeader;
      hide PopHeaderOwed;
      hide LinksReady;
      hide HeaderReorganization.Moved;
      hide HeaderReorganization.TopHeader;
      hide HeaderReorganization.PopAbove;
      hide PoppingHeaders;
      outgoing := [];
      ok := true;
      ghost var s := View();
      HeadersToPop(s, fork);
      var top := blocks.Top(true);
      var height := top.value;
      while height > fork
        invariant Valid() && Inv(View()) && fork <= height && |View().blocks.candidate| == height + 1
        invariant HeaderReorganization.PopsOwed(View(), fork) && PoppingHeaders(s, View(), fork, outgoing)
      {
        ghost var u := View();
        var header;
        ok, header := PopHeader(height);
        OneHeaderPopped(s, u, fork, outgoing);
        if !ok {
          return;
        }
        HeaderReorganization.PopOne(u);
        outgoing := [header] + outgoing;
        height := height - 1;
      }
      HeadersPopped(s, View(), fork, outgoing);
      ok := true;
    }

    /** Push headers onto the fork point. */
    method PushHeaders(headers: seq<HeaderReorganization.Incoming>, first: nat) returns (ok: bool)
      requires Valid()
      modifies blocks
      ensures Valid() && Done(ok, View()) == HeaderReorganization.PushAll(old(View()), headers, first)
    {
      hide ChainState.PushHeader;
      for i := 0 to |headers|
        invariant Valid() && Done(true, View()) == HeaderReorganization.PushAll(old(View()), headers[..i], first)
      {
        assert headers[..i + 1][..i] == headers[..i];
        PushHeader(headers[i].header, headers[i].known, first + i, headers[i].time);
      }
      assert headers[..|headers|] == headers;
      ok := true;
    }

    /** Replace the headers above the fork; an overflowing height is refused and changes nothing. */
    method ReorganizeHeaders(fork: nat, incoming: seq<HeaderReorganization.Incoming>)
      returns (ok: bool, outgoing: seq<Header>)
      requires Valid() && Inv(View()) && fork < |View().blocks.candidate|
      requires HeaderReorganization.PopsOwed(View(), fork)
      requires HeaderReorganization.PushesOwed(HeaderReorganization.PopAbove(View(), fork).state, incoming, fork + 1)
      modifies this, blocks, transactions`table, transactions.records.Values
      ensures Valid() && Inv(View()) && (ok <==> fork + |incoming| <= MAX_UINT64)
      ensures !ok ==> View() == old(View())
      ensures ok ==>
                && HeaderReorganization.Popped(ok, View(), outgoing)
                   == HeaderReorganization.Reorganize(old(View()), fork, incoming)
                && View().blocks.candidate
                   == old(View()).blocks.candidate[..fork + 1] + HeaderReorganization.IncomingHashes(incoming)
                && HeaderReorganization.OutgoingIs(old(View()).blocks, outgoing, fork)
    {
      hide Inv;
      hide HeaderReorganization.PopsOwed;
      hide HeaderReorganization.PushesOwed;
      hide HeaderReorganization.OutgoingIs;
      if fork > MAX_UINT64 - |incoming| {
        return false, [];
      }
      HeaderReorganization.ReorganizeExact(View(), fork, incoming);
      ok, outgoing := PopHeadersAbove(fork);
      if ok {
        ok := PushHeaders(incoming, fork + 1);
      }
    }

    // -------------------------------------------------------------- blocks

    /** Confirm the transactions of a block, then push it onto the confirmed index. */
    method PushBlock(block: FullBlock, height: nat) returns (ok: bool)
      requires Valid() && LinksStored(transactions.table, block.TxLinks())
      requires height <= MAX_UINT32 && block.time <= MAX_UINT32 && |block.txs| <= MAX_BLOCK_TXS
      modifies this, blocks, transactions`table, transactions.records.Values
      ensures Valid() && Done(ok, View()) == ChainState.PushBlock(old(View()), block, height)
    {
      hide Holds;
      hide TransactionTable.ConfirmBlock;
      hide SetConfirmation;
      hide LedgerBlock;
      ok := transactions.ConfirmBlock(block.TxLinks(), height, block.time);
      if !ok {
        return;
      }
      ok := blocks.Promote(block.header.hash, height, false);
      if ok {
        chain := chain + [LedgerBlock(old(transactions.table), block.TxLinks(), block.time)];
      }
    }

    /** Confirm a stored block by its hash alone, without reading its transactions. */
    method Confirm(hash: Hash, height: nat) returns (ok: bool)
      requires Valid() && Inv(View()) && hash in View().blocks.rows
      requires height <= MAX_UINT32 && View().blocks.rows[hash].time <= MAX_UINT32
      requires View().blocks.rows[hash].count <= MAX_BLOCK_TXS
      modifies this, blocks, transactions`table, transactions.records.Values
      ensures Valid() && Done(ok, View()) == ConfirmHash(old(View()), hash, height)
    {
      hide Holds;
      hide Inv;
      hide TransactionTable.ConfirmBlock;
      hide SetConfirmation;
      hide LedgerBlock;
      StoredBlock(View(), hash);
      var links := blocks.VisitLinks(hash);
      var time := blocks.rows[hash].time;
      ok := transactions.ConfirmBlock(links, height, time);
      if !ok {
        return;
      }
      ok := blocks.Promote(hash, height, false);
      if ok {
        chain := chain + [LedgerBlock(old(transactions.table), links, time)];
      }
    }

    /** Read a transaction back from the bytes of its record. */
    method ReadTransaction(link: Hash) returns (tx: Transaction)
      requires Valid() && link in transactions.table
      ensures tx == Reread(link, transactions.table[link])
      ensures tx.hash == link && Carries(transactions.table[link], tx)
    {
      hide Decode;
      hide Encode;
      hide WellFormed;
      assert Holds(transactions.records[link], transactions.table[link]);
      RoundTrip(transactions.table[link]);
      var row := Decode(transactions.records[link][..]);
      tx := Reread(link, row.value);
    }

    method ReadTransactions(links: seq<Hash>) returns (txs: seq<Transaction>)
      requires Valid() && LinksStored(transactions.table, links)
      ensures |txs| == |links|
      ensures forall i :: 0 <= i < |links| ==> txs[i] == Reread(links[i], transactions.table[links[i]])
      ensures forall i :: 0 <= i < |links| ==> txs[i].hash == links[i] && Carries(transactions.table[links[i]], txs[i])
    {
      hide Holds;
      hide Reread;
      txs := [];
      for i := 0 to |links|
        invariant |txs| == i
        invariant forall j :: 0 <= j < i ==> txs[j] == Reread(links[j], transactions.table[links[j]])
      {
        var tx := ReadTransaction(links[i]);
        txs := txs + [tx];
      }
    }

    /** Read back the block at a height of the confirmed index; its header comes without metadata. */
    method ReadBlock(hash: Hash, links: seq<Hash>, ghost height: nat) returns (block: FullBlock)
      requires Valid() && height < |View().blocks.confirmed| && hash == View().blocks.confirmed[height]
      requires View().blocks.LinksInRange(hash) && links == View().blocks.LinksOf(hash)
      requires LinksStored(transactions.table, links)
      ensures height + 1 == |View().blocks.confirmed| ==> block == Reorganization.RereadTop(View())
    {
      hide Holds;
      hide Reread;
      hide Reorganization.RereadTop;
      var txs := ReadTransactions(links);
      block := FullBlock(Header(hash, blocks.rows[hash].previous), NO_TIME, txs);
      IsRereadTop(View(), height, block);
    }

    /** Pop the block at the top of the confirmed index. */
    method PopBlock(height: nat) returns (ok: bool, block: FullBlock)
      requires Valid() && Inv(View())
      modifies this, blocks, transactions`table, transactions.records.Values
      ensures Valid() && Done(ok, View()) == ChainState.PopBlock(old(View()), height)
      ensures ok ==> block == Reorganization.RereadTop(old(View()))
    {
      hide Holds;
      hide Inv;
      hide Reread;
      hide TransactionTable.UnconfirmBlock;
      hide SetConfirmation;
      hide Reorganization.RereadTop;
      block := FullBlock(Header(NULL_HASH, NULL_HASH), NO_TIME, []);
      var read := blocks.ReadLink(height, false);
      if read.None? {
        return false, block;
      }
      var hash := read.value;
      ghost var s := View();
      IndexedBlock(s, hash);
      var links := blocks.VisitLinks(hash);
      block := ReadBlock(hash, links, height);
      ok := transactions.UnconfirmBlock(links);
      if !ok {
        return;
      }
      ok := blocks.Demote(hash, height, false);
      if ok && chain != [] {
        chain := chain[..|chain| - 1];
      }
    }

    /** Pop the confirmed index down to the fork. */
    method PopBlocksAbove(fork: nat) returns (ok: bool, outgoing: seq<FullBlock>)
      requires Valid() && Inv(View()) && fork < |View().blocks.confirmed|
      modifies this, blocks, transactions`table, transactions.records.Values
      ensures Valid()
      ensures var p := Reorganization.PopAbove(old(View()), fork);
              ok == p.ok && View() == p.state && (ok ==> outgoing == p.outgoing)
    {
      hide Inv;
      hide Holds;
      hide ChainState.PopBlock;
      hide Reorganization.RereadTop;
      hide Reorganization.PopAbove;
      hide Reorganization.SameHeaders;
      hide Unmoved;
      hide Deconfirmed;
      hide PoppingBlocks;
      outgoing := [];
      ok := true;
      ghost var s := View();
      BlocksToPop(s, fork);
      var top := blocks.Top(false);
      var height := top.value;
      while height > fork
        invariant Valid() && Inv(View()) && fork <= height && |View().blocks.confirmed| == height + 1
        invariant PoppingBlocks(s, View(), fork, outgoing)
      {
        ghost var u := View();
        var block;
        ok, block := PopBlock(height);
        OneBlockPopped(s, u, fork, outgoing);
        if !ok {
          return;
        }
        Reorganization.PopOne(u);
        outgoing := [block] + outgoing;
        height := height - 1;
      }
      BlocksPopped(s, View(), fork, outgoing);
      ok := true;
    }

    /** Push blocks onto the fork point. */
    method PushBlocks(incoming: seq<FullBlock>, first: nat) returns (ok: bool)
      requires Valid() && Inv(View()) && Reorganization.AllOwed(View(), incoming, first)
      modifies this, blocks, transactions`table, transactions.records.Values
      ensures Valid() && Done(ok, View()) == Reorganization.PushAll(old(View()), incoming, first)
    {
      hide Holds;
      hide Inv;
      hide ChainState.PushBlock;
      hide Runs.PushBlockOwed;
      ghost var s := View();
      for i := 0 to |incoming|
        invariant Valid() && Inv(View())
        invariant Done(true, View()) == Reorganization.PushAll(s, incoming[..i], first)
      {
        ghost var u := View();
        OwedAt(s, incoming, first, i);
        assert incoming[..i + 1][..i] == incoming[..i];
        PushFits(u, incoming[i], first + i);
        ok := PushBlock(incoming[i], first + i);
        if !ok {
          PushStops(s, incoming, first, i + 1);
          return;
        }
        Reorganization.PushOne(u, incoming[i], first + i);
      }
      assert incoming[..|incoming|] == incoming;
      ok := true;
    }

    /** Replace the blocks above the fork; an overflowing height is refused and changes nothing. */
    method ReorganizeBlocks(fork: nat, incoming: seq<FullBlock>) returns (ok: bool, outgoing: seq<FullBlock>)
      requires Valid() && Inv(View()) && fork < |View().blocks.confirmed|
      requires Reorganization.AllOwed(Reorganization.PopAbove(View(), fork).state, incoming, fork + 1)
      modifies this, blocks, transactions`table, transactions.records.Values
      ensures Valid() && Inv(View()) && (ok <==> fork + |incoming| <= MAX_UINT64)
      ensures !ok ==> View() == old(View())
      ensures ok ==>
                && Reorganization.Popped(ok, View(), outgoing) == Reorganization.Reorganize(old(View()), fork, incoming)
                && View().blocks.confirmed
                   == old(View()).blocks.confirmed[..fork + 1] + Reorganization.BlockHashes(incoming)
                && Reorganization.OutgoingIs(old(View()), outgoing, fork)
    {
      hide Inv;
      hide Holds;
      hide Reorganization.AllOwed;
      hide Reorganization.OutgoingIs;
      hide Reorganization.SameHeaders;
      hide Unmoved;
      if fork > MAX_UINT64 - |incoming| {
        return false, [];
      }
      Reorganization.ReorganizeExact(View(), fork, incoming);
      Reorganization.PopAboveExact(View(), fork);
      ok, outgoing := PopBlocksAbove(fork);
      if ok {
        ok := PushBlocks(incoming, fork + 1);
      }
    }

    /** Replace the blocks above the fork, then bring the filter checkpoints up to date; headers gives the
        filter headers of the index that the reorganization leaves. A filter header that cannot be read
        fails the call after the blocks were replaced, and leaves the checkpoints as they were. */
    method ReorganizeWithFilters(fork: nat, incoming: seq<FullBlock>, filters: FilterCheckpoints.FilterCache,
                                 headers: FilterCheckpoints.Headers)
      returns (ok: bool, outgoing: seq<FullBlock>)
      requires Valid() && Inv(View()) && fork < |View().blocks.confirmed|
      requires Reorganization.AllOwed(Reorganization.PopAbove(View(), fork).state, incoming, fork + 1)
      requires |headers| == fork + |incoming| + 1 <= MAX_UINT64
      modifies this, blocks, transactions`table, transactions.records.Values, filters
      ensures Valid() && Inv(View())
      ensures Reorganization.Popped(true, View(), outgoing) == Reorganization.Reorganize(old(View()), fork, incoming)
      ensures var truncated := FilterCheckpoints.Truncated(old(filters.checkpoints), fork, |outgoing|);
              var appends := incoming != [] && |truncated| < (fork + |incoming|) / FilterCheckpoints.INTERVAL;
              && ok == (appends ==> FilterCheckpoints.CanAppend(|truncated|, fork + |incoming|, headers))
              && filters.checkpoints
                 == if !ok then old(filters.checkpoints)
                    else if !appends then truncated
                    else FilterCheckpoints.Appended(truncated, fork + |incoming|, headers)
    {
      hide Inv;
      hide Holds;
      hide Reorganization.AllOwed;
      hide Reorganization.Reorganize;
      hide FilterCheckpoints.CanAppend;
      ok, outgoing := ReorganizeBlocks(fork, incoming);
      ok := filters.Update(headers, fork, |outgoing|, |incoming|);
    }
  }

  // ---------------------------------------------------------------- what the methods need

  lemma ValidateFails(b: Blocks, hash: Hash)
    requires !BlockTable.Validate(b, hash, 0).ok
    ensures BlockTable.Validate(b, hash, 0).blocks == b
  {
  }

  /** The transactions of every stored block are stored. */
  lemma StoredBlock(s: State, hash: Hash)
    requires Inv(s) && hash in s.blocks.rows
    ensures s.blocks.LinksInRange(hash) && LinksStored(s.table, s.blocks.LinksOf(hash))
  {
    hide Tree;
    hide Words;
    hide Tied;
    hide Confirmations;
    hide Marks;
  }

  lemma IndexedBlock(s: State, hash: Hash)
    requires Inv(s) && (hash in s.blocks.candidate || hash in s.blocks.confirmed)
    ensures hash in s.blocks.rows
    ensures s.blocks.LinksInRange(hash) && LinksStored(s.table, s.blocks.LinksOf(hash))
  {
    hide Tree;
    hide Words;
    hide Tied;
    hide Confirmations;
    hide Marks;
  }

  lemma IsRereadTop(s: State, height: nat, block: FullBlock)
    requires height < |s.blocks.confirmed| && s.blocks.LinksInRange(s.blocks.confirmed[height])
    requires var hash := s.blocks.confirmed[height];
             var links := s.blocks.LinksOf(hash);
             && LinksStored(s.table, links)
             && block.header == Header(hash, s.blocks.rows[hash].previous) && block.time == NO_TIME
             && |block.txs| == |links|
             && forall i :: 0 <= i < |links| ==> block.txs[i] == Reread(links[i], s.table[links[i]])
    ensures height + 1 == |s.blocks.confirmed| ==> block == Reorganization.RereadTop(s)
  {
    hide Reread;
    if height + 1 == |s.blocks.confirmed| {
      assert block.txs == Reorganization.RereadTop(s).txs;
    }
  }

  // The loop that pops headers: u is what is left of s, and outgoing what was popped so far.

  ghost predicate PoppingHeaders(s: State, u: State, fork: nat, outgoing: seq<Header>) {
    var p, rest := HeaderReorganization.PopAbove(s, fork), HeaderReorganization.PopAbove(u, fork);
    p.ok == rest.ok && p.state == rest.state && (p.ok ==> p.outgoing == rest.outgoing + outgoing)
  }

  lemma HeadersToPop(s: State, fork: nat)
    ensures PoppingHeaders(s, s, fork, [])
  {
    var outgoing := HeaderReorganization.PopAbove(s, fork).outgoing;
    assert outgoing + [] == outgoing;
  }

  lemma OneHeaderPopped(s: State, u: State, fork: nat, outgoing: seq<Header>)
    requires PoppingHeaders(s, u, fork, outgoing) && |u.blocks.candidate| > fork + 1
    ensures var d := ChainState.PopHeader(u, |u.blocks.candidate| - 1);
            if d.ok then PoppingHeaders(s, d.state, fork, [HeaderReorganization.TopHeader(u.blocks)] + outgoing)
            else !HeaderReorganization.PopAbove(s, fork).ok && HeaderReorganization.PopAbove(s, fork).state == d.state
  {
    hide ChainState.PopHeader;
    hide HeaderReorganization.TopHeader;
    var d := ChainState.PopHeader(u, |u.blocks.candidate| - 1);
    var rest, top := HeaderReorganization.PopAbove(d.state, fork).outgoing, HeaderReorganization.TopHeader(u.blocks);
    assert rest + [top] + outgoing == rest + ([top] + outgoing);
  }

  lemma HeadersPopped(s: State, u: State, fork: nat, outgoing: seq<Header>)
    requires PoppingHeaders(s, u, fork, outgoing) && |u.blocks.candidate| <= fork + 1
    ensures HeaderReorganization.PopAbove(s, fork) == HeaderReorganization.Popped(true, u, outgoing)
  {
  }

  // The loop that pops blocks: u is what is left of s, and outgoing what was popped so far.

  ghost predicate PoppingBlocks(s: State, u: State, fork: nat, outgoing: seq<FullBlock>) {
    var p, rest := Reorganization.PopAbove(s, fork), Reorganization.PopAbove(u, fork);
    p.ok == rest.ok && p.state == rest.state && (p.ok ==> p.outgoing == rest.outgoing + outgoing)
  }

  lemma BlocksToPop(s: State, fork: nat)
    ensures PoppingBlocks(s, s, fork, [])
  {
    var outgoing := Reorganization.PopAbove(s, fork).outgoing;
    assert outgoing + [] == outgoing;
  }

  lemma OneBlockPopped(s: State, u: State, fork: nat, outgoing: seq<FullBlock>)
    requires PoppingBlocks(s, u, fork, outgoing) && |u.blocks.confirmed| > fork + 1
    ensures var d := ChainState.PopBlock(u, |u.blocks.confirmed| - 1);
            if d.ok then PoppingBlocks(s, d.state, fork, [Reorganization.RereadTop(u)] + outgoing)
            else !Reorganization.PopAbove(s, fork).ok && Reorganization.PopAbove(s, fork).state == d.state
  {
    hide ChainState.PopBlock;
    hide Reorganization.RereadTop;
    var d := ChainState.PopBlock(u, |u.blocks.confirmed| - 1);
    var rest := Reorganization.PopAbove(d.state, fork).outgoing;
    assert rest + [Reorganization.RereadTop(u)] + outgoing == rest + ([Reorganization.RereadTop(u)] + outgoing);
  }

  lemma BlocksPopped(s: State, u: State, fork: nat, outgoing: seq<FullBlock>)
    requires PoppingBlocks(s, u, fork, outgoing) && |u.blocks.confirmed| <= fork + 1
    ensures Reorganization.PopAbove(s, fork) == Reorganization.Popped(true, u, outgoing)
  {
  }

  lemma {:induction false} OwedAt(s: State, incoming: seq<FullBlock>, first: nat, i: nat)
    requires Reorganization.AllOwed(s, incoming, first) && i < |incoming|
    ensures Runs.PushBlockOwed(Reorganization.PushAll(s, incoming[..i], first).state, incoming[i], first + i)
    decreases |incoming|
  {
    hide Runs.PushBlockOwed;
    hide ChainState.PushBlock;
    var n := |incoming| - 1;
    if i < n {
      assert incoming[..n][..i] == incoming[..i];
      OwedAt(s, incoming[..n], first, i);
    }
  }

  /** A failed push stays as it failed. */
  lemma {:induction false} PushStops(s: State, incoming: seq<FullBlock>, first: nat, i: nat)
    requires i <= |incoming| && !Reorganization.PushAll(s, incoming[..i], first).ok
    ensures Reorganization.PushAll(s, incoming, first) == Reorganization.PushAll(s, incoming[..i], first)
    decreases |incoming|
  {
    hide ChainState.PushBlock;
    if i < |incoming| {
      var n := |incoming| - 1;
      assert incoming[..n][..i] == incoming[..i];
      PushStops(s, incoming[..n], first, i);
    } else {
      assert incoming[..i] == incoming;
    }
  }

  lemma PushFits(s: State, block: FullBlock, height: nat)
    requires Inv(s) && Runs.PushBlockOwed(s, block, height)
    ensures LinksStored(s.table, block.TxLinks())
    ensures height <= MAX_UINT32 && block.time <= MAX_UINT32 && |block.txs| <= MAX_BLOCK_TXS
  {
    hide Tree;
    hide Words;
    hide Tied;
    hide Confirmations;
    hide Marks;
    hide Populated;
    hide SpendsUnspent;
  }
}
