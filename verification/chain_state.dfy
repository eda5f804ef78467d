/** The database as a value, and what each operation on it does. */
module ChainState {
  import opened Types
  import opened BlockState
  import opened BlockTable
  import opened TransactionTable
  import opened Ledger
  import opened Agreement

  /** A block as callers hand it in, or as a pop hands it back. */
  datatype FullBlock = FullBlock(header: Header, time: nat, txs: seq<Transaction>) {
    function TxLinks(): (links: seq<Hash>)
      ensures |links| == |txs|
    {
      seq(|txs|, i requires 0 <= i < |txs| => txs[i].hash)
    }
  }

  /** The tables, and two history variables: the confirmed blocks as they were confirmed, and the
      blocks that were candidated and are still on the candidate index. */
  datatype State = State(blocks: Blocks, table: Table, chain: seq<Block>, marked: set<Hash>)

  datatype Done = Done(ok: bool, state: State)

  // ---------------------------------------------------------------- store, update, validate

  function StoreTransaction(s: State, tx: Transaction, forks: nat): Done {
    var o := Storize(s.table, tx, forks, NO_TIME, UNCONFIRMED);
    Done(o.ok, s.(table := o.table))
  }

  /** Store the missing transactions of a block, then its links. */
  function Update(s: State, block: FullBlock): Done {
    var o := Each(s.table, block.txs, Storing());
    var r := UpdateTransactions(s.blocks, block.header.hash, block.TxLinks());
    Done(r.ok, s.(table := o.table, blocks := r.blocks))
  }

  function Invalidate(s: State, hash: Hash, error: nat): Done {
    var r := Validate(s.blocks, hash, error);
    Done(r.ok, s.(blocks := r.blocks))
  }

  /** Mark a block valid, and its transactions and the outputs they spend as candidate. */
  function CandidateBlock(s: State, block: FullBlock): Done {
    var r := Validate(s.blocks, block.header.hash, 0);
    if !r.ok then Done(false, s)
    else
      var o := Each(s.table, block.TxLinks(), Candidating(true));
      Done(o.ok, s.(blocks := r.blocks, table := o.table,
                    marked := if o.ok then s.marked + {block.header.hash} else s.marked))
  }

  // ---------------------------------------------------------------- headers

  function PushHeader(s: State, header: Header, exists_: bool, height: nat, time: nat): Done {
    var b := if exists_ then s.blocks else StoreHeader(s.blocks, header, height, time);
    // The result of the promotion is not tested.
    Done(true, s.(blocks := Promote(b, header.hash, height, true).blocks))
  }

  function PopHeader(s: State, height: nat): Done {
    if height >= |s.blocks.candidate| || !s.blocks.LinksInRange(s.blocks.candidate[height]) then Done(false, s)
    else
      var hash := s.blocks.candidate[height];
      var o := Each(s.table, s.blocks.LinksOf(hash), Candidating(false));
      var u := s.(table := o.table);
      if !o.ok then Done(false, u)
      else
        var r := Demote(s.blocks, hash, height, true);
        Done(r.ok, u.(blocks := r.blocks, marked := if r.ok then s.marked - {hash} else s.marked))
  }

  // ---------------------------------------------------------------- blocks

  /** The ledger's view of a stored transaction. */
  function TxOf(t: Table, h: Hash): Tx {
    if h in t then Tx(h, t[h].Points(), |t[h].outputs|) else Tx(h, [], 0)
  }

  function LedgerBlock(t: Table, links: seq<Hash>, time: nat): Block {
    Block(seq(|links|, i requires 0 <= i < |links| => TxOf(t, links[i])), time)
  }

  /** Confirm the transactions at these links, then push the block onto the confirmed index. */
  function ConfirmLinks(s: State, hash: Hash, links: seq<Hash>, height: nat, time: nat): Done {
    var o := ConfirmBlock(s.table, links, height, time);
    var u := s.(table := o.table);
    if !o.ok then Done(false, u)
    else
      var r := Promote(s.blocks, hash, height, false);
      Done(r.ok, u.(blocks := r.blocks,
                    chain := if r.ok then s.chain + [LedgerBlock(s.table, links, time)] else s.chain))
  }

  function PushBlock(s: State, block: FullBlock, height: nat): Done {
    ConfirmLinks(s, block.header.hash, block.TxLinks(), height, block.time)
  }

  /** Confirm a stored block by its hash alone. */
  function ConfirmHash(s: State, hash: Hash, height: nat): Done {
    if !s.blocks.LinksInRange(hash) then Done(false, s)
    else ConfirmLinks(s, hash, s.blocks.LinksOf(hash), height, s.blocks.rows[hash].time)
  }

  /** A transaction read back from its row. */
  function Reread(h: Hash, row: Row): (tx: Transaction)
    ensures tx.hash == h && Carries(row, tx)
  {
    Transaction(h, seq(|row.outputs|, i requires 0 <= i < |row.outputs| =>
                  TransactionOutput(row.outputs[i].value, row.outputs[i].script)),
                row.inputs, row.locktime, row.version)
  }

  ghost predicate LinksStored(t: Table, links: seq<Hash>) {
    forall i :: 0 <= i < |links| ==> links[i] in t
  }

  /** Deconfirm the transactions of the top block, then pop it off the confirmed index. */
  function PopBlock(s: State, height: nat): Done {
    if height >= |s.blocks.confirmed| || !s.blocks.LinksInRange(s.blocks.confirmed[height]) then Done(false, s)
    else
      var hash := s.blocks.confirmed[height];
      var o := UnconfirmBlock(s.table, s.blocks.LinksOf(hash));
      var u := s.(table := o.table);
      if !o.ok then Done(false, u)
      else
        var r := Demote(s.blocks, hash, height, false);
        Done(r.ok, u.(blocks := r.blocks,
                      chain := if r.ok && s.chain != [] then s.chain[..|s.chain| - 1] else s.chain))
  }

  // ---------------------------------------------------------------- genesis

  const NO_BLOCKS := Blocks(map[], [], [], [])

  /** Store, update, confirm and validate the genesis block in an empty database. */
  function PushGenesis(block: FullBlock): Done {
    var hash := block.header.hash;
    var b1 := StoreHeader(NO_BLOCKS, block.header, 0, block.time);
    var b2 := Promote(b1, hash, 0, true).blocks;
    var t1 := Each(map[], block.txs, Storing()).table;
    var b3 := UpdateTransactions(b2, hash, block.TxLinks()).blocks;
    var o := ConfirmBlock(t1, block.TxLinks(), 0, block.time);
    if !o.ok then Done(false, State(b3, o.table, [], {}))
    else
      var b4 := Validate(b3, hash, 0).blocks;
      var r := Promote(b4, hash, 0, false);
      Done(r.ok, State(r.blocks, o.table, [LedgerBlock(t1, block.TxLinks(), block.time)], {}))
  }

  // ---------------------------------------------------------------- what the operations verify

  function PreviousBlock(index: seq<Hash>, height: nat): Hash
    requires height <= |index|
  {
    if height == 0 then NULL_HASH else index[height - 1]
  }

  predicate VerifyPushHeader(s: State, header: Header, height: nat) {
    && |s.blocks.candidate| == height
    && PreviousBlock(s.blocks.candidate, height) == header.previous
  }

  predicate VerifyPushBlock(s: State, block: FullBlock, height: nat) {
    && block.txs != []
    && |s.blocks.confirmed| == height
    && PreviousBlock(s.blocks.confirmed, height) == block.header.previous
  }

  predicate VerifyUpdate(s: State, block: FullBlock, height: nat) {
    && block.txs != []
    && height < |s.blocks.candidate| && s.blocks.candidate[height] == block.header.hash
    && block.header.hash in s.blocks.rows && s.blocks.rows[block.header.hash].count == 0
  }
}
