/** The block database as a value: header rows by block hash, two height indexes, and the link array
    that block rows point into. */
module BlockTable {
  import opened Types
  import opened BlockState

  datatype BlockRow = BlockRow(
    previous: Hash, time: nat, height: nat, state: StateWord, checksum: nat, start: nat, count: nat)

  datatype Header = Header(hash: Hash, previous: Hash)

  datatype Blocks = Blocks(
    rows: map<Hash, BlockRow>, candidate: seq<Hash>, confirmed: seq<Hash>, links: seq<Hash>)
  {
    function Index(isCandidate: bool): seq<Hash> {
      if isCandidate then candidate else confirmed
    }

    function WithIndex(isCandidate: bool, index: seq<Hash>): Blocks {
      if isCandidate then this.(candidate := index) else this.(confirmed := index)
    }

    /** The transaction links of a stored block lie within the link array. */
    predicate LinksInRange(hash: Hash) {
      hash in rows && rows[hash].start + rows[hash].count <= |links|
    }

    /** The transaction links of a block, in block order. */
    function LinksOf(hash: Hash): seq<Hash>
      requires LinksInRange(hash)
    {
      links[rows[hash].start..rows[hash].start + rows[hash].count]
    }
  }

  datatype Result = Result(ok: bool, blocks: Blocks)

  /** A new header starts as a candidate that has no transactions. */
  function StoreHeader(b: Blocks, header: Header, height: nat, time: nat): Blocks {
    b.(rows := b.rows[header.hash := BlockRow(header.previous, time, height, CANDIDATE, 0, 0, 0)])
  }

  /** Where the links of a block are put: nowhere when it has none. */
  function Associate(b: Blocks, txs: seq<Hash>): (nat, Blocks) {
    if txs == [] then (0, b) else (|b.links|, b.(links := b.links + txs))
  }

  /** Point the block at its links; the fields are four and two bytes wide. */
  function UpdateTransactions(b: Blocks, hash: Hash, txs: seq<Hash>): Result {
    if hash !in b.rows then Result(false, b)
    else
      var (start, c) := Associate(b, txs);
      Result(true, c.(rows := c.rows[hash := c.rows[hash].(start := start % 0x1_0000_0000, count := |txs| % 0x1_0000)]))
  }

  /** A block's links fit their fields. */
  predicate LinksFit(b: Blocks, txs: seq<Hash>) {
    |b.links| <= MAX_UINT32 && |txs| <= MAX_BLOCK_TXS
  }

  /** Promote an unvalidated block to valid or, with an error code, to failed. */
  function Validate(b: Blocks, hash: Hash, error: nat): Result {
    if hash !in b.rows then Result(false, b)
    else
      var row := b.rows[hash];
      var updated := row.(state := UpdateValidation(row.state, error == 0));
      Result(true, b.(rows := b.rows[hash := if error != 0 then updated.(checksum := error) else updated]))
  }

  function SetConfirmation(b: Blocks, hash: Hash, positive: bool, candidate: bool): Blocks
    requires hash in b.rows
  {
    b.(rows := b.rows[hash := b.rows[hash].(state := UpdateConfirmation(b.rows[hash].state, positive, candidate))])
  }

  /** Push a block onto an index: only at its top, and only a stored block. */
  function Promote(b: Blocks, hash: Hash, height: nat, candidate: bool): Result {
    if height != |b.Index(candidate)| || hash !in b.rows then Result(false, b)
    else Result(true, SetConfirmation(b, hash, true, candidate).WithIndex(candidate, b.Index(candidate) + [hash]))
  }

  /** Pop a block off an index: only from its top. */
  function Demote(b: Blocks, hash: Hash, height: nat, candidate: bool): Result {
    if height + 1 != |b.Index(candidate)| || hash !in b.rows then Result(false, b)
    else Result(true, SetConfirmation(b, hash, false, candidate).WithIndex(candidate, b.Index(candidate)[..height]))
  }
}
