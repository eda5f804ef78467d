/** Values shared by every component: hashes, points, and the row a transaction record holds. */
module Types {

  type Byte = x: int | 0 <= x < 256

  /** A transaction or block hash: 32 bytes wherever it is stored. */
  type Hash = seq<Byte>

  const HASH_SIZE := 32
  const NULL_HASH: Hash :=
    [0, 0, 0, 0, 0, 0, 0, 0, 0, 0, 0, 0, 0, 0, 0, 0,
     0, 0, 0, 0, 0, 0, 0, 0, 0, 0, 0, 0, 0, 0, 0, 0]

  const MAX_UINT16 := 0xFFFF
  const MAX_UINT32 := 0xFFFF_FFFF
  const MAX_UINT64 := 0xFFFF_FFFF_FFFF_FFFF

  const NULL_INDEX := MAX_UINT32

  /** The greatest height a block may have; the sentinels lie above it. */
  const MAX_HEIGHT := 0x7FFF_FFFE

  type Sentinel = x: nat | MAX_HEIGHT < x <= MAX_UINT32 witness MAX_UINT32

  /** Position sentinels (they share the 16 bits of the position field). */
  const UNCONFIRMED := MAX_UINT16
  const DECONFIRMED := MAX_UINT16 - 1
  const MAX_BLOCK_TXS := DECONFIRMED

  const NO_TIME := 0

  /** The height and spender sentinels of the system library: any values in that range. */
  const UNVERIFIED: Sentinel
  const NOT_SPENT: Sentinel

  datatype Option<+T> = None | Some(value: T) {
    predicate IsFailure() {
      None?
    }

    function PropagateFailure<U>(): Option<U>
      requires None?
    {
      None
    }

    function Extract(): T
      requires Some?
    {
      value
    }
  }

  datatype Point = Point(hash: Hash, index: nat) {
    predicate IsNull() {
      hash == NULL_HASH && index == NULL_INDEX
    }
  }

  datatype Output = Output(candidateSpent: bool, spender: nat, value: nat, script: seq<Byte>)

  datatype Input = Input(point: Point, script: seq<Byte>, witnesses: seq<seq<Byte>>, sequence: nat)

  /** One row of the transaction table: the mutable metadata and the constant transaction. */
  datatype Row = Row(
    height: nat, position: nat, candidate: bool, time: nat,
    outputs: seq<Output>, inputs: seq<Input>, locktime: nat, version: nat)
  {
    /** The block position is real, not a sentinel. */
    predicate HasPosition() {
      position != UNCONFIRMED && position != DECONFIRMED
    }

    function Points(): (ps: seq<Point>)
      ensures |ps| == |inputs|
    {
      seq(|inputs|, i requires 0 <= i < |inputs| => inputs[i].point)
    }
  }
}
