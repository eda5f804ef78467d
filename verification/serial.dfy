/** Little-endian integers and the CompactSize integer of the Bitcoin P2P protocol. */
module Serial {
  import opened Types

  /** The k low-order bytes of n, least significant first. */
  function LittleEndian(n: nat, k: nat): (bytes: seq<Byte>)
    ensures |bytes| == k
    decreases k, n
  {
    if k == 0 then [] else [n % 256] + LittleEndian(n / 256, k - 1)
  }

  function FromLittleEndian(bytes: seq<Byte>): nat {
    if bytes == [] then 0 else bytes[0] + 256 * FromLittleEndian(bytes[1..])
  }

  /** The number of values k bytes can hold. */
  function Capacity(k: nat): (c: nat)
    ensures c > 0
  {
    if k == 0 then 1 else 256 * Capacity(k - 1)
  }

  lemma Capacities()
    ensures Capacity(1) == 256
    ensures Capacity(2) == MAX_UINT16 + 1
    ensures Capacity(4) == MAX_UINT32 + 1
    ensures Capacity(8) == MAX_UINT64 + 1
  {
    assert Capacity(1) == 256 * Capacity(0);
    assert Capacity(2) == 256 * Capacity(1);
    assert Capacity(3) == 256 * Capacity(2);
    assert Capacity(4) == 256 * Capacity(3);
    assert Capacity(5) == 256 * Capacity(4);
    assert Capacity(6) == 256 * Capacity(5);
    assert Capacity(7) == 256 * Capacity(6);
    assert Capacity(8) == 256 * Capacity(7);
  }

  lemma {:induction false} LittleEndianRoundTrip(n: nat, k: nat)
    requires n < Capacity(k)
    ensures FromLittleEndian(LittleEndian(n, k)) == n
    decreases k
  {
    if k != 0 {
      LittleEndianRoundTrip(n / 256, k - 1);
      assert LittleEndian(n, k)[1..] == LittleEndian(n / 256, k - 1);
    }
  }

  /** Byte i of a little-endian integer is its i-th digit to the base 256. */
  lemma {:induction false} LittleEndianDigits(n: nat, k: nat, i: nat)
    requires i < k
    ensures LittleEndian(n, k)[i] == n / Capacity(i) % 256
    decreases k
  {
    if i > 0 {
      LittleEndianDigits(n / 256, k - 1, i - 1);
      DivideTwice(n, Capacity(i - 1));
    }
  }

  lemma DivideTwice(n: nat, c: nat)
    requires c > 0
    ensures n / 256 / c == n / (256 * c)
  {
    var q, r := n / 256 / c, 256 * (n / 256 % c) + n % 256;
    assert n / 256 == q * c + n / 256 % c;
    Reassociate(q, c);
    QuotientIs(n, 256 * c, q, r);
  }

  lemma Reassociate(q: nat, c: nat)
    ensures 256 * (q * c) == q * (256 * c)
  {
  }

  lemma QuotientIs(n: nat, d: nat, q: nat, r: nat)
    requires d > 0 && n == q * d + r && r < d
    ensures n / d == q
  {
    var e := n / d - q;
    assert n == n / d * d + n % d;
    assert e * d == r - n % d;
    MultiplesAreFar(e, d);
  }

  lemma MultiplesAreFar(e: int, d: nat)
    ensures e >= 1 ==> e * d >= d
    ensures e <= -1 ==> e * d + d <= 0
  {
  }

  /** CompactSize: one byte below 0xfd, else a marker byte and 2, 4 or 8 bytes. */
  function CompactSize(n: nat): (bytes: seq<Byte>)
    ensures 1 <= |bytes| <= 9
  {
    if n < 0xFD then [n]
    else if n <= MAX_UINT16 then [0xFD] + LittleEndian(n, 2)
    else if n <= MAX_UINT32 then [0xFE] + LittleEndian(n, 4)
    else [0xFF] + LittleEndian(n, 8)
  }

  /** The shortest form that holds the number: its length, its marker, and what follows. */
  lemma CompactSizeIsShortest(n: nat)
    requires n <= MAX_UINT64
    ensures var bytes := CompactSize(n);
            && |bytes| == (if n < 0xFD then 1 else if n < 0x1_0000 then 3 else if n < 0x1_0000_0000 then 5 else 9)
            && bytes[0] == (if |bytes| == 1 then n else if |bytes| == 3 then 0xFD
                            else if |bytes| == 5 then 0xFE else 0xFF)
            && (|bytes| > 1 ==> FromLittleEndian(bytes[1..]) == n)
  {
    Capacities();
    if n >= 0xFD {
      var k := if n <= MAX_UINT16 then 2 else if n <= MAX_UINT32 then 4 else 8;
      LittleEndianRoundTrip(n, k);
      assert CompactSize(n)[1..] == LittleEndian(n, k);
    }
  }

  /** A value read at a cursor and the cursor after it. */
  datatype Read<+T> = Read(value: T, next: nat)

  /** The bytes e stand in s at cursor c. */
  ghost predicate At(s: seq<Byte>, c: nat, e: seq<Byte>) {
    c + |e| <= |s| && s[c..c + |e|] == e
  }

  lemma AtConcat(s: seq<Byte>, c: nat, a: seq<Byte>, b: seq<Byte>)
    requires At(s, c, a + b)
    ensures At(s, c, a) && At(s, c + |a|, b)
  {
    var e := a + b;
    assert s[c..c + |e|][..|a|] == s[c..c + |a|];
    assert s[c..c + |e|][|a|..] == s[c + |a|..c + |a| + |b|];
    assert e[..|a|] == a && e[|a|..] == b;
  }

  /** A fixed-width little-endian integer at the cursor; None runs off the end. */
  function ReadFixed(s: seq<Byte>, c: nat, k: nat): Option<Read<nat>> {
    if c + k <= |s| then Some(Read(FromLittleEndian(s[c..c + k]), c + k)) else None
  }

  function ReadBytes(s: seq<Byte>, c: nat, k: nat): Option<Read<seq<Byte>>> {
    if c + k <= |s| then Some(Read(s[c..c + k], c + k)) else None
  }

  function ReadSize(s: seq<Byte>, c: nat): Option<Read<nat>> {
    if c >= |s| then None
    else if s[c] == 0xFD then ReadFixed(s, c + 1, 2)
    else if s[c] == 0xFE then ReadFixed(s, c + 1, 4)
    else if s[c] == 0xFF then ReadFixed(s, c + 1, 8)
    else Some(Read(s[c], c + 1))
  }

  lemma ReadFixedAt(s: seq<Byte>, c: nat, n: nat, k: nat)
    requires At(s, c, LittleEndian(n, k)) && n < Capacity(k)
    ensures ReadFixed(s, c, k) == Some(Read(n, c + k))
  {
    LittleEndianRoundTrip(n, k);
  }

  lemma ReadSizeAt(s: seq<Byte>, c: nat, n: nat)
    requires At(s, c, CompactSize(n)) && n <= MAX_UINT64
    ensures ReadSize(s, c) == Some(Read(n, c + |CompactSize(n)|))
  {
    Capacities();
    assert s[c] == s[c..c + |CompactSize(n)|][0] == CompactSize(n)[0];
    if n >= 0xFD {
      var k := if n <= MAX_UINT16 then 2 else if n <= MAX_UINT32 then 4 else 8;
      AtConcat(s, c, [CompactSize(n)[0]], LittleEndian(n, k));
      ReadFixedAt(s, c + 1, n, k);
    }
  }

  /** A byte string prefixed by its CompactSize. */
  function Prefixed(bytes: seq<Byte>): seq<Byte> {
    CompactSize(|bytes|) + bytes
  }

  function ReadPrefixed(s: seq<Byte>, c: nat): Option<Read<seq<Byte>>> {
    var size := ReadSize(s, c);
    if size.None? then None else ReadBytes(s, size.value.next, size.value.value)
  }

  lemma ReadPrefixedAt(s: seq<Byte>, c: nat, bytes: seq<Byte>)
    requires At(s, c, Prefixed(bytes)) && |bytes| <= MAX_UINT64
    ensures ReadSize(s, c) == Some(Read(|bytes|, c + |CompactSize(|bytes|)|))
    ensures ReadPrefixed(s, c) == Some(Read(bytes, c + |Prefixed(bytes)|))
  {
    hide CompactSize;
    hide ReadSize;
    AtConcat(s, c, CompactSize(|bytes|), bytes);
    ReadSizeAt(s, c, |bytes|);
  }

  /** The encodings of a list, one after the other. */
  function EncodeAll<T>(xs: seq<T>, encode: T -> seq<Byte>): seq<Byte> {
    if xs == [] then []
    else EncodeAll(xs[..|xs| - 1], encode) + encode(xs[|xs| - 1])
  }

  /** Decode n items in a row. */
  function DecodeAll<T>(s: seq<Byte>, c: nat, n: nat, decode: (seq<Byte>, nat) -> Option<Read<T>>)
    : (r: Option<Read<seq<T>>>)
    ensures r.Some? ==> |r.value.value| == n
  {
    if n == 0 then Some(Read([], c))
    else
      var front := DecodeAll(s, c, n - 1, decode);
      if front.None? then None
      else
        var last := decode(s, front.value.next);
        if last.None? then None
        else Some(Read(front.value.value + [last.value.value], last.value.next))
  }

  lemma {:induction false} EncodeAllConcat<T>(xs: seq<T>, ys: seq<T>, encode: T -> seq<Byte>)
    ensures EncodeAll(xs + ys, encode) == EncodeAll(xs, encode) + EncodeAll(ys, encode)
    decreases |ys|
  {
    if ys == [] {
      assert xs + ys == xs;
    } else {
      var m := |ys| - 1;
      assert (xs + ys)[..|xs + ys| - 1] == xs + ys[..m];
      EncodeAllConcat(xs, ys[..m], encode);
    }
  }

  lemma EncodeAllTake<T>(xs: seq<T>, i: nat, encode: T -> seq<Byte>)
    requires i < |xs|
    ensures EncodeAll(xs[..i + 1], encode) == EncodeAll(xs[..i], encode) + encode(xs[i])
  {
    var ys := xs[..i + 1];
    assert ys[..|ys| - 1] == xs[..i];
  }

  lemma EncodeAllSplit<T>(xs: seq<T>, i: nat, encode: T -> seq<Byte>)
    requires i < |xs|
    ensures EncodeAll(xs, encode) == EncodeAll(xs[..i + 1], encode) + EncodeAll(xs[i + 1..], encode)
  {
    hide EncodeAll;
    EncodeAllConcat(xs[..i + 1], xs[i + 1..], encode);
    assert xs == xs[..i + 1] + xs[i + 1..];
  }

  /** Where item i of a list stands. */
  lemma ItemAt<T>(s: seq<Byte>, c: nat, xs: seq<T>, i: nat, encode: T -> seq<Byte>)
    requires At(s, c, EncodeAll(xs, encode)) && i < |xs|
    ensures At(s, c + |EncodeAll(xs[..i], encode)|, encode(xs[i]))
    ensures |EncodeAll(xs[..i + 1], encode)| == |EncodeAll(xs[..i], encode)| + |encode(xs[i])|
  {
    hide At;
    EncodeAllSplit(xs, i, encode);
    EncodeAllTake(xs, i, encode);
    AtConcat(s, c, EncodeAll(xs[..i + 1], encode), EncodeAll(xs[i + 1..], encode));
    AtConcat(s, c, EncodeAll(xs[..i], encode), encode(xs[i]));
  }

  lemma EncodeAllNothing<T>(xs: seq<T>, encode: T -> seq<Byte>)
    ensures EncodeAll(xs[..0], encode) == []
  {
  }

  /** decode undoes encode on x wherever it stands. */
  ghost predicate Inverts<T(!new)>(s: seq<Byte>, x: T, encode: T -> seq<Byte>,
      decode: (seq<Byte>, nat) -> Option<Read<T>>)
  {
    forall d: nat :: At(s, d, encode(x)) ==> decode(s, d) == Some(Read(x, d + |encode(x)|))
  }

  lemma {:induction false} DecodeAllAt<T(!new)>(s: seq<Byte>, c: nat, xs: seq<T>,
      encode: T -> seq<Byte>, decode: (seq<Byte>, nat) -> Option<Read<T>>)
    requires At(s, c, EncodeAll(xs, encode))
    requires forall x :: x in xs ==> Inverts(s, x, encode, decode)
    ensures DecodeAll(s, c, |xs|, decode) == Some(Read(xs, c + |EncodeAll(xs, encode)|))
    decreases |xs|
  {
    hide At;
    if xs != [] {
      var n := |xs| - 1;
      var front, last := EncodeAll(xs[..n], encode), encode(xs[n]);
      assert EncodeAll(xs, encode) == front + last;
      AtConcat(s, c, front, last);
      DecodeAllAt(s, c, xs[..n], encode, decode);
      assert Inverts(s, xs[n], encode, decode);
      assert xs == xs[..n] + [xs[n]];
    }
  }
}
