/** A memory mapped file: how its logical size and its capacity move. */
module FileStorage {

  datatype Sizes = Sizes(capacity: nat, logical: nat)

  datatype Request =
    | ReserveRequest(required: nat)
    | ResizeRequest(required: nat)

  /** The capacity a remap asks for: the required size and its percentage expansion, or the minimum if larger. */
  function Target(required: nat, minimum: nat, expansion: nat): nat {
    var resize := (required as real * ((expansion as real + 100.0) / 100.0)).Floor;
    if resize < minimum then minimum else resize
  }

  predicate Remaps(s: Sizes, required: nat) {
    required > s.capacity
  }

  function Sized(s: Sizes, required: nat, minimum: nat, expansion: nat): Sizes {
    Sizes(if Remaps(s, required) then Target(required, minimum, expansion) else s.capacity, required)
  }

  /** Resizing asks for no minimum and no expansion. */
  function Apply(s: Sizes, request: Request, minimum: nat, expansion: nat): Sizes {
    match request
    case ReserveRequest(required) => Sized(s, required, minimum, expansion)
    case ResizeRequest(required) => Sized(s, required, 0, 0)
  }

  // ---------------------------------------------------------------- one request

  lemma TargetIsExact(required: nat, minimum: nat, expansion: nat)
    ensures var exact := required * (100 + expansion);
            Target(required, minimum, expansion) == if exact / 100 < minimum then minimum else exact / 100
  {
    var exact := required * (100 + expansion);
    var r := required as real * ((expansion as real + 100.0) / 100.0);
    assert r == (required as real * (100 + expansion) as real) / 100.0;
    assert exact as real == required as real * (100 + expansion) as real;
    assert r.Floor == exact / 100 by {
      assert exact == exact / 100 * 100 + exact % 100;
      assert (exact / 100) as real <= r < (exact / 100) as real + 1.0;
    }
  }

  /** A remap always makes room for what was required, and more than there was. */
  lemma TargetSuffices(required: nat, minimum: nat, expansion: nat)
    ensures required <= Target(required, minimum, expansion)
    ensures minimum <= Target(required, minimum, expansion)
  {
    TargetIsExact(required, minimum, expansion);
    assert required * (100 + expansion) == required * 100 + required * expansion;
  }

  /** Each remap by reserve grows the capacity by at least the expansion percentage. */
  lemma RemapGrows(s: Sizes, required: nat, minimum: nat, expansion: nat)
    requires Remaps(s, required)
    ensures Sized(s, required, minimum, expansion).capacity * 100 >= s.capacity * (100 + expansion)
  {
    TargetIsExact(required, minimum, expansion);
    var exact, least := required * (100 + expansion), (s.capacity + 1) * (100 + expansion);
    assert exact >= least by {
      MultiplyMonotone(s.capacity + 1, required, 100 + expansion);
    }
    assert least == s.capacity * (100 + expansion) + 100 + expansion;
    assert exact / 100 * 100 > exact - 100;
  }

  lemma MultiplyMonotone(a: nat, b: nat, c: nat)
    requires a <= b
    ensures a * c <= b * c
  {
  }

  // ---------------------------------------------------------------- any sequence of requests

  function Run(s: Sizes, requests: seq<Request>, minimum: nat, expansion: nat): Sizes {
    if requests == [] then s
    else
      var n := |requests| - 1;
      Apply(Run(s, requests[..n], minimum, expansion), requests[n], minimum, expansion)
  }

  /** How many requests of a run are reserves that remapped. */
  function Remappings(s: Sizes, requests: seq<Request>, minimum: nat, expansion: nat): nat {
    if requests == [] then 0
    else
      var n := |requests| - 1;
      var u := Run(s, requests[..n], minimum, expansion);
      Remappings(s, requests[..n], minimum, expansion)
      + if requests[n].ReserveRequest? && Remaps(u, requests[n].required) then 1 else 0
  }

  function Pow(base: nat, n: nat): nat {
    if n == 0 then 1 else base * Pow(base, n - 1)
  }

  /** The logical size never exceeds the capacity, which never shrinks. */
  lemma {:induction false} AlwaysFits(s: Sizes, requests: seq<Request>, minimum: nat, expansion: nat)
    requires s.logical <= s.capacity
    ensures var u := Run(s, requests, minimum, expansion);
            s.capacity <= u.capacity && u.logical <= u.capacity
    decreases |requests|
  {
    hide Target;
    if requests != [] {
      var n := |requests| - 1;
      AlwaysFits(s, requests[..n], minimum, expansion);
      TargetSuffices(requests[n].required, minimum, expansion);
      TargetSuffices(requests[n].required, 0, 0);
    }
  }

  /** The logical size is always what was last required. */
  lemma LogicalIsLastRequired(s: Sizes, requests: seq<Request>, minimum: nat, expansion: nat)
    ensures Run(s, requests, minimum, expansion).logical
            == if requests == [] then s.logical else requests[|requests| - 1].required
  {
    hide Target;
  }

  /** A request that fits leaves the capacity; another makes it what is required, or for a reserve the larger of the
      minimum and what is required with its percentage, rounded down. */
  lemma CapacityMovesExactly(s: Sizes, requests: seq<Request>, minimum: nat, expansion: nat)
    requires requests != []
    ensures var n := |requests| - 1;
            var before, required := Run(s, requests[..n], minimum, expansion).capacity, requests[n].required;
            Run(s, requests, minimum, expansion).capacity
            == if required <= before then before
               else if requests[n].ResizeRequest? then required
               else if required * (100 + expansion) / 100 < minimum then minimum
               else required * (100 + expansion) / 100
  {
    var required := requests[|requests| - 1].required;
    hide Target;
    TargetIsExact(required, minimum, expansion);
    TargetIsExact(required, 0, 0);
  }

  /** After k remapping reserves the capacity has grown geometrically, whatever came between them. */
  lemma {:induction false} GrowsGeometrically(s: Sizes, requests: seq<Request>, minimum: nat, expansion: nat)
    requires s.logical <= s.capacity
    ensures var k := Remappings(s, requests, minimum, expansion);
            Run(s, requests, minimum, expansion).capacity * Pow(100, k) >= s.capacity * Pow(100 + expansion, k)
    decreases |requests|
  {
    hide Target;
    hide Pow;
    if requests == [] {
      assert Pow(100, 0) == 1 == Pow(100 + expansion, 0) by {
        PowZero(100);
        PowZero(100 + expansion);
      }
    } else {
      var n := |requests| - 1;
      var u := Run(s, requests[..n], minimum, expansion);
      var v := Run(s, requests, minimum, expansion);
      var k := Remappings(s, requests[..n], minimum, expansion);
      GrowsGeometrically(s, requests[..n], minimum, expansion);
      if requests[n].ReserveRequest? && Remaps(u, requests[n].required) {
        RemapGrows(u, requests[n].required, minimum, expansion);
        Compound(s.capacity, u.capacity, v.capacity, 100 + expansion, k);
      } else {
        TargetSuffices(requests[n].required, 0, 0);
        MultiplyMonotone(u.capacity, v.capacity, Pow(100, k));
      }
    }
  }

  lemma PowZero(base: nat)
    ensures Pow(base, 0) == 1
  {
  }

  lemma Compound(first: nat, before: nat, after: nat, factor: nat, k: nat)
    requires before * Pow(100, k) >= first * Pow(factor, k)
    requires after * 100 >= before * factor
    ensures after * Pow(100, k + 1) >= first * Pow(factor, k + 1)
  {
    CompoundOnce(first, before, after, factor, Pow(100, k), Pow(factor, k));
  }

  lemma CompoundOnce(first: nat, before: nat, after: nat, factor: nat, p: nat, q: nat)
    requires before * p >= first * q
    requires after * 100 >= before * factor
    ensures after * (100 * p) >= first * (factor * q)
  {
    MultiplyMonotone(before * factor, after * 100, p);
    MultiplyMonotone(first * q, before * p, factor);
    Reassociate(after, 100, p);
    Rearrange(before, factor, p);
    Rearrange(first, q, factor);
    Reassociate(first, factor, q);
  }

  lemma Reassociate(a: nat, b: nat, c: nat)
    ensures a * (b * c) == (a * b) * c
  {
  }

  lemma Rearrange(a: nat, b: nat, c: nat)
    ensures (a * b) * c == (a * c) * b
  {
    Reassociate(a, b, c);
    Reassociate(a, c, b);
  }

  // ---------------------------------------------------------------- the object

  class Storage {
    const minimum: nat
    const expansion: nat
    var closed: bool
    var capacity: nat
    var logicalSize: nat

    ghost predicate Valid()
      reads this
    {
      logicalSize <= capacity
    }

    function View(): Sizes
      reads this
    {
      Sizes(capacity, logicalSize)
    }

    /** The file is as large as it was left; all of it is in use. */
    constructor (fileSize: nat, minimum_: nat, expansion_: nat)
      ensures Valid() && closed && View() == Sizes(fileSize, fileSize)
      ensures minimum == minimum_ && expansion == expansion_
    {
      minimum, expansion := minimum_, expansion_;
      closed := true;
      capacity, logicalSize := fileSize, fileSize;
    }

    /** Map the file; an empty file cannot be mapped. */
    method Open() returns (ok: bool)
      requires Valid()
      modifies this`closed
      ensures Valid() && ok == (old(closed) && capacity > 0) && closed == (old(closed) && !ok)
    {
      if !closed || capacity == 0 {
        return false;
      }
      closed := false;
      ok := true;
    }

    /** Make room for the required size; false (an exception) when the storage is closed. */
    method ReserveAs(required: nat, least: nat, percent: nat) returns (ok: bool)
      requires Valid()
      modifies this`capacity, this`logicalSize
      ensures Valid() && ok == !closed
      ensures View() == if ok then Sized(old(View()), required, least, percent) else old(View())
      ensures ok ==> logicalSize == required && capacity >= old(capacity)
    {
      if closed {
        return false;
      }
      if required > capacity {
        TargetSuffices(required, least, percent);
        capacity := Target(required, least, percent);
      }
      logicalSize := required;
      ok := true;
    }

    method Reserve(required: nat) returns (ok: bool)
      requires Valid()
      modifies this`capacity, this`logicalSize
      ensures Valid() && ok == !closed
      ensures View() == if ok then Apply(old(View()), ReserveRequest(required), minimum, expansion) else old(View())
    {
      ok := ReserveAs(required, minimum, expansion);
    }

    method Resize(required: nat) returns (ok: bool)
      requires Valid()
      modifies this`capacity, this`logicalSize
      ensures Valid() && ok == !closed
      ensures View() == if ok then Apply(old(View()), ResizeRequest(required), minimum, expansion) else old(View())
    {
      ok := ReserveAs(required, 0, 0);
    }

    /** Close the file; it never reports that the logical size does not fit. */
    method Close() returns (fit: bool)
      requires Valid()
      modifies this`closed
      ensures closed && fit && Valid()
    {
      if closed {
        return true;
      }
      closed := true;
      fit := logicalSize <= capacity;
    }
  }
}
