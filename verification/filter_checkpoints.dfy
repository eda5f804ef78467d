/** The cache of compact filter checkpoints: filter headers at the multiples of an interval.
    The confirmed index is given by the filter header of each height, None where it cannot be read. */
module FilterCheckpoints {
  import opened Types

  type Headers = seq<Option<Hash>>

  /** The interval of a cfcheckpt message (BIP 157). */
  const INTERVAL := 1000

  function CeilingAdd(a: nat, b: nat): nat {
    if a + b > MAX_UINT64 then MAX_UINT64 else a + b
  }

  function FloorSubtract(a: nat, b: nat): nat {
    if b > a then 0 else a - b
  }

  // ---------------------------------------------------------------- what the cache should be

  ghost predicate IsCheckpoint(height: int, top: int) {
    0 < height <= top && height % INTERVAL == 0
  }

  ghost predicate Readable(headers: Headers) {
    headers != [] && forall h :: IsCheckpoint(h, |headers| - 1) ==> headers[h].Some?
  }

  /** The headers at the positive multiples of the interval up to the top, ascending. */
  function Checkpoints(headers: Headers): (r: seq<Hash>)
    requires Readable(headers)
    ensures |r| == (|headers| - 1) / INTERVAL
  {
    seq((|headers| - 1) / INTERVAL, k requires 0 <= k < (|headers| - 1) / INTERVAL =>
      assert IsCheckpoint((k + 1) * INTERVAL, |headers| - 1);
      headers[(k + 1) * INTERVAL].value)
  }

  function CheckpointHeight(k: nat): nat {
    (k + 1) * INTERVAL
  }

  /** Every checkpoint height has its place in the list, and only those do. */
  lemma CheckpointsAreTheMultiples(headers: Headers, height: nat)
    requires Readable(headers)
    ensures IsCheckpoint(height, |headers| - 1) <==>
            exists k: nat :: k < |Checkpoints(headers)| && CheckpointHeight(k) == height
    ensures IsCheckpoint(height, |headers| - 1) ==>
              0 <= height / INTERVAL - 1 < |Checkpoints(headers)|
              && Checkpoints(headers)[height / INTERVAL - 1] == headers[height].value
  {
    if IsCheckpoint(height, |headers| - 1) {
      var k := height / INTERVAL - 1;
      assert CheckpointHeight(k) == height;
      assert Checkpoints(headers)[k] == headers[(k + 1) * INTERVAL].value;
    }
  }

  // ---------------------------------------------------------------- update

  /** Drop the checkpoints above the fork. */
  function Truncated(checkpoints: seq<Hash>, fork: nat, outgoing: nat): seq<Hash> {
    var previousCount, forkCount := CeilingAdd(fork, outgoing) / INTERVAL, fork / INTERVAL;
    if outgoing != 0 && previousCount > forkCount
    then checkpoints[..FloorSubtract(|checkpoints|, previousCount - forkCount)]
    else checkpoints
  }

  /** Reading starts at the last height already cached, or at zero when none is. */
  predicate CanAppend(size: nat, height: nat, headers: Headers) {
    forall k :: size <= k <= height / INTERVAL ==> k * INTERVAL < |headers| && headers[k * INTERVAL].Some?
  }

  function Appended(checkpoints: seq<Hash>, height: nat, headers: Headers): seq<Hash>
    requires |checkpoints| < height / INTERVAL ==> CanAppend(|checkpoints|, height, headers)
  {
    var size := |checkpoints|;
    if size >= height / INTERVAL then checkpoints
    else checkpoints + seq(height / INTERVAL - size + 1, j requires 0 <= j < height / INTERVAL - size + 1 =>
                         headers[(size + j) * INTERVAL].value)
  }

  /** Truncating the list for the old top gives the list for the fork. */
  lemma TruncatedIsListOfFork(old_: Headers, fork: nat, outgoing: nat)
    requires Readable(old_) && |old_| == fork + outgoing + 1 <= MAX_UINT64
    ensures Readable(old_[..fork + 1])
    ensures Truncated(Checkpoints(old_), fork, outgoing) == Checkpoints(old_[..fork + 1])
  {
    forall h | IsCheckpoint(h, fork) ensures old_[..fork + 1][h].Some? {
      assert IsCheckpoint(h, |old_| - 1);
    }
  }

  /** Lists of two indexes that agree up to the fork agree up to the fork. */
  lemma ListOfSharedPrefix(headers: Headers, fork: nat)
    requires Readable(headers) && fork < |headers|
    ensures Readable(headers[..fork + 1])
    ensures Checkpoints(headers[..fork + 1]) == Checkpoints(headers)[..fork / INTERVAL]
  {
    forall h | IsCheckpoint(h, fork) ensures headers[..fork + 1][h].Some? {
      assert IsCheckpoint(h, |headers| - 1);
    }
  }

  /** Updating the list for the old top gives the list for the new top exactly when the new branch brings no
      checkpoint. Otherwise one header too many is put in before those of the branch: the last checkpoint at or
      below the fork once more, or the genesis header when there is none. */
  lemma UpdateIsRebuildWhenNothingIsAdded(old_: Headers, new_: Headers, fork: nat)
    requires Readable(old_) && Readable(new_) && new_[0].Some?
    requires fork < |old_| <= MAX_UINT64 && fork < |new_| <= MAX_UINT64
    requires new_[..fork + 1] == old_[..fork + 1]
    ensures var outgoing, height := |old_| - 1 - fork, |new_| - 1;
            var truncated := Truncated(Checkpoints(old_), fork, outgoing);
            && (|truncated| < height / INTERVAL ==> CanAppend(|truncated|, height, new_))
            && (Appended(truncated, height, new_) == Checkpoints(new_) <==> fork / INTERVAL == height / INTERVAL)
            && (fork / INTERVAL < height / INTERVAL ==>
                  Appended(truncated, height, new_) == WithOneTooMany(new_, fork))
  {
    hide CanAppend;
    hide Appended;
    hide Checkpoints;
    hide Truncated;
    hide WithOneTooMany;
    var outgoing, height := |old_| - 1 - fork, |new_| - 1;
    TruncatedIsListOfFork(old_, fork, outgoing);
    ListOfSharedPrefix(new_, fork);
    var truncated := Truncated(Checkpoints(old_), fork, outgoing);
    if fork / INTERVAL < height / INTERVAL {
      AppendedIsOneTooMany(new_, fork);
    } else {
      NothingAppended(truncated, height, new_);
      ListOfSharedPrefix(new_, height);
      assert new_[..height + 1] == new_;
    }
  }

  /** The list of an index with one more header, that of the last checkpoint at or below the fork. */
  function WithOneTooMany(headers: Headers, fork: nat): seq<Hash>
    requires Readable(headers) && headers[0].Some? && fork < |headers|
  {
    var list, last := Checkpoints(headers), LastCheckpointHeight(fork);
    assert last > 0 ==> IsCheckpoint(last, |headers| - 1);
    list[..fork / INTERVAL] + [headers[last].value] + list[fork / INTERVAL..]
  }

  lemma CanAppendAbove(headers: Headers, size: nat)
    requires Readable(headers) && headers[0].Some?
    ensures CanAppend(size, |headers| - 1, headers)
  {
    var height := |headers| - 1;
    forall k | size <= k <= height / INTERVAL ensures headers[k * INTERVAL].Some? {
      if k > 0 {
        assert IsCheckpoint(k * INTERVAL, height);
      }
    }
  }

  lemma AppendedIsOneTooMany(headers: Headers, fork: nat)
    requires Readable(headers) && headers[0].Some? && fork / INTERVAL < (|headers| - 1) / INTERVAL
    ensures var list, height := Checkpoints(headers), |headers| - 1;
            && CanAppend(fork / INTERVAL, height, headers)
            && Appended(list[..fork / INTERVAL], height, headers) == WithOneTooMany(headers, fork)
            && |WithOneTooMany(headers, fork)| == |list| + 1
  {
    var list, height, size := Checkpoints(headers), |headers| - 1, fork / INTERVAL;
    CanAppendAbove(headers, size);
    var read := [headers[size * INTERVAL].value] + list[size..];
    forall j | 0 <= j < |read| ensures headers[(size + j) * INTERVAL] == Some(read[j]) {
      if j > 0 {
        assert IsCheckpoint((size + j) * INTERVAL, height);
        assert read[j] == list[size + j - 1];
      }
    }
    AppendedIs(list[..size], height, headers, read);
  }

  /** The height of the last checkpoint at or below a height; zero, that of genesis, when there is none. */
  function LastCheckpointHeight(height: nat): (r: nat)
    ensures r <= height < r + INTERVAL && r % INTERVAL == 0
  {
    height / INTERVAL * INTERVAL
  }

  /** A first checkpoint that comes with a reorganization: one block above genesis is replaced by 1001 others, and
      the cache starts with the filter header of genesis, which is no checkpoint. */
  lemma GenesisIsPutIn(old_: Headers, new_: Headers)
    requires |old_| == 2 && |new_| == 1002 && new_[0] == old_[0]
    requires (forall k :: 0 <= k < |old_| ==> old_[k].Some?) && (forall k :: 0 <= k < |new_| ==> new_[k].Some?)
    ensures Readable(old_) && Readable(new_)
    ensures var truncated := Truncated(Checkpoints(old_), 0, 1);
            && CanAppend(|truncated|, 1001, new_)
            && Appended(truncated, 1001, new_) == [new_[0].value, new_[1000].value]
            && Checkpoints(new_) == [new_[1000].value]
  {
    UpdateIsRebuildWhenNothingIsAdded(old_, new_, 0);
  }

  lemma AppendedIs(checkpoints: seq<Hash>, height: nat, headers: Headers, read: seq<Hash>)
    requires |checkpoints| < height / INTERVAL && CanAppend(|checkpoints|, height, headers)
    requires |read| == height / INTERVAL - |checkpoints| + 1
    requires forall j :: 0 <= j < |read| ==>
               (|checkpoints| + j) * INTERVAL < |headers| && headers[(|checkpoints| + j) * INTERVAL] == Some(read[j])
    ensures Appended(checkpoints, height, headers) == checkpoints + read
  {
    assert Appended(checkpoints, height, headers)[|checkpoints|..] == read;
  }

  lemma NothingAppended(checkpoints: seq<Hash>, height: nat, headers: Headers)
    requires |checkpoints| >= height / INTERVAL
    ensures Appended(checkpoints, height, headers) == checkpoints
  {
  }

  // ---------------------------------------------------------------- the loops end

  /** The index of the rebuilding loop after n rounds. */
  function IndexAt(n: nat): nat {
    if n == 0 then INTERVAL else CeilingAdd(IndexAt(n - 1), INTERVAL)
  }

  lemma {:induction false} IndexSaturates(n: nat)
    ensures IndexAt(n) == if (n + 1) * INTERVAL > MAX_UINT64 then MAX_UINT64 else (n + 1) * INTERVAL
  {
    if n > 0 {
      IndexSaturates(n - 1);
    }
  }

  /** The loops pass a top height, and so end, exactly when it is below the range of the heights:
      at the maximum the saturated index never exceeds it. */
  lemma LoopEndsBelowMaximum(top: nat)
    requires top <= MAX_UINT64
    ensures (exists n :: IndexAt(n) > top) <==> top < MAX_UINT64
  {
    if top < MAX_UINT64 {
      IndexSaturates(top);
      assert IndexAt(top) > top;
    }
    forall n ensures IndexAt(n) <= MAX_UINT64 {
      IndexSaturates(n);
    }
  }

  class FilterCache {
    var checkpoints: seq<Hash>

    constructor ()
      ensures checkpoints == []
    {
      checkpoints := [];
    }

    /** Rebuild the cache; it is left as it was when a header cannot be read. */
    method Populate(headers: Headers) returns (ok: bool)
      requires |headers| <= MAX_UINT64
      modifies this
      ensures ok <==> Readable(headers)
      ensures checkpoints == if ok then Checkpoints(headers) else old(checkpoints)
    {
      if headers == [] {
        return false;
      }
      var height := |headers| - 1;
      var list: seq<Hash> := [];
      var index := INTERVAL;
      while index <= height
        invariant height < index || index == (|list| + 1) * INTERVAL
        invariant |list| <= height / INTERVAL && (height < index ==> |list| == height / INTERVAL)
        invariant forall k :: 0 <= k < |list| ==> headers[(k + 1) * INTERVAL] == Some(list[k])
        decreases MAX_UINT64 - index
      {
        if headers[index].None? {
          assert IsCheckpoint(index, height);
          return false;
        }
        list := list + [headers[index].value];
        index := CeilingAdd(index, INTERVAL);
      }
      forall h | IsCheckpoint(h, height) ensures headers[h].Some? {
        var k := h / INTERVAL - 1;
        assert headers[(k + 1) * INTERVAL] == Some(list[k]);
      }
      checkpoints := list;
      ok := true;
    }

    /** Update the cache after a reorganization; headers is the confirmed index it leaves. */
    method Update(headers: Headers, fork: nat, outgoing: nat, incoming: nat) returns (ok: bool)
      requires |headers| == fork + incoming + 1 <= MAX_UINT64
      modifies this
      ensures var truncated := Truncated(old(checkpoints), fork, outgoing);
              var appends := |truncated| < (fork + incoming) / INTERVAL;
              if incoming == 0 then ok && checkpoints == truncated
              else && ok == (appends ==> CanAppend(|truncated|, fork + incoming, headers))
                   && checkpoints == if ok then Appended(truncated, fork + incoming, headers) else old(checkpoints)
    {
      hide CanAppend;
      hide Appended;
      var list := checkpoints;
      if outgoing != 0 {
        var previousCount := CeilingAdd(fork, outgoing) / INTERVAL;
        var forkCount := fork / INTERVAL;
        if previousCount > forkCount {
          list := list[..FloorSubtract(|list|, previousCount - forkCount)];
        }
      }
      if incoming != 0 {
        var height := CeilingAdd(fork, incoming);
        if |list| < height / INTERVAL {
          var appended := ReadFrom(headers, height, |list|);
          if appended.None? {
            return false;
          }
          AppendedIs(list, height, headers, appended.value);
          list := list + appended.value;
        } else {
          NothingAppended(list, height, headers);
        }
      }
      checkpoints := list;
      ok := true;
    }

    /** Read the headers at the multiples of the interval, from that of the cached size on. */
    method ReadFrom(headers: Headers, height: nat, size: nat) returns (read: Option<seq<Hash>>)
      requires |headers| == height + 1 <= MAX_UINT64 && size < height / INTERVAL
      ensures read.Some? <==> CanAppend(size, height, headers)
      ensures read.Some? ==>
                && |read.value| == height / INTERVAL - size + 1
                && forall j :: 0 <= j < |read.value| ==>
                     (size + j) * INTERVAL < |headers| && headers[(size + j) * INTERVAL] == Some(read.value[j])
    {
      var list: seq<Hash> := [];
      var index := size * INTERVAL;
      while index <= height
        invariant height < index || index == (size + |list|) * INTERVAL
        invariant size + |list| <= height / INTERVAL + 1
        invariant height < index ==> size + |list| == height / INTERVAL + 1
        invariant forall k :: 0 <= k < |list| ==> headers[(size + k) * INTERVAL] == Some(list[k])
        decreases MAX_UINT64 - index
      {
        if headers[index].None? {
          assert size <= size + |list| <= height / INTERVAL;
          assert headers[(size + |list|) * INTERVAL].None?;
          return None;
        }
        list := list + [headers[index].value];
        index := CeilingAdd(index, INTERVAL);
      }
      forall k | size <= k <= height / INTERVAL ensures headers[k * INTERVAL].Some? {
        assert headers[(size + (k - size)) * INTERVAL] == Some(list[k - size]);
      }
      return Some(list);
    }
  }
}
