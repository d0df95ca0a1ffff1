/** The append-only event log on disk: length-prefixed records, a write buffer that only a flush
    makes readable, and a bounded cache of record offsets in least-recently-used order. */
module DiskEventLog {
  import opened Common

  newtype byte = x: int | 0 <= x < 256

  const HEADER_SIZE := 4
  const OFFSET_CACHE_SIZE := 128
  const LENGTH_LIMIT := 0x1_0000_0000

  type Payload = seq<byte>

  // ---------------------------------------------------------------- framing

  /** The length of a record as an unsigned 32-bit big-endian number. */
  function Header(n: nat): (h: seq<byte>)
    requires n < LENGTH_LIMIT
    ensures |h| == HEADER_SIZE
  {
    [(n / 0x100_0000) as byte, (n / 0x1_0000 % 0x100) as byte, (n / 0x100 % 0x100) as byte, (n % 0x100) as byte]
  }

  function UnpackHeader(h: seq<byte>): nat
    requires |h| == HEADER_SIZE
  {
    (h[0] as nat) * 0x100_0000 + (h[1] as nat) * 0x1_0000 + (h[2] as nat) * 0x100 + (h[3] as nat)
  }

  /** The four bytes are the length's digits to base 256, the highest first. */
  lemma HeaderIsBigEndian(n: nat)
    requires n < 0x1_0000_0000
    ensures |Header(n)| == 4
    ensures Header(n)[0] as int == n / 16777216 && Header(n)[1] as int == n / 65536 % 256
    ensures Header(n)[2] as int == n / 256 % 256 && Header(n)[3] as int == n % 256
  {
  }

  lemma ByteSplit(n: nat, a: nat, b: nat, c: nat)
    requires n < LENGTH_LIMIT && a == n / 0x100 && b == n / 0x1_0000 && c == n / 0x100_0000
    ensures c < 0x100 && n == c * 0x100_0000 + (b % 0x100) * 0x1_0000 + (a % 0x100) * 0x100 + n % 0x100
  {
    assert b == a / 0x100 && c == b / 0x100;
  }

  lemma HeaderRoundTrip(n: nat)
    requires n < LENGTH_LIMIT
    ensures UnpackHeader(Header(n)) == n
  {
    ByteSplit(n, n / 0x100, n / 0x1_0000, n / 0x100_0000);
  }

  ghost predicate Storable(records: seq<Payload>)
  {
    forall i :: 0 <= i < |records| ==> |records[i]| < LENGTH_LIMIT
  }

  function Frame(p: Payload): seq<byte>
    requires |p| < LENGTH_LIMIT
  {
    Header(|p|) + p
  }

  /** The bytes a sequence of records occupies. */
  ghost function Image(records: seq<Payload>): seq<byte>
    requires Storable(records)
  {
    if records == [] then []
    else Image(records[..|records| - 1]) + Frame(records[|records| - 1])
  }

  /** Where record `i` starts. */
  ghost function OffsetOf(records: seq<Payload>, i: nat): nat
    requires Storable(records) && i <= |records|
  {
    |Image(records[..i])|
  }

  /** A record is its length and its payload, behind everything before it. */
  lemma ImageGrows(records: seq<Payload>, p: Payload)
    requires Storable(records) && |p| < 0x1_0000_0000
    ensures Image([]) == [] && Image(records + [p]) == Image(records) + Header(|p|) + p
  {
    assert (records + [p])[..|records|] == records;
    assert Image(records) + (Header(|p|) + p) == Image(records) + Header(|p|) + p;
  }

  lemma {:induction false} ImagePrefix(records: seq<Payload>, i: nat)
    requires Storable(records) && i <= |records|
    ensures Image(records[..i]) <= Image(records)
    decreases |records|
  {
    if i < |records| {
      ImagePrefix(records[..|records| - 1], i);
      assert records[..|records| - 1][..i] == records[..i];
    } else {
      assert records[..i] == records;
    }
  }

  lemma Middle(a: seq<byte>, h: seq<byte>, p: seq<byte>, whole: seq<byte>)
    requires a + (h + p) <= whole
    ensures whole[|a|..|a| + |h|] == h
    ensures whole[|a| + |h|..|a| + |h| + |p|] == p
  {
    assert whole[|a|..|a| + |h| + |p|] == h + p;
  }

  /** Record `i` sits framed at its offset, and the next record starts right behind it. */
  lemma RecordAt(records: seq<Payload>, i: nat)
    requires Storable(records) && i < |records|
    ensures var o := OffsetOf(records, i);
            && OffsetOf(records, i + 1) == o + HEADER_SIZE + |records[i]| <= |Image(records)|
            && Image(records)[o..o + HEADER_SIZE] == Header(|records[i]|)
            && Image(records)[o + HEADER_SIZE..OffsetOf(records, i + 1)] == records[i]
  {
    var upto, p := records[..i + 1], records[i];
    assert upto[..i] == records[..i];
    ImagePrefix(records, i + 1);
    Middle(Image(records[..i]), Header(|p|), p, Image(records));
  }

  /** Offsets of existing records never move when records are added. */
  lemma OffsetsStable(records: seq<Payload>, more: seq<Payload>, i: nat)
    requires Storable(records) && Storable(records + more) && i <= |records|
    ensures OffsetOf(records + more, i) == OffsetOf(records, i)
  {
    assert (records + more)[..i] == records[..i];
  }

  // ---------------------------------------------------------------- reading a file

  /** `_skip_record`: the position after one record, or at the end of a truncated header. */
  function SkipRecord(data: seq<byte>, pos: nat): nat
  {
    if pos + HEADER_SIZE > |data| then (if pos < |data| then |data| else pos)
    else pos + HEADER_SIZE + UnpackHeader(data[pos..pos + HEADER_SIZE])
  }

  /** `_read_record`: the payload and the position after it, or None on a truncated record. */
  function ReadRecord(data: seq<byte>, pos: nat): (Option<Payload>, nat)
  {
    if pos + HEADER_SIZE > |data| then (None, if pos < |data| then |data| else pos)
    else
      var length := UnpackHeader(data[pos..pos + HEADER_SIZE]);
      var body := pos + HEADER_SIZE;
      if body + length > |data| then (None, |data|)
      else (Some(data[body..body + length]), body + length)
  }

  /** A record cut short, in its header or its payload, reads as the end of the log. */
  lemma ShortRead(data: seq<byte>, pos: nat)
    requires pos <= |data| && (|data| < pos + 4 || |data| < pos + 4 + UnpackHeader(data[pos..pos + 4]))
    ensures ReadRecord(data, pos) == (None, |data|)
    ensures |data| < pos + 4 ==> SkipRecord(data, pos) == |data|
    ensures |data| >= pos + 4 ==> SkipRecord(data, pos) == pos + 4 + UnpackHeader(data[pos..pos + 4])
  {
  }

  lemma ReadsFrame(data: seq<byte>, o: nat, h: seq<byte>, p: Payload)
    requires |h| == HEADER_SIZE && UnpackHeader(h) == |p|
    requires o + HEADER_SIZE + |p| <= |data|
    requires data[o..o + HEADER_SIZE] == h && data[o + HEADER_SIZE..o + HEADER_SIZE + |p|] == p
    ensures ReadRecord(data, o) == (Some(p), o + HEADER_SIZE + |p|)
    ensures SkipRecord(data, o) == o + HEADER_SIZE + |p|
  {
  }

  lemma SamePrefix(short: seq<byte>, long: seq<byte>, lo: nat, hi: nat)
    requires short <= long && lo <= hi <= |short|
    ensures short[lo..hi] == long[lo..hi]
  {
  }

  lemma FrameWithin(image: seq<byte>, data: seq<byte>, o: nat, h: seq<byte>, p: Payload)
    requires image <= data && o + HEADER_SIZE + |p| <= |image|
    requires |h| == HEADER_SIZE && UnpackHeader(h) == |p|
    requires image[o..o + HEADER_SIZE] == h && image[o + HEADER_SIZE..o + HEADER_SIZE + |p|] == p
    ensures ReadRecord(data, o) == (Some(p), o + HEADER_SIZE + |p|)
    ensures SkipRecord(data, o) == o + HEADER_SIZE + |p|
  {
    SamePrefix(image, data, o, o + HEADER_SIZE);
    SamePrefix(image, data, o + HEADER_SIZE, o + HEADER_SIZE + |p|);
    ReadsFrame(data, o, h, p);
  }

  lemma FramedAt(records: seq<Payload>, i: nat, o: nat) returns (image: seq<byte>, h: seq<byte>, p: Payload)
    requires Storable(records) && i < |records| && o == OffsetOf(records, i)
    ensures image == Image(records) && p == records[i]
    ensures |h| == HEADER_SIZE && UnpackHeader(h) == |p|
    ensures OffsetOf(records, i + 1) == o + HEADER_SIZE + |p| <= |image|
    ensures image[o..o + HEADER_SIZE] == h && image[o + HEADER_SIZE..o + HEADER_SIZE + |p|] == p
  {
    image, h, p := Image(records), Header(|records[i]|), records[i];
    HeaderRoundTrip(|records[i]|);
    RecordAt(records, i);
  }

  lemma ReadsRecord(records: seq<Payload>, data: seq<byte>, i: nat, o: nat)
    requires Storable(records) && i < |records| && Image(records) <= data && o == OffsetOf(records, i)
    ensures ReadRecord(data, o) == (Some(records[i]), OffsetOf(records, i + 1))
    ensures SkipRecord(data, o) == OffsetOf(records, i + 1)
  {
    var image, h, p := FramedAt(records, i, o);
    FrameWithin(image, data, o, h, p);
  }

  // ---------------------------------------------------------------- the offset cache

  function Drop(order: seq<nat>, idx: nat): seq<nat>
  {
    if order == [] then []
    else (if order[0] == idx then [] else [order[0]]) + Drop(order[1..], idx)
  }

  /** `move_to_end`: `idx` becomes the most recently used. */
  function Touch(order: seq<nat>, idx: nat): seq<nat>
  {
    Drop(order, idx) + [idx]
  }

  lemma {:induction false} DropKeeps(order: seq<nat>, idx: nat)
    requires Distinct(order)
    ensures forall x :: x in Drop(order, idx) <==> x in order && x != idx
    ensures Distinct(Drop(order, idx))
    ensures |Drop(order, idx)| == if idx in order then |order| - 1 else |order|
  {
    if order != [] {
      var rest := order[1..];
      assert forall i :: 0 <= i < |rest| ==> rest[i] == order[i + 1];
      assert forall x :: x in order <==> x == order[0] || x in rest;
      assert order[0] !in rest;
      DropKeeps(rest, idx);
    }
  }

  /** The cache: offsets by index, and the indices from least to most recently used. */
  datatype Cache = Cache(order: seq<nat>, offsets: map<nat, nat>)

  /** Every cached offset is the true start of its record, each index is listed once, and the
      cache stays within its bound. */
  ghost predicate CacheCorrect(c: Cache, records: seq<Payload>)
    requires Storable(records)
  {
    && Distinct(c.order)
    && |c.order| <= OFFSET_CACHE_SIZE
    && (forall x :: x in c.order <==> x in c.offsets)
    && forall x :: x in c.offsets ==> x <= |records| && c.offsets[x] == OffsetOf(records, x)
  }

  /** The cache after `_cache_offset`: the index is most recent, and past the bound the least
      recently used entry is gone. */
  ghost function Cached(c: Cache, idx: nat, offset: nat): Cache
  {
    var order := Touch(c.order, idx);
    var offsets := c.offsets[idx := offset];
    if |order| > OFFSET_CACHE_SIZE then Cache(order[1..], offsets - {order[0]}) else Cache(order, offsets)
  }

  /** The order after an index was used: it is most recent, and past the bound the least recent is gone. */
  function Used(order: seq<nat>, idx: nat): seq<nat>
  {
    var touched := Touch(order, idx);
    if |touched| > OFFSET_CACHE_SIZE then touched[1..] else touched
  }

  /** The most recently used index below the target, or zero. */
  function LastBelow(order: seq<nat>, target: nat): nat
  {
    if order == [] then 0
    else if order[|order| - 1] < target then order[|order| - 1]
    else LastBelow(order[..|order| - 1], target)
  }

  /** The highest cached index below the target, or zero. */
  ghost predicate IsHighestBelow(order: seq<nat>, target: nat, idx: nat)
  {
    && (idx == 0 || (idx in order && idx < target))
    && forall x :: x in order && x < target ==> x <= idx
  }

  /** No index below the target was used after this one. */
  ghost predicate IsRecentBelow(order: seq<nat>, target: nat, k: nat)
    requires k < |order|
  {
    order[k] < target && forall j :: k < j < |order| ==> order[j] >= target
  }

  lemma {:induction false} LastBelowIs(order: seq<nat>, target: nat)
    ensures forall k: nat :: k < |order| && IsRecentBelow(order, target, k) ==> LastBelow(order, target) == order[k]
    ensures (exists k: nat :: k < |order| && IsRecentBelow(order, target, k))
            || (LastBelow(order, target) == 0 && forall x :: x in order ==> x >= target)
  {
    if order != [] {
      var front, last := order[..|order| - 1], |order| - 1;
      if order[last] < target {
        assert IsRecentBelow(order, target, last);
      } else {
        LastBelowIs(front, target);
        forall k: nat | k < |front| ensures IsRecentBelow(order, target, k) <==> IsRecentBelow(front, target, k) {
        }
        assert order == front + [order[last]];
      }
    }
  }

  ghost predicate NoneLargerBefore(order: seq<nat>, target: nat, k: nat)
    requires k < |order|
  {
    forall i :: 0 <= i < k && order[i] < target ==> order[i] <= order[k]
  }

  lemma RecentIsHighest(order: seq<nat>, target: nat, k: nat)
    requires k < |order| && IsRecentBelow(order, target, k)
    ensures IsHighestBelow(order, target, order[k]) <==> NoneLargerBefore(order, target, k)
  {
    if NoneLargerBefore(order, target, k) {
      forall x | x in order && x < target ensures x <= order[k] {
        var i :| 0 <= i < |order| && order[i] == x;
      }
    } else {
      var i :| 0 <= i < k && order[i] < target && order[i] > order[k];
      assert order[i] in order;
    }
  }

  /** The scan starts at the highest cached index below the target if and only if no larger one below
      the target is cached than the one used last. */
  lemma StartsAtHighestExactly(order: seq<nat>, target: nat)
    ensures IsHighestBelow(order, target, LastBelow(order, target))
       <==> forall k: nat :: k < |order| && IsRecentBelow(order, target, k) ==> NoneLargerBefore(order, target, k)
  {
    LastBelowIs(order, target);
    forall k: nat | k < |order| && IsRecentBelow(order, target, k)
      ensures IsHighestBelow(order, target, LastBelow(order, target)) <==> NoneLargerBefore(order, target, k)
    {
      RecentIsHighest(order, target, k);
    }
  }

  /** With index 5 cached before index 2, the scan for index 7 starts at 2. */
  lemma NearestPassedOver()
    ensures LastBelow([5, 2], 7) == 2 && IsHighestBelow([5, 2], 7, 5)
  {
    assert [5, 2][1] == 2;
  }

  lemma TouchKeeps(order: seq<nat>, idx: nat)
    requires Distinct(order)
    ensures Distinct(Touch(order, idx))
    ensures forall x :: x in Touch(order, idx) <==> x in order || x == idx
    ensures |Touch(order, idx)| == if idx in order then |order| else |order| + 1
  {
    DropKeeps(order, idx);
  }

  lemma TouchedCorrect(c: Cache, records: seq<Payload>, idx: nat)
    requires Storable(records) && CacheCorrect(c, records) && idx in c.offsets
    ensures CacheCorrect(Cache(Touch(c.order, idx), c.offsets), records)
  {
    TouchKeeps(c.order, idx);
  }

  lemma CachedCorrect(c: Cache, records: seq<Payload>, idx: nat)
    requires Storable(records) && CacheCorrect(c, records) && idx <= |records|
    ensures CacheCorrect(Cached(c, idx, OffsetOf(records, idx)), records)
    ensures idx in Cached(c, idx, OffsetOf(records, idx)).offsets
  {
    TouchKeeps(c.order, idx);
    var order := Touch(c.order, idx);
    if |order| > OFFSET_CACHE_SIZE {
      assert order[|order| - 1] == idx;
      assert forall i :: 0 <= i < |order[1..]| ==> order[1..][i] == order[i + 1];
      assert forall x :: x in order <==> x == order[0] || x in order[1..];
      assert order[0] !in order[1..];
    }
  }

  lemma {:induction false} DropAbsent(order: seq<nat>, idx: nat)
    requires idx !in order
    ensures Drop(order, idx) == order
  {
    if order != [] {
      DropAbsent(order[1..], idx);
      assert order == [order[0]] + order[1..];
    }
  }

  /** What is cached becomes the most recent of up to 128; only then, and only for a new one, does
      another go, which is the least recent. */
  lemma CachedIsRecent(c: Cache, idx: nat, offset: nat)
    requires Distinct(c.order) && |c.order| <= 128 && forall x :: x in c.order <==> x in c.offsets
    ensures var after := Cached(c, idx, offset);
            && after.order != [] && after.order[|after.order| - 1] == idx && after.order == Used(c.order, idx)
            && idx in after.offsets && after.offsets[idx] == offset
            && forall x :: x != idx ==>
                 if idx !in c.order && |c.order| == 128 && x == c.order[0] then x !in after.offsets
                 else (x in after.offsets <==> x in c.offsets) && (x in c.offsets ==> after.offsets[x] == c.offsets[x])
  {
    TouchKeeps(c.order, idx);
    if idx !in c.order {
      DropAbsent(c.order, idx);
    }
  }

  lemma CacheSurvivesAppend(c: Cache, records: seq<Payload>, p: Payload)
    requires Storable(records) && |p| < LENGTH_LIMIT && CacheCorrect(c, records)
    ensures Storable(records + [p]) && CacheCorrect(c, records + [p])
  {
    forall x | x in c.offsets ensures c.offsets[x] == OffsetOf(records + [p], x) {
      OffsetsStable(records, [p], x);
    }
  }

  class EventLog {
    var disk: seq<byte>
    var buffered: seq<byte>
    var count: nat
    var order: seq<nat>
    var cache: map<nat, nat>
    ghost var records: seq<Payload>

    ghost predicate Valid()
      reads this
    {
      && Storable(records)
      && count == |records|
      && disk + buffered == Image(records)
      && CacheCorrect(Cache(order, cache), records)
    }

    constructor ()
      ensures Valid() && records == [] && order == [] && cache == map[]
    {
      disk, buffered, count, order, cache, records := [], [], 0, [], map[], [];
    }

    /** `append`; the operating system may write any part of the buffer out early. A payload
        whose length does not fit the header raises before anything is written. */
    method Append(p: Payload) returns (ok: bool)
      requires Valid()
      modifies this
      ensures Valid() && order == old(order) && cache == old(cache) && old(disk) <= disk
      ensures ok == (|p| < 0x1_0000_0000)
      ensures records == if ok then old(records) + [p] else old(records)
    {
      if |p| >= LENGTH_LIMIT {
        return false;
      }
      CacheSurvivesAppend(Cache(order, cache), records, p);
      assert (records + [p])[..|records|] == records;
      buffered := buffered + Header(|p|);
      buffered := buffered + p;
      count := count + 1;
      records := records + [p];
      assert disk + buffered == Image(records);
      var spilled: nat :| spilled <= |buffered|;
      disk, buffered := disk + buffered[..spilled], buffered[spilled..];
      ok := true;
    }

    method Flush()
      requires Valid()
      modifies this`disk, this`buffered
      ensures Valid() && disk == Image(records) && old(disk) <= disk
    {
      disk, buffered := disk + buffered, [];
    }

    method CacheOffset(idx: nat, offset: nat)
      requires Valid() && idx <= |records| && offset == OffsetOf(records, idx)
      modifies this`order, this`cache
      ensures Valid() && idx in cache
      ensures Cache(order, cache) == Cached(old(Cache(order, cache)), idx, offset)
    {
      CachedCorrect(Cache(order, cache), records, idx);
      cache := cache[idx := offset];
      order := Touch(order, idx);
      if |order| > OFFSET_CACHE_SIZE {
        cache := cache - {order[0]};
        order := order[1..];
      }
    }

    /** The last cached index below the target in order of use; not always the nearest one. */
    method ScanStart(target: nat) returns (idx: nat, offset: nat)
      requires Valid()
      ensures idx <= target && idx <= |records| && offset == OffsetOf(records, idx)
      ensures idx == LastBelow(order, target)
    {
      idx, offset := 0, 0;
      assert records[..0] == [];
      for k := 0 to |order|
        invariant idx <= target && idx <= |records| && offset == OffsetOf(records, idx)
        invariant idx == LastBelow(order[..k], target)
      {
        assert order[k] in order && order[..k + 1][..k] == order[..k];
        if order[k] < target {
          idx, offset := order[k], cache[order[k]];
        }
      }
      assert order[..|order|] == order;
    }

    method SkipForward(idx: nat, offset: nat, target: nat) returns (pos: nat)
      requires Valid() && disk == Image(records)
      requires idx <= target <= |records| && offset == OffsetOf(records, idx)
      ensures pos == OffsetOf(records, target)
    {
      pos := offset;
      for i := idx to target
        invariant pos == OffsetOf(records, i)
      {
        ReadsRecord(records, disk, i, pos);
        pos := SkipRecord(disk, pos);
      }
    }

    method SeekTo(target: nat) returns (pos: nat)
      requires Valid() && target <= |records| && disk == Image(records)
      modifies this`order, this`cache
      ensures Valid() && pos == OffsetOf(records, target) && target in cache
      ensures order == Used(old(order), target)
    {
      if target in cache {
        TouchedCorrect(Cache(order, cache), records, target);
        TouchKeeps(order, target);
        order := Touch(order, target);
        return cache[target];
      }
      var idx, offset := ScanStart(target);
      pos := SkipForward(idx, offset, target);
      CacheOffset(target, pos);
    }
  }

  // ---------------------------------------------------------------- lazy range reads

  /** The records a range read yields, by the log as it was when the read started. */
  ghost function Slice(records: seq<Payload>, start: int, end: int): seq<Payload>
  {
    var limit := if end < |records| then end else |records|;
    if start < 0 || end < 0 || start >= limit then [] else records[start..limit]
  }

  lemma NextOffset(view: seq<Payload>, data: seq<byte>, start: int, end: int, taken: nat, o: nat)
    returns (next: nat)
    requires Storable(view) && Image(view) <= data
    requires 0 <= start && start + taken < (if end < |view| then end else |view|)
    requires o == OffsetOf(view, start + taken)
    ensures next == OffsetOf(view, start + taken + 1)
    ensures taken < |Slice(view, start, end)|
    ensures ReadRecord(data, o) == (Some(Slice(view, start, end)[taken]), next)
  {
    next := OffsetOf(view, start + taken + 1);
    ReadsRecord(view, data, start + taken, o);
  }

  datatype Phase = NotStarted | Reading | Done

  /** What the read saw is still there, and readable while it is reading. */
  ghost predicate Grounded(view: seq<Payload>, phase: Phase, records: seq<Payload>, disk: seq<byte>)
  {
    view <= records && Storable(view) && (phase == Reading ==> Image(view) <= disk)
  }

  lemma PrefixOffset(view: seq<Payload>, records: seq<Payload>, i: nat)
    requires Storable(records) && view <= records && i <= |view|
    ensures Storable(view) && OffsetOf(view, i) == OffsetOf(records, i)
  {
    assert view[..i] == records[..i];
  }

  /** A range that was read to its end makes the index it stopped at the one used last, if the log goes
      on there. */
  ghost function UsedAtEnd(order: seq<nat>, view: seq<Payload>, end: int, count: nat): seq<nat>
  {
    var limit := if end < |view| then end else |view|;
    if 0 <= limit < count then Used(order, limit) else order
  }

  /** The generator behind `read_range`: nothing happens until the first item is asked for. */
  class RangeRead {
    const log: EventLog
    const start: int
    const end: int
    var phase: Phase
    var limit: int
    var pos: nat
    var taken: nat
    ghost var view: seq<Payload>

    /** The read's own bookkeeping against the log as it saw it. */
    ghost predicate Own()
      reads this
    {
      && Storable(view)
      && (phase == NotStarted ==> taken == 0)
      && (phase == Reading ==>
            && limit == (if end < |view| then end else |view|)
            && 0 <= start < limit && start + taken <= limit
            && pos == OffsetOf(view, start + taken))
      && (phase != NotStarted ==> taken <= |Slice(view, start, end)|)
      && (phase == Done ==> taken == |Slice(view, start, end)|)
    }

    ghost predicate Valid()
      reads this, log
    {
      log.Valid() && Own() && Grounded(view, phase, log.records, log.disk)
    }

    constructor (log: EventLog, start: int, end: int)
      requires log.Valid()
      ensures Valid() && this.log == log && this.start == start && this.end == end && phase == NotStarted
    {
      this.log, this.start, this.end := log, start, end;
      phase, limit, pos, taken, view := NotStarted, 0, 0, 0, [];
    }

    method Seek()
      requires log.Valid() && view == log.records && taken == 0
      requires limit == (if end < |view| then end else |view|) && 0 <= start < limit
      modifies this`pos, this`phase, log`disk, log`buffered, log`order, log`cache
      ensures Valid() && phase == Reading && old(log.disk) <= log.disk
      ensures log.order == Used(old(log.order), start)
    {
      log.Flush();
      pos := log.SeekTo(start);
      phase := Reading;
    }

    /** Up to the first item: fix the range, flush, and seek. */
    method Start()
      requires Valid() && phase == NotStarted
      modifies this, log`disk, log`buffered, log`order, log`cache
      ensures Valid() && phase != NotStarted && taken == 0 && old(log.disk) <= log.disk
      ensures view == log.records
      ensures log.order == if phase == Reading then Used(old(log.order), start) else old(log.order)
    {
      view := log.records;
      limit := if end < log.count then end else log.count;
      if start < 0 || end < 0 || start >= limit {
        phase := Done;
        return;
      }
      Seek();
    }

    /** The loop body of the generator. */
    method Take() returns (r: Option<Payload>)
      requires Valid() && phase == Reading && start + taken < limit
      modifies this
      ensures Valid() && phase == Reading && view == old(view) && taken == old(taken) + 1
      ensures old(taken) < |Slice(view, start, end)| && r == Some(Slice(view, start, end)[old(taken)])
    {
      ghost var next := NextOffset(view, log.disk, start, end, taken, pos);
      var (record, after) := ReadRecord(log.disk, pos);
      pos, taken := after, taken + 1;
      assert pos == next;
      return record;
    }

    /** After the loop: remember where the read ended, if there is a record there. */
    method Finish()
      requires Valid() && phase == Reading && start + taken == limit
      modifies this, log`order, log`cache
      ensures Valid() && phase == Done && view == old(view) && taken == old(taken)
      ensures log.order == UsedAtEnd(old(log.order), view, end, |log.records|)
    {
      if limit < log.count {
        PrefixOffset(view, log.records, limit);
        log.CacheOffset(limit, pos);
      }
      phase := Done;
    }

    method Next() returns (r: Option<Payload>)
      requires Valid()
      modifies this, log`disk, log`buffered, log`order, log`cache
      ensures Valid() && phase != NotStarted && old(log.disk) <= log.disk
      ensures view == if old(phase) == NotStarted then old(log.records) else old(view)
      ensures var items := Slice(view, start, end);
              if old(taken) < |items| then r == Some(items[old(taken)]) && taken == old(taken) + 1
              else r == None && taken == old(taken) && phase == Done
      ensures old(phase) == NotStarted ==>
                log.order == if r.Some? then Used(old(log.order), start) else old(log.order)
      ensures old(phase) != NotStarted ==>
                log.order == if old(phase) == Reading && r.None? then UsedAtEnd(old(log.order), view, end, |log.records|)
                             else old(log.order)
    {
      if phase == NotStarted {
        Start();
      }
      if phase == Done {
        return None;
      }
      if start + taken < limit {
        r := Take();
      } else {
        Finish();
        r := None;
      }
    }
  }

  lemma NextIsPrefix(all: seq<Payload>, items: seq<Payload>, next: Payload)
    requires items <= all && |items| < |all| && next == all[|items|]
    ensures items + [next] <= all
  {
  }

  /** A fully consumed read yields exactly the slice. */
  method ReadRange(log: EventLog, start: int, end: int) returns (items: seq<Payload>)
    requires log.Valid()
    modifies log`disk, log`buffered, log`order, log`cache
    ensures log.Valid()
    ensures items == Slice(log.records, start, end)
  {
    ghost var all := Slice(log.records, start, end);
    var read := new RangeRead(log, start, end);
    items := [];
    var r := read.Next();
    while r != None
      invariant read.Valid() && read.log == log && fresh(read) && read.phase != NotStarted
      invariant Slice(read.view, read.start, read.end) == all && items <= all
      invariant if r == None then |items| == |all|
                else |items| < |all| && read.taken == |items| + 1 && r.value == all[|items|]
      decreases |all| - |items|
    {
      NextIsPrefix(all, items, r.value);
      items := items + [r.value];
      r := read.Next();
    }
  }

  method LogOf(count: nat) returns (log: EventLog)
    ensures fresh(log) && log.Valid() && |log.records| == count && log.order == []
  {
    log := new EventLog();
    for n := 0 to count
      invariant fresh(log) && log.Valid() && |log.records| == n && log.order == []
    {
      var ok := log.Append([]);
    }
  }

  /** Two range reads, of which one item each is taken, after which the scan for index 7 starts at 2
      although 5 is cached. */
  method PassOverNearest() returns (log: EventLog, from: nat)
    ensures fresh(log) && log.Valid() && log.order == [5, 2]
    ensures from == 2 && IsHighestBelow(log.order, 7, 5)
  {
    log := LogOf(8);
    var first := new RangeRead(log, 5, 8);
    var a := first.Next();
    assert log.order == [5] by {
      assert Drop([], 5) == [];
    }
    var second := new RangeRead(log, 2, 8);
    var b := second.Next();
    assert log.order == [5, 2] by {
      assert [5][1..] == [] && Drop([5], 2) == [5] + Drop([], 2);
    }
    NearestPassedOver();
    var offset;
    from, offset := log.ScanStart(7);
  }

  // ---------------------------------------------------------------- any interleaving

  datatype Op = Add(p: Payload) | Advance(reader: nat)

  /** What a read has yielded so far is a prefix of the slice of the log it started on. */
  ghost predicate Progress(read: RangeRead, log: EventLog, items: seq<Payload>)
    reads read, read.log
  {
    && read.Valid() && read.log == log
    && |items| == read.taken
    && (read.phase != NotStarted ==> items == Slice(read.view, read.start, read.end)[..read.taken])
  }

  ghost predicate AllProgress(log: EventLog, readers: seq<RangeRead>, yielded: seq<seq<Payload>>)
    reads log, readers, set k | 0 <= k < |readers| :: readers[k].log
  {
    && log.Valid() && |yielded| == |readers|
    && (forall k :: 0 <= k < |readers| ==> Progress(readers[k], log, yielded[k]))
    && forall j, k :: 0 <= j < k < |readers| ==> readers[j] != readers[k]
  }

  method AddRecord(log: EventLog, readers: seq<RangeRead>, yielded: seq<seq<Payload>>, p: Payload)
    requires AllProgress(log, readers, yielded)
    modifies log
    ensures AllProgress(log, readers, yielded) && old(log.records) <= log.records
  {
    assert forall k :: 0 <= k < |readers| ==> Progress(readers[k], log, yielded[k]);
    var ok := log.Append(p);
    assert forall k :: 0 <= k < |readers| ==> readers[k].Own();
  }

  method NextItem(read: RangeRead, log: EventLog, items: seq<Payload>) returns (more: seq<Payload>)
    requires Progress(read, log, items)
    modifies read, log`disk, log`buffered, log`order, log`cache
    ensures Progress(read, log, more) && log.Valid() && old(log.disk) <= log.disk
  {
    var r := read.Next();
    more := if r.Some? then items + [r.value] else items;
  }

  method AdvanceReader(log: EventLog, readers: seq<RangeRead>, yielded: seq<seq<Payload>>, n: nat)
    returns (more: seq<seq<Payload>>)
    requires AllProgress(log, readers, yielded) && n < |readers|
    modifies log`disk, log`buffered, log`order, log`cache, readers[n]
    ensures AllProgress(log, readers, more)
  {
    assert forall k :: 0 <= k < |readers| ==> Progress(readers[k], log, yielded[k]);
    var items := NextItem(readers[n], log, yielded[n]);
    assert forall k :: 0 <= k < |readers| && k != n ==> readers[k] != readers[n] && readers[k].Own();
    more := yielded[n := items];
  }

  /** Any interleaving of appends with any number of partly consumed reads over one log: every
      cached offset stays right, and each read yields the slice of the log as it stood when that
      read started, in order. */
  method Interleave(log: EventLog, readers: seq<RangeRead>, ops: seq<Op>)
    returns (yielded: seq<seq<Payload>>)
    requires AllProgress(log, readers, seq(|readers|, _ => []))
    modifies log, readers
    ensures AllProgress(log, readers, yielded) && old(log.records) <= log.records
  {
    yielded := seq(|readers|, _ => []);
    for n := 0 to |ops|
      invariant AllProgress(log, readers, yielded) && old(log.records) <= log.records
    {
      match ops[n] {
        case Add(p) => AddRecord(log, readers, yielded, p);
        case Advance(k) =>
          if k < |readers| {
            yielded := AdvanceReader(log, readers, yielded, k);
          }
      }
    }
  }
}
