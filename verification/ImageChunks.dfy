/** Images on their way from the API to the workers: split into bounded chunks that are numbered
    over all images of a command, and put together again from chunks in any order. */
module ImageChunks {
  import opened Common
  import Plan

  const MAX_CHUNK_SIZE := 512 * 1024

  datatype Chunk = Chunk(command: CommandId, data: string, index: nat, total: nat, image: nat)

  // ---------------------------------------------------------------- splitting

  /** A piece of image data with the image's number. */
  type Piece = (nat, string)

  function Pieces(image: nat, data: string): (r: seq<Piece>)
    decreases |data|
  {
    if data == "" then []
    else if |data| <= MAX_CHUNK_SIZE then [(image, data)]
    else [(image, data[..MAX_CHUNK_SIZE])] + Pieces(image, data[MAX_CHUNK_SIZE..])
  }

  ghost function PiecesFrom(image: nat, data: string, i: nat): seq<Piece>
  {
    if i < |data| then Pieces(image, data[i..]) else []
  }

  lemma PieceStep(image: nat, data: string, i: nat, end: nat)
    requires i < |data| && end == if i + MAX_CHUNK_SIZE < |data| then i + MAX_CHUNK_SIZE else |data|
    ensures PiecesFrom(image, data, i) == [(image, data[i..end])] + PiecesFrom(image, data, i + MAX_CHUNK_SIZE)
  {
    var rest := data[i..];
    if |rest| > MAX_CHUNK_SIZE {
      assert rest[..MAX_CHUNK_SIZE] == data[i..end] && rest[MAX_CHUNK_SIZE..] == data[i + MAX_CHUNK_SIZE..];
    } else {
      assert rest == data[i..end];
    }
  }

  function AllPieces(images: seq<Piece>): (r: seq<Piece>)
  {
    if images == [] then []
    else AllPieces(images[..|images| - 1]) + Pieces(images[|images| - 1].0, images[|images| - 1].1)
  }

  function Numbered(command: CommandId, pieces: seq<Piece>): (r: seq<Chunk>)
    ensures |r| == |pieces|
    ensures forall k :: 0 <= k < |r| ==> r[k] == Chunk(command, pieces[k].1, k, |pieces|, pieces[k].0)
  {
    seq(|pieces|, k requires 0 <= k < |pieces| => Chunk(command, pieces[k].1, k, |pieces|, pieces[k].0))
  }

  function Hashes(images: seq<string>, hash: string -> ImageHash): (r: set<ImageHash>)
  {
    set img | img in images :: hash(img)
  }

  /** The images whose hash was not seen before, with their place in the request. */
  function NewImages(images: seq<string>, hash: string -> ImageHash, sent: set<ImageHash>): (r: seq<Piece>)
  {
    if images == [] then []
    else
      var last := |images| - 1;
      NewImages(images[..last], hash, sent)
      + if hash(images[last]) in sent + Hashes(images[..last], hash) then [] else [(last, images[last])]
  }

  class ImageSender {
    const hash: string -> ImageHash
    var sentHashes: set<ImageHash>

    constructor (hash: string -> ImageHash)
      ensures this.hash == hash && sentHashes == {}
    {
      this.hash, sentHashes := hash, {};
    }

    method TakeNew(images: seq<string>) returns (unsent: seq<Piece>)
      modifies this
      ensures unsent == NewImages(images, hash, old(sentHashes))
      ensures sentHashes == old(sentHashes) + Hashes(images, hash)
    {
      unsent := [];
      for i := 0 to |images|
        invariant unsent == NewImages(images[..i], hash, old(sentHashes))
        invariant sentHashes == old(sentHashes) + Hashes(images[..i], hash)
      {
        assert images[..i + 1][..i] == images[..i] && images[..i + 1] == images[..i] + [images[i]];
        var h := hash(images[i]);
        assert Hashes(images[..i + 1], hash) == Hashes(images[..i], hash) + {h};
        if h !in sentHashes {
          sentHashes := sentHashes + {h};
          unsent := unsent + [(i, images[i])];
        }
      }
      assert images[..|images|] == images;
    }

    method Split(image: nat, data: string) returns (pieces: seq<Piece>)
      ensures pieces == Pieces(image, data)
    {
      pieces := [];
      var i := 0;
      assert data[0..] == data;
      while i < |data|
        invariant 0 <= i && pieces + PiecesFrom(image, data, i) == Pieces(image, data)
        decreases |data| - i
      {
        var end := if i + MAX_CHUNK_SIZE < |data| then i + MAX_CHUNK_SIZE else |data|;
        PieceStep(image, data, i, end);
        pieces := pieces + [(image, data[i..end])];
        i := i + MAX_CHUNK_SIZE;
      }
    }

    /** The chunks a request sends ahead of its command. */
    method SendImages(command: CommandId, images: seq<string>) returns (chunks: seq<Chunk>)
      modifies this
      ensures chunks == Numbered(command, AllPieces(NewImages(images, hash, old(sentHashes))))
      ensures sentHashes == old(sentHashes) + Hashes(images, hash)
    {
      var unsent := TakeNew(images);
      var pieces: seq<Piece> := [];
      for i := 0 to |unsent|
        invariant pieces == AllPieces(unsent[..i])
        invariant sentHashes == old(sentHashes) + Hashes(images, hash)
      {
        assert unsent[..i + 1][..i] == unsent[..i];
        var more := Split(unsent[i].0, unsent[i].1);
        pieces := pieces + more;
      }
      assert unsent[..|unsent|] == unsent;
      chunks := Numbered(command, pieces);
    }
  }

  // ---------------------------------------------------------------- what splitting keeps

  /** The data of one image's pieces, in order. */
  function Joined(pieces: seq<Piece>, image: nat): string
  {
    if pieces == [] then ""
    else
      var last := pieces[|pieces| - 1];
      Joined(pieces[..|pieces| - 1], image) + if last.0 == image then last.1 else ""
  }

  lemma {:induction false} JoinedConcat(a: seq<Piece>, b: seq<Piece>, image: nat)
    ensures Joined(a + b, image) == Joined(a, image) + Joined(b, image)
  {
    if b == [] {
      assert a + b == a;
    } else {
      assert (a + b)[..|a + b| - 1] == a + b[..|b| - 1];
      JoinedConcat(a, b[..|b| - 1], image);
    }
  }

  /** Every piece has data, and no more than a chunk may carry. */
  ghost predicate Sized(pieces: seq<Piece>)
  {
    forall k :: 0 <= k < |pieces| ==> 0 < |pieces[k].1| <= MAX_CHUNK_SIZE
  }

  lemma {:induction false} PiecesSized(image: nat, data: string)
    ensures Sized(Pieces(image, data))
    decreases |data|
  {
    if |data| > MAX_CHUNK_SIZE {
      PiecesSized(image, data[MAX_CHUNK_SIZE..]);
    }
  }

  /** An image makes as many pieces as it has started stretches of 512 KiB. */
  lemma {:induction false} PiecesCount(image: nat, data: string)
    ensures |Pieces(image, data)| == (|data| + 524287) / 524288
    decreases |data|
  {
    if |data| > MAX_CHUNK_SIZE {
      PiecesCount(image, data[MAX_CHUNK_SIZE..]);
    }
  }

  lemma {:induction false} AllPiecesSized(images: seq<Piece>)
    ensures Sized(AllPieces(images))
    ensures forall k :: 0 <= k < |AllPieces(images)| ==> 0 < |AllPieces(images)[k].1| <= 524288
  {
    if images != [] {
      AllPiecesSized(images[..|images| - 1]);
      PiecesSized(images[|images| - 1].0, images[|images| - 1].1);
    }
  }

  lemma JoinedOne(p: Piece, image: nat)
    ensures Joined([p], image) == if p.0 == image then p.1 else ""
  {
    assert [p][..0] == [];
    assert Joined([p], image) == Joined([], image) + if p.0 == image then p.1 else "";
  }

  lemma {:induction false} PiecesJoin(image: nat, data: string, other: nat)
    ensures Joined(Pieces(image, data), other) == if other == image then data else ""
    decreases |data|
  {
    if |data| > MAX_CHUNK_SIZE {
      var head, rest := (image, data[..MAX_CHUNK_SIZE]), data[MAX_CHUNK_SIZE..];
      PiecesJoin(image, rest, other);
      JoinedConcat([head], Pieces(image, rest), other);
      JoinedOne(head, other);
      assert data == data[..MAX_CHUNK_SIZE] + rest;
    } else if data != "" {
      JoinedOne((image, data), other);
    }
  }

  ghost predicate DistinctNumbers(images: seq<Piece>)
  {
    forall i, j :: 0 <= i < j < |images| ==> images[i].0 != images[j].0
  }

  lemma {:induction false} NoPiecesOf(images: seq<Piece>, image: nat)
    requires forall i :: 0 <= i < |images| ==> images[i].0 != image
    ensures Joined(AllPieces(images), image) == ""
  {
    if images != [] {
      var front, last := images[..|images| - 1], images[|images| - 1];
      NoPiecesOf(front, image);
      PiecesJoin(last.0, last.1, image);
      JoinedConcat(AllPieces(front), Pieces(last.0, last.1), image);
    }
  }

  /** Joining an image's pieces gives the image back. */
  lemma {:induction false} AllPiecesJoin(images: seq<Piece>, i: nat)
    requires DistinctNumbers(images) && i < |images|
    ensures Joined(AllPieces(images), images[i].0) == images[i].1
  {
    var front, last := images[..|images| - 1], images[|images| - 1];
    var image := images[i].0;
    PiecesJoin(last.0, last.1, image);
    JoinedConcat(AllPieces(front), Pieces(last.0, last.1), image);
    if i < |front| {
      AllPiecesJoin(front, i);
    } else {
      NoPiecesOf(front, image);
    }
  }

  /** Of pieces with data, joining an image's gives something exactly if it has any. */
  lemma {:induction false} JoinedIsSomething(pieces: seq<Piece>, image: nat)
    requires Sized(pieces)
    ensures Joined(pieces, image) != "" <==> exists p :: p in pieces && p.0 == image
  {
    if pieces != [] {
      var front, last := pieces[..|pieces| - 1], pieces[|pieces| - 1];
      assert pieces == front + [last];
      JoinedIsSomething(front, image);
      assert last in pieces;
    }
  }

  lemma {:induction false} NewImageAt(images: seq<string>, hash: string -> ImageHash, sent: set<ImageHash>, k: nat)
    requires k < |NewImages(images, hash, sent)|
    ensures var p := NewImages(images, hash, sent)[k]; p.0 < |images| && p.1 == images[p.0] && hash(p.1) !in sent
  {
    var front := images[..|images| - 1];
    if k < |NewImages(front, hash, sent)| {
      NewImageAt(front, hash, sent, k);
    }
  }

  lemma {:induction false} NewImagesDistinct(images: seq<string>, hash: string -> ImageHash, sent: set<ImageHash>)
    ensures DistinctNumbers(NewImages(images, hash, sent))
  {
    if images != [] {
      var front := images[..|images| - 1];
      NewImagesDistinct(front, hash, sent);
      forall k: nat | k < |NewImages(front, hash, sent)| ensures NewImages(front, hash, sent)[k].0 < |front| {
        NewImageAt(front, hash, sent, k);
      }
    }
  }

  /** No two of them have the same hash. */
  lemma {:induction false} NewImagesOnce(images: seq<string>, hash: string -> ImageHash, sent: set<ImageHash>, i: nat, j: nat)
    requires i < j < |NewImages(images, hash, sent)|
    ensures hash(NewImages(images, hash, sent)[i].1) != hash(NewImages(images, hash, sent)[j].1)
  {
    var front, last := images[..|images| - 1], |images| - 1;
    NewImageAt(front, hash, sent, i);
    if j < |NewImages(front, hash, sent)| {
      NewImagesOnce(front, hash, sent, i, j);
    } else {
      assert front[NewImages(front, hash, sent)[i].0] in front;
    }
  }

  // ---------------------------------------------------------------- reassembly

  datatype Store = Store(buffer: map<CommandId, map<nat, Chunk>>, counts: map<CommandId, nat>, cache: map<ImageHash, string>)

  /** The data of one image's chunks among the first n, in the order of their numbers. */
  function Assembled(buffer: map<nat, Chunk>, image: nat, n: nat): string
  {
    if n == 0 then ""
    else Assembled(buffer, image, n - 1)
         + if n - 1 in buffer && buffer[n - 1].image == image then buffer[n - 1].data else ""
  }

  ghost function Numbers(buffer: map<nat, Chunk>): set<nat>
  {
    set k | k in buffer :: buffer[k].image
  }

  ghost predicate Above(buffer: map<nat, Chunk>, n: nat)
  {
    forall k :: k in buffer ==> k < n
  }

  /** The cache gains every image of the buffer under its own hash, and nothing else. */
  ghost predicate Caches(hash: string -> ImageHash, buffer: map<nat, Chunk>, n: nat, before: map<ImageHash, string>, after: map<ImageHash, string>)
  {
    && (forall h :: h in before ==> h in after)
    && (forall i :: i in Numbers(buffer) ==> hash(Assembled(buffer, i, n)) in after)
    && forall h :: h in after ==>
         (h in before && after[h] == before[h])
         || exists i :: i in Numbers(buffer) && after[h] == Assembled(buffer, i, n) && hash(after[h]) == h
  }

  ghost predicate Known(s: Store, c: CommandId)
  {
    c in s.buffer && c in s.counts
  }

  ghost function BufferWith(s: Store, c: Chunk): map<nat, Chunk>
  {
    (if Known(s, c.command) then s.buffer[c.command] else map[])[c.index := c]
  }

  ghost function CountWith(s: Store, c: Chunk): nat
  {
    if Known(s, c.command) then s.counts[c.command] else c.total
  }

  ghost predicate CachesAll(hash: string -> ImageHash, buffer: map<nat, Chunk>, before: map<ImageHash, string>, after: map<ImageHash, string>)
  {
    exists n :: Above(buffer, n) && Caches(hash, buffer, n, before, after)
  }

  /** A chunk is buffered, and if that completes its command the images are cached. */
  ghost predicate Receives(hash: string -> ImageHash, s: Store, s': Store, c: Chunk)
  {
    && s'.buffer == s.buffer[c.command := BufferWith(s, c)]
    && s'.counts == s.counts[c.command := CountWith(s, c)]
    && if |BufferWith(s, c)| == CountWith(s, c) then CachesAll(hash, BufferWith(s, c), s.cache, s'.cache)
       else s'.cache == s.cache
  }

  method Bound(buffer: map<nat, Chunk>) returns (n: nat)
    ensures Above(buffer, n)
  {
    n := 0;
    var left := buffer.Keys;
    while left != {}
      invariant left <= buffer.Keys && forall k :: k in buffer && k !in left ==> k < n
      decreases |left|
    {
      var k :| k in left;
      n := if k >= n then k + 1 else n;
      left := left - {k};
    }
  }

  lemma {:induction false} SkipTo(buffer: map<nat, Chunk>, image: nat, from: nat, to: nat, sorted: seq<nat>)
    requires from <= to && forall k :: k in sorted <==> k in buffer && buffer[k].image == image
    requires forall k :: k in sorted ==> k < from || k >= to
    ensures Assembled(buffer, image, to) == Assembled(buffer, image, from)
  {
    if from < to {
      SkipTo(buffer, image, from, to - 1, sorted);
      assert to - 1 !in sorted;
    }
  }

  /** One image's chunks, sorted by their numbers and joined. */
  method JoinImage(buffer: map<nat, Chunk>, image: nat, ghost n: nat) returns (data: string)
    requires Above(buffer, n)
    ensures data == Assembled(buffer, image, n)
  {
    var sorted: seq<nat> := Ascending(set k: nat | k in buffer && buffer[k].image == image);
    data := "";
    ghost var upTo: nat := 0;
    for j := 0 to |sorted|
      invariant upTo <= n && data == Assembled(buffer, image, upTo)
      invariant forall i :: 0 <= i < |sorted| ==> (i < j <==> sorted[i] < upTo)
    {
      assert sorted[j] in sorted;
      SkipTo(buffer, image, upTo, sorted[j], sorted);
      data := data + buffer[sorted[j]].data;
      upTo := sorted[j] + 1;
    }
    SkipTo(buffer, image, upTo, n, sorted);
  }

  method WithImages(hash: string -> ImageHash, buffer: map<nat, Chunk>, n: nat, before: map<ImageHash, string>)
    returns (after: map<ImageHash, string>)
    requires Above(buffer, n)
    ensures Caches(hash, buffer, n, before, after)
  {
    after := before;
    var left := set k | k in buffer :: buffer[k].image;
    ghost var all := left;
    while left != {}
      invariant left <= all == Numbers(buffer) && forall h :: h in before ==> h in after
      invariant forall i :: i in all && i !in left ==> hash(Assembled(buffer, i, n)) in after
      invariant forall h :: h in after ==>
        (h in before && after[h] == before[h])
        || exists i :: i in Numbers(buffer) && after[h] == Assembled(buffer, i, n) && hash(after[h]) == h
      decreases |left|
    {
      var i :| i in left;
      var img := JoinImage(buffer, i, n);
      after := after[hash(img) := img];
      left := left - {i};
    }
  }

  class ChunkStore {
    const hash: string -> ImageHash
    var inputChunkBuffer: map<CommandId, map<nat, Chunk>>
    var inputChunkCounts: map<CommandId, nat>
    var imageCache: map<ImageHash, string>

    ghost function Value(): Store
      reads this
    {
      Store(inputChunkBuffer, inputChunkCounts, imageCache)
    }

    constructor (hash: string -> ImageHash)
      ensures this.hash == hash && Value() == Store(map[], map[], map[])
    {
      this.hash := hash;
      inputChunkBuffer, inputChunkCounts, imageCache := map[], map[], map[];
    }

    /** One chunk: buffered, and once the command's chunks are complete every image is put
        together and cached under its hash. */
    method OnChunk(c: Chunk)
      requires inputChunkBuffer.Keys == inputChunkCounts.Keys
      modifies this
      ensures inputChunkBuffer.Keys == inputChunkCounts.Keys
      ensures Receives(hash, old(Value()), Value(), c)
    {
      if c.command !in inputChunkBuffer {
        inputChunkBuffer := inputChunkBuffer[c.command := map[]];
        inputChunkCounts := inputChunkCounts[c.command := c.total];
      }
      var buffer: map<nat, Chunk> := inputChunkBuffer[c.command][c.index := c];
      inputChunkBuffer := inputChunkBuffer[c.command := buffer];
      if |buffer| == inputChunkCounts[c.command] {
        var n := Bound(buffer);
        imageCache := WithImages(hash, buffer, n, imageCache);
      }
    }
  }

  // ---------------------------------------------------------------- delivery

  ghost predicate WorkerRun(hash: string -> ImageHash, ws: seq<Store>, arrivals: seq<Chunk>)
  {
    && |ws| == |arrivals| + 1 && ws[0].buffer.Keys == ws[0].counts.Keys
    && forall k :: 0 <= k < |arrivals| ==> Receives(hash, ws[k], ws[k + 1], arrivals[k])
  }

  /** What is cached is cached under its own hash. */
  ghost predicate Sound(hash: string -> ImageHash, cache: map<ImageHash, string>)
  {
    forall h :: h in cache ==> hash(cache[h]) == h
  }

  /** The chunks of one command and those that arrived so far. */
  ghost predicate OnlyThese(command: CommandId, chunks: seq<Chunk>, arrivals: seq<Chunk>)
  {
    forall k :: 0 <= k < |arrivals| && arrivals[k].command == command ==> arrivals[k] in chunks
  }

  ghost function SeenOf(command: CommandId, arrivals: seq<Chunk>): set<nat>
  {
    set c | c in arrivals && c.command == command :: c.index
  }

  lemma SeenGrows(command: CommandId, arrivals: seq<Chunk>, c: Chunk)
    ensures SeenOf(command, arrivals + [c])
         == SeenOf(command, arrivals) + if c.command == command then {c.index} else {}
  {
  }

  /** The buffer holds exactly the command's chunks that arrived. */
  ghost predicate Holding(s: Store, command: CommandId, chunks: seq<Chunk>, seen: set<nat>)
  {
    && s.buffer.Keys == s.counts.Keys
    && (command in s.buffer <==> seen != {})
    && (command in s.buffer ==>
          && s.buffer[command].Keys == seen && s.counts[command] == |chunks|
          && forall k :: k in seen ==> k < |chunks| && s.buffer[command][k] == chunks[k])
  }

  /** Once the chunks are complete, every image with data is in the cache. */
  ghost predicate Delivered(hash: string -> ImageHash, s: Store, pieces: seq<Piece>)
  {
    forall p :: p in pieces ==> hash(Joined(pieces, p.0)) in s.cache
  }

  lemma {:induction false} FullKeys(keys: set<nat>, n: nat)
    requires forall k :: k in keys ==> k < n
    ensures |keys| <= n && (|keys| == n ==> forall k: nat :: k < n ==> k in keys)
  {
    if n > 0 {
      var fewer := keys - {n - 1};
      FullKeys(fewer, n - 1);
      assert n - 1 in keys ==> keys == fewer + {n - 1};
      assert n - 1 !in keys ==> keys == fewer;
    }
  }

  lemma {:induction false} AllKeys(keys: set<nat>, n: nat)
    requires forall k: nat :: k < n <==> k in keys
    ensures |keys| == n
  {
    if n > 0 {
      AllKeys(keys - {n - 1}, n - 1);
      assert keys == (keys - {n - 1}) + {n - 1};
    } else {
      assert keys == {};
    }
  }

  /** The full buffer's chunks of an image join to the image's pieces joined. */
  lemma {:induction false} AssembledIsJoined(command: CommandId, pieces: seq<Piece>, buffer: map<nat, Chunk>, image: nat, n: nat, m: nat)
    requires (forall k: nat :: k < m <==> k in buffer) && m == |pieces|
    requires forall k: nat :: k < m ==> buffer[k].data == pieces[k].1 && buffer[k].image == pieces[k].0
    ensures n <= m ==> Assembled(buffer, image, n) == Joined(pieces[..n], image)
    ensures n >= m ==> Assembled(buffer, image, n) == Joined(pieces, image)
  {
    assert pieces[..m] == pieces;
    if n > 0 {
      AssembledIsJoined(command, pieces, buffer, image, n - 1, m);
      if n <= m {
        assert pieces[..n][..n - 1] == pieces[..n - 1];
      }
    }
  }

  /** Completing the buffer caches every image. */
  lemma CompleteDelivers(hash: string -> ImageHash, command: CommandId, pieces: seq<Piece>, buffer: map<nat, Chunk>, n: nat,
                         before: map<ImageHash, string>, s': Store)
    requires Above(buffer, n) && Caches(hash, buffer, n, before, s'.cache)
    requires forall k: nat :: k in buffer <==> k < |pieces|
    requires forall k: nat :: k < |pieces| ==> buffer[k] == Numbered(command, pieces)[k]
    ensures Delivered(hash, s', pieces)
  {
    forall p | p in pieces ensures hash(Joined(pieces, p.0)) in s'.cache {
      var k :| 0 <= k < |pieces| && pieces[k] == p;
      assert buffer[k].image == p.0 && p.0 in Numbers(buffer);
      assert n >= |pieces| by {
        assert |pieces| - 1 in buffer;
      }
      AssembledIsJoined(command, pieces, buffer, p.0, n, |pieces|);
    }
  }

  lemma OtherCommand(hash: string -> ImageHash, s: Store, s': Store, c: Chunk, command: CommandId, chunks: seq<Chunk>, seen: set<nat>)
    requires Receives(hash, s, s', c) && Holding(s, command, chunks, seen) && c.command != command
    ensures Holding(s', command, chunks, seen)
  {
  }

  lemma CachesSound(hash: string -> ImageHash, buffer: map<nat, Chunk>, before: map<ImageHash, string>, after: map<ImageHash, string>)
    requires CachesAll(hash, buffer, before, after)
    ensures forall h :: h in before ==> h in after
    ensures Sound(hash, before) ==> Sound(hash, after)
  {
    var n :| Above(buffer, n) && Caches(hash, buffer, n, before, after);
    if Sound(hash, before) {
      forall h | h in after ensures hash(after[h]) == h {
        assert (h in before && after[h] == before[h]) || hash(after[h]) == h;
      }
    }
  }

  lemma CacheGrows(hash: string -> ImageHash, s: Store, s': Store, c: Chunk)
    requires Receives(hash, s, s', c)
    ensures forall h :: h in s.cache ==> h in s'.cache
    ensures Sound(hash, s.cache) ==> Sound(hash, s'.cache)
  {
    if |BufferWith(s, c)| == CountWith(s, c) {
      CachesSound(hash, BufferWith(s, c), s.cache, s'.cache);
    }
  }

  lemma OwnBuffer(s: Store, c: Chunk, i: nat, command: CommandId, chunks: seq<Chunk>, seen: set<nat>)
    requires Holding(s, command, chunks, seen) && c.command == command
    requires i < |chunks| && chunks[i] == c && c.index == i && c.total == |chunks|
    ensures BufferWith(s, c).Keys == seen + {i} && CountWith(s, c) == |chunks|
    ensures forall k :: k in BufferWith(s, c) ==> k < |chunks| && BufferWith(s, c)[k] == chunks[k]
  {
  }

  lemma FullBufferDelivers(hash: string -> ImageHash, command: CommandId, pieces: seq<Piece>, buffer: map<nat, Chunk>,
                           before: map<ImageHash, string>, s': Store)
    requires forall k: nat :: k in buffer <==> k < |pieces|
    requires forall k: nat :: k < |pieces| ==> buffer[k] == Numbered(command, pieces)[k]
    requires |buffer| == |pieces| ==> CachesAll(hash, buffer, before, s'.cache)
    ensures Delivered(hash, s', pieces)
  {
    AllKeys(buffer.Keys, |pieces|);
    assert |buffer| == |buffer.Keys|;
    var n :| Above(buffer, n) && Caches(hash, buffer, n, before, s'.cache);
    CompleteDelivers(hash, command, pieces, buffer, n, before, s');
  }

  /** A chunk of the command extends what the buffer holds, and the last missing one delivers. */
  lemma OwnCommand(hash: string -> ImageHash, s: Store, s': Store, c: Chunk, command: CommandId, pieces: seq<Piece>, seen: set<nat>)
    requires var chunks := Numbered(command, pieces);
             Receives(hash, s, s', c) && Holding(s, command, chunks, seen) && c.command == command && c in chunks
    ensures Holding(s', command, Numbered(command, pieces), seen + {c.index})
    ensures (forall k: nat :: k < |pieces| ==> k in seen + {c.index}) ==> Delivered(hash, s', pieces)
  {
    var chunks := Numbered(command, pieces);
    var i :| 0 <= i < |chunks| && chunks[i] == c;
    OwnBuffer(s, c, i, command, chunks, seen);
    if forall k: nat :: k < |pieces| ==> k in seen + {c.index} {
      FullBufferDelivers(hash, command, pieces, BufferWith(s, c), s.cache, s');
    }
  }

  lemma DeliveredStays(hash: string -> ImageHash, s: Store, s': Store, c: Chunk, pieces: seq<Piece>)
    requires Receives(hash, s, s', c) && Delivered(hash, s, pieces)
    ensures Delivered(hash, s', pieces)
  {
    CacheGrows(hash, s, s', c);
  }

  ghost predicate AllSeen(pieces: seq<Piece>, seen: set<nat>)
  {
    pieces != [] && forall k: nat :: k < |pieces| ==> k in seen
  }

  lemma ArrivalHolds(hash: string -> ImageHash, s: Store, s': Store, c: Chunk, command: CommandId, pieces: seq<Piece>, seen: set<nat>)
    requires Receives(hash, s, s', c) && Holding(s, command, Numbered(command, pieces), seen)
    requires c.command == command ==> c in Numbered(command, pieces)
    requires AllSeen(pieces, seen) ==> Delivered(hash, s, pieces)
    ensures var more := seen + if c.command == command then {c.index} else {};
            && Holding(s', command, Numbered(command, pieces), more)
            && (AllSeen(pieces, more) ==> Delivered(hash, s', pieces))
  {
    if c.command == command {
      OwnCommand(hash, s, s', c, command, pieces, seen);
    } else {
      assert seen + {} == seen;
      OtherCommand(hash, s, s', c, command, Numbered(command, pieces), seen);
      if AllSeen(pieces, seen) {
        DeliveredStays(hash, s, s', c, pieces);
      }
    }
  }

  lemma {:induction false} RunHolds(hash: string -> ImageHash, ws: seq<Store>, arrivals: seq<Chunk>, command: CommandId,
                                    pieces: seq<Piece>, j: nat)
    requires WorkerRun(hash, ws, arrivals) && j <= |arrivals| && command !in ws[0].buffer
    requires OnlyThese(command, Numbered(command, pieces), arrivals)
    ensures Holding(ws[j], command, Numbered(command, pieces), SeenOf(command, arrivals[..j]))
    ensures AllSeen(pieces, SeenOf(command, arrivals[..j])) ==> Delivered(hash, ws[j], pieces)
  {
    if j > 0 {
      var i: nat := j - 1;
      RunHolds(hash, ws, arrivals, command, pieces, i);
      assert arrivals[..j] == arrivals[..i] + [arrivals[i]];
      SeenGrows(command, arrivals[..i], arrivals[i]);
      ArrivalHolds(hash, ws[i], ws[i + 1], arrivals[i], command, pieces, SeenOf(command, arrivals[..i]));
    } else {
      var none: nat := 0;
      assert none !in SeenOf(command, arrivals[..0]);
    }
  }

  /** Every new image that is not empty reaches every worker that gets its command's chunks, in
      whatever order and however often, among those of other commands; an empty one has no chunk
      that could bring it. */
  lemma NewImagesArrive(hash: string -> ImageHash, images: seq<string>, sent: set<ImageHash>, command: CommandId,
                        ws: seq<Store>, arrivals: seq<Chunk>, i: nat)
    requires var pieces := AllPieces(NewImages(images, hash, sent));
             && WorkerRun(hash, ws, arrivals) && command !in ws[0].buffer
             && OnlyThese(command, Numbered(command, pieces), arrivals)
             && (forall k: nat :: k < |pieces| ==> k in SeenOf(command, arrivals))
    requires i < |NewImages(images, hash, sent)|
    ensures var img := NewImages(images, hash, sent)[i];
            && (img.1 != "" ==> hash(img.1) in ws[|ws| - 1].cache)
            && (img.1 != "" <==> exists p :: p in AllPieces(NewImages(images, hash, sent)) && p.0 == img.0)
  {
    var unsent := NewImages(images, hash, sent);
    var pieces := AllPieces(unsent);
    NewImagesDistinct(images, hash, sent);
    AllPiecesJoin(unsent, i);
    AllPiecesSized(unsent);
    JoinedIsSomething(pieces, unsent[i].0);
    assert arrivals[..|arrivals|] == arrivals;
    if unsent[i].1 != "" {
      var p :| p in pieces && p.0 == unsent[i].0;
      RunHolds(hash, ws, arrivals, command, pieces, |arrivals|);
    }
  }

  lemma {:induction false} CacheSound(hash: string -> ImageHash, ws: seq<Store>, arrivals: seq<Chunk>, j: nat)
    requires WorkerRun(hash, ws, arrivals) && j < |ws| && ws[0].cache == map[]
    ensures Sound(hash, ws[j].cache)
  {
    if j > 0 {
      var i: nat := j - 1;
      CacheSound(hash, ws, arrivals, i);
      CacheGrows(hash, ws[i], ws[i + 1], arrivals[i]);
    }
  }

  /** What is found under an image's hash is that image, as long as no two images collide. */
  lemma {:induction false} CacheHoldsTheImage(hash: string -> ImageHash, ws: seq<Store>, arrivals: seq<Chunk>, j: nat, img: string)
    requires WorkerRun(hash, ws, arrivals) && j < |ws| && ws[0].cache == map[]
    requires forall a, b :: hash(a) == hash(b) ==> a == b
    ensures hash(img) in ws[j].cache ==> ws[j].cache[hash(img)] == img
  {
    CacheSound(hash, ws, arrivals, j);
  }

  // ---------------------------------------------------------------- the empty image

  /** No chunk carries empty data, as no sender makes one. */
  ghost predicate AllFilled(buffer: map<nat, Chunk>)
  {
    forall k :: k in buffer ==> buffer[k].data != ""
  }

  ghost predicate Filled(s: Store)
  {
    s.buffer.Keys == s.counts.Keys && forall c :: c in s.buffer ==> AllFilled(s.buffer[c])
  }

  lemma {:induction false} AssembledIsFilled(buffer: map<nat, Chunk>, image: nat, n: nat, k: nat)
    requires AllFilled(buffer) && k in buffer && buffer[k].image == image && k < n
    ensures Assembled(buffer, image, n) != ""
  {
    if k < n - 1 {
      AssembledIsFilled(buffer, image, n - 1, k);
    }
  }

  /** No entry is the empty image, apart from those that were. */
  ghost predicate NoEmptyBut(before: map<ImageHash, string>, after: map<ImageHash, string>)
  {
    forall h :: h in after && after[h] == "" ==> h in before && before[h] == ""
  }

  lemma CachesNoEmpty(hash: string -> ImageHash, buffer: map<nat, Chunk>, before: map<ImageHash, string>, after: map<ImageHash, string>)
    requires AllFilled(buffer) && CachesAll(hash, buffer, before, after)
    ensures NoEmptyBut(before, after)
  {
    var n :| Above(buffer, n) && Caches(hash, buffer, n, before, after);
    forall h | h in after && after[h] == "" ensures h in before && before[h] == "" {
      if !(h in before && after[h] == before[h]) {
        var i :| i in Numbers(buffer) && after[h] == Assembled(buffer, i, n) && hash(after[h]) == h;
        var k :| k in buffer && buffer[k].image == i;
        AssembledIsFilled(buffer, i, n, k);
      }
    }
  }

  lemma ReceivesFilled(hash: string -> ImageHash, s: Store, s': Store, c: Chunk)
    requires Receives(hash, s, s', c) && Filled(s) && c.data != ""
    ensures Filled(s') && NoEmptyBut(s.cache, s'.cache)
  {
    var buffer := BufferWith(s, c);
    assert AllFilled(buffer);
    if |buffer| == CountWith(s, c) {
      CachesNoEmpty(hash, buffer, s.cache, s'.cache);
    }
  }

  ghost predicate NoEmptyChunk(arrivals: seq<Chunk>)
  {
    forall k :: 0 <= k < |arrivals| ==> arrivals[k].data != ""
  }

  lemma {:induction false} EmptyNeverCached(hash: string -> ImageHash, ws: seq<Store>, arrivals: seq<Chunk>, j: nat)
    requires WorkerRun(hash, ws, arrivals) && j < |ws| && Filled(ws[0]) && NoEmptyChunk(arrivals)
    ensures Filled(ws[j]) && NoEmptyBut(ws[0].cache, ws[j].cache)
  {
    if j > 0 {
      var i: nat := j - 1;
      EmptyNeverCached(hash, ws, arrivals, i);
      ReceivesFilled(hash, ws[i], ws[i + 1], arrivals[i]);
    }
  }

  lemma {:induction false} SoundStays(hash: string -> ImageHash, ws: seq<Store>, arrivals: seq<Chunk>, j: nat)
    requires WorkerRun(hash, ws, arrivals) && j < |ws| && Sound(hash, ws[0].cache)
    ensures Sound(hash, ws[j].cache) && forall h :: h in ws[0].cache ==> h in ws[j].cache
  {
    if j > 0 {
      var i: nat := j - 1;
      SoundStays(hash, ws, arrivals, i);
      CacheGrows(hash, ws[i], ws[i + 1], arrivals[i]);
    }
  }

  /** The hash of the empty image is never found on a worker that did not have it, whatever arrives. */
  lemma EmptyNeverArrives(hash: string -> ImageHash, ws: seq<Store>, arrivals: seq<Chunk>, j: nat)
    requires WorkerRun(hash, ws, arrivals) && j < |ws| && Filled(ws[0]) && NoEmptyChunk(arrivals)
    requires Sound(hash, ws[0].cache) && hash("") !in ws[0].cache && forall a, b :: hash(a) == hash(b) ==> a == b
    ensures hash("") !in ws[j].cache
  {
    EmptyNeverCached(hash, ws, arrivals, j);
    SoundStays(hash, ws, arrivals, j);
  }

  lemma {:induction false} NewImageFor(images: seq<string>, hash: string -> ImageHash, sent: set<ImageHash>, img: string) returns (k: nat)
    requires img in images && hash(img) !in sent
    ensures k < |NewImages(images, hash, sent)| && hash(NewImages(images, hash, sent)[k].1) == hash(img)
  {
    var front, last := images[..|images| - 1], images[|images| - 1];
    assert images == front + [last];
    if hash(img) in Hashes(front, hash) {
      var other :| other in front && hash(other) == hash(img);
      k := NewImageFor(front, hash, sent, other);
    } else {
      assert img == last;
      k := |NewImages(front, hash, sent)|;
    }
  }

  /** A worker that had all non-empty images sent before, and got this request's chunks. */
  ghost predicate GotRequest(hash: string -> ImageHash, images: seq<string>, sent: set<ImageHash>, command: CommandId,
                             ws: seq<Store>, arrivals: seq<Chunk>)
  {
    var pieces := AllPieces(NewImages(images, hash, sent));
    && WorkerRun(hash, ws, arrivals) && Filled(ws[0]) && Sound(hash, ws[0].cache) && command !in ws[0].buffer
    && OnlyThese(command, Numbered(command, pieces), arrivals) && NoEmptyChunk(arrivals)
    && (forall k: nat :: k < |pieces| ==> k in SeenOf(command, arrivals))
    && forall img :: img in images && img != "" && hash(img) in sent ==> hash(img) in ws[0].cache
  }

  lemma FilledImageArrives(hash: string -> ImageHash, images: seq<string>, sent: set<ImageHash>, command: CommandId,
                           ws: seq<Store>, arrivals: seq<Chunk>, img: string)
    requires GotRequest(hash, images, sent, command, ws, arrivals) && img in images && img != ""
    requires forall a, b :: hash(a) == hash(b) ==> a == b
    ensures hash(img) in ws[|ws| - 1].cache
  {
    if hash(img) in sent {
      SoundStays(hash, ws, arrivals, |ws| - 1);
    } else {
      var k := NewImageFor(images, hash, sent, img);
      NewImagesArrive(hash, images, sent, command, ws, arrivals, k);
    }
  }

  /** The request's task, which names all its images by their hashes, can be started once all
      chunks have come, if and only if no image is empty. */
  lemma RequestRunsExactly(hash: string -> ImageHash, images: seq<string>, sent: set<ImageHash>, command: CommandId,
                           ws: seq<Store>, arrivals: seq<Chunk>, task: Task, inputs: Plan.Inputs)
    requires GotRequest(hash, images, sent, command, ws, arrivals) && hash("") !in ws[0].cache
    requires forall a, b :: hash(a) == hash(b) ==> a == b
    requires task.kind == TextGeneration(Hashes(images, hash)) && task.status == TaskPending
    requires inputs.images == ws[|ws| - 1].cache.Keys
    ensures Plan.Runnable(task, inputs) <==> "" !in images
  {
    if "" in images {
      EmptyNeverArrives(hash, ws, arrivals, |ws| - 1);
      assert hash("") in Hashes(images, hash);
    } else {
      forall h | h in Hashes(images, hash) ensures h in inputs.images {
        var img :| img in images && hash(img) == h;
        FilledImageArrives(hash, images, sent, command, ws, arrivals, img);
      }
    }
  }
}
