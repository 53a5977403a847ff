/**
 Chunked file transfer (core/gftp/src/gftp.rs): cutting a file into chunks by
 sequential reads, serving chunks by offset, writing a download in order and an
 upload in whatever order its chunks arrive.
 */
module Gftp {
  import opened Common

  /** The number of values of a 64-bit unsigned integer. */
  const U64_VALUES: nat := 0x1_0000_0000_0000_0000

  datatype Chunk = Chunk(offset: nat, content: seq<Byte>)

  // ------------------------------------------------------------------------
  // Files
  // ------------------------------------------------------------------------

  function Zeros(n: nat): seq<Byte> {
    seq(n, _ => 0)
  }

  /** The file after writing at an offset; a gap before it fills with zeros, writing nothing changes nothing. */
  function WriteAt(file: seq<Byte>, offset: nat, bytes: seq<Byte>): seq<Byte> {
    if bytes == [] then file
    else
      var end := offset + |bytes|;
      (if offset <= |file| then file[..offset] else file + Zeros(offset - |file|)) + bytes +
      (if end < |file| then file[end..] else [])
  }

  /** What is where after a write; writing nothing changes nothing. */
  lemma WriteAtBytes(file: seq<Byte>, offset: nat, bytes: seq<Byte>)
    ensures bytes == [] ==> WriteAt(file, offset, bytes) == file
    ensures bytes != [] ==>
            var r, end := WriteAt(file, offset, bytes), offset + |bytes|;
            && |r| == (if end < |file| then |file| else end)
            && forall p :: 0 <= p < |r| ==>
                 r[p] == if offset <= p < end then bytes[p - offset] else if p < |file| then file[p] else 0
  {
  }

  /** Reading exactly `n` bytes; fails when the file ends before. */
  function ReadAt(file: seq<Byte>, offset: nat, n: nat): Option<seq<Byte>> {
    if n == 0 then Some([])
    else if offset + n <= |file| then Some(file[offset..offset + n])
    else None
  }

  class File {
    var content: seq<Byte>
    var cursor: nat

    constructor (content: seq<Byte>)
      ensures this.content == content && cursor == 0
    {
      this.content := content;
      cursor := 0;
    }

    method Seek(offset: nat)
      modifies `cursor
      ensures cursor == offset
    {
      cursor := offset;
    }

    method ReadExact(n: nat) returns (r: Option<seq<Byte>>)
      modifies `cursor
      ensures r == ReadAt(content, old(cursor), n)
      ensures r.Some? ==> cursor == old(cursor) + n
    {
      r := ReadAt(content, cursor, n);
      if r.Some? {
        cursor := cursor + n;
      }
    }

    method WriteAll(bytes: seq<Byte>)
      modifies this
      ensures content == WriteAt(old(content), old(cursor), bytes)
      ensures cursor == old(cursor) + |bytes|
    {
      content := WriteAt(content, cursor, bytes);
      cursor := cursor + |bytes|;
    }

    /** Grows with zeros or cuts. */
    method SetLen(n: nat)
      modifies `content
      ensures content == if n <= |old(content)| then old(content)[..n] else old(content) + Zeros(n - |old(content)|)
    {
      content := if n <= |content| then content[..n] else content + Zeros(n - |content|);
    }
  }

  // ------------------------------------------------------------------------
  // Tiling
  // ------------------------------------------------------------------------

  function CeilDiv(a: nat, b: nat): nat
    requires b > 0
  {
    if a % b == 0 then a / b else a / b + 1
  }

  /** Where chunk `n` ends. */
  function EndOf(size: nat, cs: nat, n: nat): nat {
    if (n + 1) * cs < size then (n + 1) * cs else size
  }

  /** There are exactly as many chunks as start inside the file. */
  lemma ChunkStartsInside(size: nat, cs: nat, n: nat)
    requires cs > 0
    ensures n < CeilDiv(size, cs) <==> n * cs < size
  {
    var q, r := size / cs, size % cs;
    assert size == q * cs + r;
    if n <= q {
      MulMono(n, q, cs);
    } else {
      MulMono(q + 1, n, cs);
    }
    if n + 1 <= q {
      MulMono(n + 1, q, cs);
    }
  }

  lemma MulMono(a: nat, b: nat, c: nat)
    requires a <= b
    ensures a * c <= b * c
  {
    assert (b - a) * c >= 0;
  }

  /** The number of the chunk that holds position `p`. */
  function ChunkNo(p: nat, cs: nat): nat
    requires cs > 0
  {
    p / cs
  }

  /** Position `p` lies in chunk `ChunkNo(p, cs)`, and in no other. */
  lemma PositionInChunk(p: nat, cs: nat, n: nat)
    requires cs > 0
    ensures n * cs <= p < (n + 1) * cs <==> n == ChunkNo(p, cs)
  {
    var q := p / cs;
    assert q * cs <= p < (q + 1) * cs;
    if n < q {
      MulMono(n + 1, q, cs);
    } else if n > q {
      MulMono(q + 1, n, cs);
    }
  }

  /** The chunk with number `n`. */
  function ChunkOf(file: seq<Byte>, cs: nat, n: nat): Chunk
    requires cs > 0 && n < CeilDiv(|file|, cs)
  {
    ChunkStartsInside(|file|, cs, n);
    Chunk(n * cs, file[n * cs..EndOf(|file|, cs, n)])
  }

  /** Where chunk `n` starts, or the end of the file. */
  function StartOf(size: nat, cs: nat, n: nat): nat {
    if n * cs < size then n * cs else size
  }

  /** Reads chunk `n` from where the one before it ended. */
  method ReadChunk(file: File, cs: nat, n: nat) returns (chunk: Chunk)
    requires cs > 0 && n < CeilDiv(|file.content|, cs) && file.cursor == StartOf(|file.content|, cs, n)
    modifies file`cursor
    ensures chunk == ChunkOf(file.content, cs, n)
    ensures file.cursor == StartOf(|file.content|, cs, n + 1)
  {
    ChunkStartsInside(|file.content|, cs, n);
    var offset, size := n * cs, |file.content|;
    var toRead := if offset + cs > size then size - offset else cs;
    var buffer := file.ReadExact(toRead);
    assert offset + cs == (n + 1) * cs;
    chunk := Chunk(offset, buffer.value);
  }

  /** The sender's iterator: one sequential read per chunk, from wherever the last one ended. */
  method GetChunks(file: File, cs: nat) returns (chunks: seq<Chunk>)
    requires cs > 0 && file.cursor == 0
    modifies file`cursor
    ensures |chunks| == CeilDiv(|file.content|, cs)
    ensures forall n :: 0 <= n < |chunks| ==> chunks[n] == ChunkOf(file.content, cs, n)
  {
    chunks := [];
    var count := CeilDiv(|file.content|, cs);
    for n := 0 to count
      invariant |chunks| == n && file.cursor == StartOf(|file.content|, cs, n)
      invariant forall k :: 0 <= k < n ==> chunks[k] == ChunkOf(file.content, cs, k)
    {
      var chunk := ReadChunk(file, cs, n);
      chunks := chunks + [chunk];
    }
  }

  /** The first `n` chunks put together. */
  function Joined(file: seq<Byte>, cs: nat, n: nat): seq<Byte>
    requires cs > 0 && n <= CeilDiv(|file|, cs)
  {
    if n == 0 then [] else Joined(file, cs, n - 1) + ChunkOf(file, cs, n - 1).content
  }

  /** The chunks tile the file: nothing missing, nothing twice. */
  lemma ChunksTile(file: seq<Byte>, cs: nat)
    requires cs > 0
    ensures Joined(file, cs, CeilDiv(|file|, cs)) == file
  {
    var count := CeilDiv(|file|, cs);
    TilePrefix(file, cs, count);
    ChunkStartsInside(|file|, cs, count);
    assert file[..|file|] == file;
  }

  lemma {:induction false} TilePrefix(file: seq<Byte>, cs: nat, n: nat)
    requires cs > 0 && n <= CeilDiv(|file|, cs)
    ensures Joined(file, cs, n) == file[..if n * cs < |file| then n * cs else |file|]
  {
    if n > 0 {
      TilePrefix(file, cs, n - 1);
      ChunkStartsInside(|file|, cs, n - 1);
      var start, end := (n - 1) * cs, EndOf(|file|, cs, n - 1);
      assert file[..end] == file[..start] + file[start..end];
    }
  }

  // ------------------------------------------------------------------------
  // Download
  // ------------------------------------------------------------------------

  /** What the publisher answers: the subtraction wraps around, so an offset past the end asks for too much. */
  function Serve(file: seq<Byte>, offset: nat, size: nat): Option<Chunk>
    requires |file| < U64_VALUES && offset < U64_VALUES
  {
    var left := (|file| - offset) % U64_VALUES;
    var toRead := if left < size then left else size;
    var bytes := ReadAt(file, offset, toRead);
    if bytes.Some? then Some(Chunk(offset, bytes.value)) else None
  }

  /** The publisher's handler: seek and read on the shared file. */
  method GetChunk(file: File, offset: nat, size: nat) returns (r: Option<Chunk>)
    requires |file.content| < U64_VALUES && offset < U64_VALUES
    modifies file`cursor
    ensures r == Serve(file.content, offset, size)
  {
    var left := (|file.content| - offset) % U64_VALUES;
    var toRead := if left < size then left else size;
    file.Seek(offset);
    var buffer := file.ReadExact(toRead);
    r := if buffer.Some? then Some(Chunk(offset, buffer.value)) else None;
  }

  /**
   Any request: what there is from the offset on, up to the size asked for; past
   the end only a request for nothing is answered.
   */
  lemma ServesWhatIsThere(file: seq<Byte>, offset: nat, size: nat)
    requires |file| < U64_VALUES && offset < U64_VALUES
    ensures offset <= |file| ==>
              var n := if size < |file| - offset then size else |file| - offset;
              Serve(file, offset, size) == Some(Chunk(offset, file[offset..offset + n]))
    ensures offset > |file| ==> Serve(file, offset, size) == if size == 0 then Some(Chunk(offset, [])) else None
  {
    if offset <= |file| {
      assert (|file| - offset) % U64_VALUES == |file| - offset;
      assert file[offset..offset] == [];
    } else {
      assert (|file| - offset) % U64_VALUES == |file| - offset + U64_VALUES;
    }
  }

  /** A request for a whole chunk is answered with that chunk. */
  lemma ServeChunk(file: seq<Byte>, cs: nat, n: nat)
    requires cs > 0 && n < CeilDiv(|file|, cs) && |file| < U64_VALUES
    ensures n * cs < |file| && Serve(file, n * cs, cs) == Some(ChunkOf(file, cs, n))
  {
    ChunkStartsInside(|file|, cs, n);
  }

  /** The target has its final length, and is right before `at`. */
  predicate WrittenUpTo(file: seq<Byte>, target: seq<Byte>, at: nat) {
    |target| == |file| && at <= |file| && target[..at] == file[..at]
  }

  /** Writing chunk `n` behind the chunks before it extends what is already right. */
  lemma WriteNext(file: seq<Byte>, target: seq<Byte>, cs: nat, n: nat)
    requires cs > 0 && n < CeilDiv(|file|, cs) && WrittenUpTo(file, target, StartOf(|file|, cs, n))
    ensures var start, chunk := StartOf(|file|, cs, n), ChunkOf(file, cs, n);
            && start + |chunk.content| == StartOf(|file|, cs, n + 1)
            && WrittenUpTo(file, WriteAt(target, start, chunk.content), start + |chunk.content|)
  {
    var start, end := ChunkSpan(file, cs, n);
    WriteAtBytes(target, start, file[start..end]);
    assert file[..end] == file[..start] + file[start..end];
  }

  lemma AllWritten(file: seq<Byte>, target: seq<Byte>, cs: nat)
    requires cs > 0 && WrittenUpTo(file, target, StartOf(|file|, cs, CeilDiv(|file|, cs)))
    ensures target == file
  {
    ChunkStartsInside(|file|, cs, CeilDiv(|file|, cs));
    assert target[..|file|] == target && file[..|file|] == file;
  }

  /** The requests go to the start of one chunk after the other, always inside the file. */
  ghost predicate RequestsInside(requested: seq<nat>, cs: nat, size: nat) {
    forall i :: 0 <= i < |requested| ==> requested[i] == i * cs < size
  }

  lemma OneMoreRequest(requested: seq<nat>, cs: nat, size: nat)
    requires RequestsInside(requested, cs, size) && |requested| * cs < size
    ensures RequestsInside(requested + [|requested| * cs], cs, size)
  {
  }

  /** How many requests may be in flight. */
  const WINDOW: nat := 12

  /** A running download: requests `written .. issued` are pending or answered. */
  datatype Flight = Flight(written: nat, issued: nat, pending: set<nat>, answers: map<nat, Chunk>)

  /** An answer is the chunk asked for; it waits for the ones before it. */
  ghost predicate InFlight(file: seq<Byte>, cs: nat, f: Flight)
    requires cs > 0
  {
    && f.written <= f.issued <= CeilDiv(|file|, cs) && f.issued <= f.written + WINDOW
    && (forall n :: f.written <= n < f.issued <==> n in f.pending || n in f.answers)
    && (forall n :: n in f.answers ==>
          n !in f.pending && n < CeilDiv(|file|, cs) && f.answers[n] == ChunkOf(file, cs, n))
  }

  /** Requests the next chunk. */
  method Request(ghost file: seq<Byte>, cs: nat, f: Flight, before: seq<nat>) returns (g: Flight, requested: seq<nat>)
    requires cs > 0 && InFlight(file, cs, f) && f.issued < CeilDiv(|file|, cs) && f.issued < f.written + WINDOW
    requires |before| == f.issued && RequestsInside(before, cs, |file|)
    ensures InFlight(file, cs, g) && g.written == f.written && g.issued == f.issued + 1 <= f.written + 12
    ensures |requested| == g.issued && RequestsInside(requested, cs, |file|)
  {
    ChunkStartsInside(|file|, cs, f.issued);
    OneMoreRequest(before, cs, |file|);
    requested := before + [f.issued * cs];
    g := f.(issued := f.issued + 1, pending := f.pending + {f.issued});
  }

  /** The publisher answers any one of the pending requests. */
  method AnswerAny(source: File, cs: nat, f: Flight) returns (g: Flight)
    requires cs > 0 && |source.content| < U64_VALUES && InFlight(source.content, cs, f) && f.pending != {}
    modifies source`cursor
    ensures InFlight(source.content, cs, g) && g.written == f.written && g.issued == f.issued
    ensures |g.pending| < |f.pending|
  {
    var n :| n in f.pending;
    ServeChunk(source.content, cs, n);
    var chunk := GetChunk(source, n * cs, cs);
    g := f.(pending := f.pending - {n}, answers := f.answers[n := chunk.value]);
  }

  /** Everything before the next chunk to write is right, and was not lost. */
  ghost predicate Progressed(file: seq<Byte>, cs: nat, f: Flight, target: seq<Byte>, at: nat, lost: nat -> bool) {
    && at == StartOf(|file|, cs, f.written) && WrittenUpTo(file, target, at)
    && forall i :: 0 <= i < f.written ==> !lost(i)
  }

  /** Writes the next answer behind the chunks before it. */
  method WriteAnswer(target: File, ghost file: seq<Byte>, cs: nat, f: Flight, ghost lost: nat -> bool)
    returns (g: Flight)
    requires cs > 0 && InFlight(file, cs, f) && f.written in f.answers && !lost(f.written)
    requires Progressed(file, cs, f, target.content, target.cursor, lost)
    modifies target
    ensures InFlight(file, cs, g) && g.written == f.written + 1 && g.issued == f.issued
    ensures Progressed(file, cs, g, target.content, target.cursor, lost)
  {
    WriteNext(file, target.content, cs, f.written);
    target.WriteAll(f.answers[f.written].content);
    g := f.(written := f.written + 1, answers := f.answers - {f.written});
  }

  lemma FlightStarts(file: seq<Byte>, cs: nat, lost: nat -> bool)
    requires cs > 0
    ensures InFlight(file, cs, Flight(0, 0, {}, map[])) && RequestsInside([], cs, |file|)
    ensures Progressed(file, cs, Flight(0, 0, {}, map[]), Zeros(|file|), 0, lost)
  {
  }

  lemma FlightEnds(file: seq<Byte>, cs: nat, f: Flight, target: seq<Byte>, at: nat, lost: nat -> bool)
    requires cs > 0 && InFlight(file, cs, f) && Progressed(file, cs, f, target, at, lost)
    requires f.written >= CeilDiv(|file|, cs)
    ensures target == file && f.issued == CeilDiv(|file|, cs)
    ensures forall n :: 0 <= n < CeilDiv(|file|, cs) ==> !lost(n)
  {
    AllWritten(file, target, cs);
  }

  /** Where the next answer is neither there nor to be asked for, it is pending. */
  lemma SomethingPending(file: seq<Byte>, cs: nat, f: Flight)
    requires cs > 0 && InFlight(file, cs, f) && f.written < CeilDiv(|file|, cs) && f.written !in f.answers
    requires f.issued >= CeilDiv(|file|, cs) || f.issued >= f.written + WINDOW
    ensures f.pending != {}
  {
    assert f.written in f.pending;
  }

  /**
   The client: chunks are requested by number, up to `WINDOW` at a time; the
   publisher answers what is in flight in any order, and the answers are written
   in the order of the requests.  `lost(n)` is whether request `n` fails on the way.
   */
  method Download(source: File, target: File, cs: nat, lost: nat -> bool) returns (ok: bool, requested: seq<nat>)
    requires source != target && cs > 0 && |source.content| < U64_VALUES
    requires target.content == [] && target.cursor == 0
    modifies source`cursor, target
    ensures RequestsInside(requested, cs, |source.content|)
    ensures ok <==> forall n :: 0 <= n < CeilDiv(|source.content|, cs) ==> !lost(n)
    ensures ok ==> target.content == source.content && |requested| == CeilDiv(|source.content|, cs)
  {
    ghost var file := source.content;
    var count := CeilDiv(|source.content|, cs);
    target.SetLen(|source.content|);
    assert target.content == Zeros(|file|);
    FlightStarts(file, cs, lost);
    requested := [];
    var f := Flight(0, 0, {}, map[]);
    while f.written < count
      invariant |requested| == f.issued && RequestsInside(requested, cs, |file|)
      invariant InFlight(file, cs, f) && Progressed(file, cs, f, target.content, target.cursor, lost)
      decreases count - f.written, count - f.issued, |f.pending|
    {
      if f.issued < count && f.issued < f.written + WINDOW {
        f, requested := Request(file, cs, f, requested);
      } else if f.written in f.answers {
        if lost(f.written) {
          return false, requested;
        }
        f := WriteAnswer(target, file, cs, f, lost);
      } else {
        SomethingPending(file, cs, f);
        f := AnswerAny(source, cs, f);
      }
    }
    FlightEnds(file, cs, f, target.content, target.cursor, lost);
    ok := true;
  }

  // ------------------------------------------------------------------------
  // Upload
  // ------------------------------------------------------------------------

  /** The receiver's handler for one chunk. */
  method ChunkUploaded(file: File, chunk: Chunk)
    modifies file
    ensures file.content == WriteAt(old(file.content), chunk.offset, chunk.content)
  {
    file.Seek(chunk.offset);
    file.WriteAll(chunk.content);
  }

  /** The receiver's file, empty at first, after the chunks with these numbers arrived in this order. */
  function Received(file: seq<Byte>, cs: nat, order: seq<nat>): seq<Byte>
    requires cs > 0 && forall i :: 0 <= i < |order| ==> order[i] < CeilDiv(|file|, cs)
  {
    if order == [] then []
    else
      var chunk := ChunkOf(file, cs, order[|order| - 1]);
      WriteAt(Received(file, cs, order[..|order| - 1]), chunk.offset, chunk.content)
  }

  /** The sender cuts the file, and its chunks arrive in any order, some of them repeatedly or not at all. */
  method Upload(source: File, target: File, cs: nat, order: seq<nat>)
    requires source != target && cs > 0 && source.cursor == 0 && target.content == []
    requires forall i :: 0 <= i < |order| ==> order[i] < CeilDiv(|source.content|, cs)
    modifies source`cursor, target
    ensures target.content == Received(source.content, cs, order)
    ensures (forall n: nat :: n < CeilDiv(|source.content|, cs) ==> n in Arrived(order)) ==>
              target.content == source.content
  {
    var chunks := GetChunks(source, cs);
    for i := 0 to |order|
      invariant target.content == Received(source.content, cs, order[..i])
    {
      assert order[..i + 1][..i] == order[..i];
      ChunkUploaded(target, chunks[order[i]]);
    }
    assert order[..|order|] == order;
    if forall n: nat :: n < CeilDiv(|source.content|, cs) ==> n in Arrived(order) {
      UploadOfAllChunks(source.content, cs, order);
    }
  }

  /** The numbers of the chunks that arrived. */
  function Arrived(order: seq<nat>): set<nat> {
    set i | 0 <= i < |order| :: order[i]
  }

  /** The file reaches to the end of the furthest chunk; what arrived is right and the rest is zero. */
  ghost predicate Reflects(got: seq<Byte>, file: seq<Byte>, cs: nat, arrived: set<nat>)
    requires cs > 0
  {
    && |got| <= |file|
    && (forall n :: n in arrived ==> EndOf(|file|, cs, n) <= |got|)
    && (got == [] || exists n :: n in arrived && |got| == EndOf(|file|, cs, n))
    && (forall p :: 0 <= p < |got| ==> got[p] == if ChunkNo(p, cs) in arrived then file[p] else 0)
  }

  /** Every byte that is not zero lies in a chunk that arrived. */
  ghost predicate NonzeroArrived(file: seq<Byte>, cs: nat, arrived: set<nat>)
    requires cs > 0
  {
    forall p :: 0 <= p < |file| && file[p] != 0 ==> ChunkNo(p, cs) in arrived
  }

  lemma {:induction false} ArrivalsReflected(file: seq<Byte>, cs: nat, order: seq<nat>)
    requires cs > 0 && forall i :: 0 <= i < |order| ==> order[i] < CeilDiv(|file|, cs)
    ensures Reflects(Received(file, cs, order), file, cs, Arrived(order))
  {
    if order != [] {
      var before, n := order[..|order| - 1], order[|order| - 1];
      ArrivalsReflected(file, cs, before);
      OneMoreArrival(Received(file, cs, before), file, cs, Arrived(before), n);
      assert Arrived(order) == Arrived(before) + {n};
    }
  }

  lemma OneMoreArrival(got: seq<Byte>, file: seq<Byte>, cs: nat, arrived: set<nat>, n: nat)
    requires cs > 0 && n < CeilDiv(|file|, cs) && Reflects(got, file, cs, arrived)
    ensures Reflects(WriteAt(got, n * cs, ChunkOf(file, cs, n).content), file, cs, arrived + {n})
  {
    var start, end := ChunkSpan(file, cs, n);
    var bytes := file[start..end];
    WriteAtBytes(got, start, bytes);
    forall p | 0 <= p < |WriteAt(got, start, bytes)|
      ensures WriteAt(got, start, bytes)[p] == if ChunkNo(p, cs) in arrived + {n} then file[p] else 0
    {
      BeforeChunkEnd(p, |file|, cs);
      PositionInSpan(p, |file|, cs, n);
    }
    assert n in arrived + {n};
    assert forall m :: m in arrived ==> m in arrived + {n};
  }

  /** The stretch of the file that makes up chunk `n`. */
  lemma ChunkSpan(file: seq<Byte>, cs: nat, n: nat) returns (start: nat, end: nat)
    requires cs > 0 && n < CeilDiv(|file|, cs)
    ensures start == n * cs && end == EndOf(|file|, cs, n) && start < end <= |file|
    ensures ChunkOf(file, cs, n).content == file[start..end]
  {
    ChunkStartsInside(|file|, cs, n);
    start, end := n * cs, EndOf(|file|, cs, n);
  }

  lemma PositionInSpan(p: nat, size: nat, cs: nat, n: nat)
    requires cs > 0 && p < size
    ensures n * cs <= p < EndOf(size, cs, n) <==> n == ChunkNo(p, cs)
  {
    PositionInChunk(p, cs, n);
  }

  lemma BeforeChunkEnd(p: nat, size: nat, cs: nat)
    requires cs > 0 && p < size
    ensures p < EndOf(size, cs, ChunkNo(p, cs))
  {
    PositionInChunk(p, cs, ChunkNo(p, cs));
  }

  /**
   Whatever arrived, in whatever order and however often: the receiver has
   rebuilt the file exactly when the last chunk arrived and every chunk that
   did not arrive holds only zeros.
   */
  lemma UploadRebuilds(file: seq<Byte>, cs: nat, order: seq<nat>)
    requires cs > 0 && forall i :: 0 <= i < |order| ==> order[i] < CeilDiv(|file|, cs)
    ensures Received(file, cs, order) == file <==>
            && (file == [] || CeilDiv(|file|, cs) - 1 in Arrived(order))
            && NonzeroArrived(file, cs, Arrived(order))
  {
    var got, arrived := Received(file, cs, order), Arrived(order);
    ArrivalsReflected(file, cs, order);
    if file != [] {
      FullLength(got, file, cs, arrived);
    }
    if |got| == |file| {
      RightBytes(got, file, cs, arrived);
    }
  }

  lemma FullLength(got: seq<Byte>, file: seq<Byte>, cs: nat, arrived: set<nat>)
    requires cs > 0 && file != [] && Reflects(got, file, cs, arrived)
    requires forall n :: n in arrived ==> n < CeilDiv(|file|, cs)
    ensures |got| == |file| <==> CeilDiv(|file|, cs) - 1 in arrived
  {
    var last := CeilDiv(|file|, cs) - 1;
    LastChunkNumber(|file|, cs);
    ChunkStartsInside(|file|, cs, last + 1);
    assert EndOf(|file|, cs, last) == |file|;
    if |got| == |file| {
      var n :| n in arrived && |got| == EndOf(|file|, cs, n);
      ChunkStartsInside(|file|, cs, n + 1);
    }
  }

  lemma RightBytes(got: seq<Byte>, file: seq<Byte>, cs: nat, arrived: set<nat>)
    requires cs > 0 && Reflects(got, file, cs, arrived) && |got| == |file|
    ensures got == file <==> NonzeroArrived(file, cs, arrived)
  {
  }

  /** In particular, once every chunk has arrived. */
  lemma UploadOfAllChunks(file: seq<Byte>, cs: nat, order: seq<nat>)
    requires cs > 0 && forall i :: 0 <= i < |order| ==> order[i] < CeilDiv(|file|, cs)
    requires forall n: nat :: n < CeilDiv(|file|, cs) ==> n in Arrived(order)
    ensures Received(file, cs, order) == file
  {
    UploadRebuilds(file, cs, order);
    forall p | 0 <= p < |file|
      ensures ChunkNo(p, cs) in Arrived(order)
    {
      ChunkNumberInRange(p, |file|, cs);
    }
    LastChunkNumber(|file|, cs);
  }

  lemma ChunkNumberInRange(p: nat, size: nat, cs: nat)
    requires cs > 0 && p < size
    ensures ChunkNo(p, cs) < CeilDiv(size, cs)
  {
    PositionInChunk(p, cs, ChunkNo(p, cs));
    ChunkStartsInside(size, cs, ChunkNo(p, cs));
  }

  lemma LastChunkNumber(size: nat, cs: nat)
    requires cs > 0
    ensures size > 0 ==> CeilDiv(size, cs) >= 1
  {
    if size > 0 {
      ChunkNumberInRange(0, size, cs);
    }
  }
}
