/**
 Bounded capture of a command's standard output and error
 (exe-unit/src/output.rs).  The buffers work in place; what they hold is stated
 over all bytes ever written to them.
 */
module Output {
  import opened Common

  /** The first `n` bytes of `s`, or all of it. */
  function First(n: nat, s: seq<Byte>): (r: seq<Byte>)
    ensures r <= s && |r| == if |s| < n then |s| else n
  {
    if |s| <= n then s else s[..n]
  }

  function Min(a: nat, b: nat): nat {
    if a <= b then a else b
  }

  /** The last `k` bytes of `s`. */
  function Suffix(s: seq<Byte>, k: nat): (r: seq<Byte>)
    requires k <= |s|
    ensures |r| == k
  {
    s[|s| - k..]
  }

  /** The last `n` bytes of `s`, or all of it. */
  function Last(n: nat, s: seq<Byte>): (r: seq<Byte>)
    ensures |r| == Min(n, |s|)
  {
    Suffix(s, Min(n, |s|))
  }

  // ------------------------------------------------------------------------
  // One buffer
  // ------------------------------------------------------------------------

  /** What a buffer keeps of the bytes written to it. */
  datatype Kind = All | Capped(limit: nat) | Ring(limit: nat) | Discard {
    /** The constructors turn a zero limit into `Discard`. */
    predicate Valid() {
      (Capped? || Ring?) ==> limit > 0
    }

    function Kept(written: seq<Byte>): seq<Byte> {
      match this
      case All => written
      case Capped(n) => First(n, written)
      case Ring(n) => Last(n, written)
      case Discard => []
    }

    /** The part of `bytes` that a write after `written` reports as captured. */
    function Accepted(written: seq<Byte>, bytes: seq<Byte>): Option<seq<Byte>> {
      if bytes == [] then None
      else
        match this
        case All => Some(bytes)
        case Capped(n) =>
          var room := n - |Kept(written)|;
          if room == 0 then None else Some(First(room, bytes))
        case Ring(n) => Some(Last(n, bytes))
        case Discard => None
    }
  }

  function CappedKind(limit: nat): (k: Kind)
    ensures k.Valid()
  {
    if limit == 0 then Discard else Capped(limit)
  }

  function RingKind(limit: nat): (k: Kind)
    ensures k.Valid()
  {
    if limit == 0 then Discard else Ring(limit)
  }

  /** A zero limit makes no difference to what is kept. */
  lemma LimitsKeep(limit: nat, written: seq<Byte>)
    ensures CappedKind(limit).Kept(written) == First(limit, written)
    ensures RingKind(limit).Kept(written) == Last(limit, written)
  {
    if limit == 0 {
      assert First(0, written) == [] == Last(0, written);
    }
  }

  /** A buffer that appends what it accepts holds exactly what it keeps. */
  lemma AcceptedExtendsKept(k: Kind, written: seq<Byte>, bytes: seq<Byte>)
    requires k.All? || k.Capped? || k.Discard?
    ensures var a := k.Accepted(written, bytes);
            k.Kept(written + bytes) == k.Kept(written) + (if a.Some? then a.value else [])
  {
  }

  /** How many bytes of a write the buffer has room for: all, what is left of the limit, the limit, or none. */
  function Room(k: Kind, written: seq<Byte>, bytes: seq<Byte>): nat {
    match k
    case All => |bytes|
    case Capped(n) => if |written| < n then Min(n - |written|, |bytes|) else 0
    case Ring(n) => Min(n, |bytes|)
    case Discard => 0
  }

  /** `part` is `n` bytes of a write: those that the buffer then holds at its end. */
  predicate HeldPart(held: seq<Byte>, bytes: seq<Byte>, n: nat, last: bool, part: seq<Byte>) {
    && n <= |bytes| && n <= |held| && part == held[|held| - n..]
    && part == if last then bytes[|bytes| - n..] else bytes[..n]
  }

  lemma AppendedIsHeld(k: Kind, written: seq<Byte>, bytes: seq<Byte>)
    requires k.Valid() && !k.Ring? && Room(k, written, bytes) > 0
    ensures k.Accepted(written, bytes).Some?
    ensures HeldPart(k.Kept(written + bytes), bytes, Room(k, written, bytes), false, k.Accepted(written, bytes).value)
  {
    var kept, part := k.Kept(written), k.Accepted(written, bytes).value;
    AcceptedExtendsKept(k, written, bytes);
    assert (kept + part)[|kept + part| - |part|..] == part;
  }

  lemma RingIsHeld(limit: nat, written: seq<Byte>, bytes: seq<Byte>)
    requires limit > 0 && bytes != []
    ensures HeldPart(Last(limit, written + bytes), bytes, Min(limit, |bytes|), true, Last(limit, bytes))
  {
    var vec, part := Last(limit, written), Last(limit, bytes);
    RingHoldsLast(written, bytes, limit);
    var rest := Suffix(vec, Min(|vec|, limit - |part|));
    assert (rest + part)[|rest + part| - |part|..] == part;
  }

  /**
   What a write reports: the part of it that the buffer then holds, at its end; its
   first bytes, but the last ones where the oldest are overwritten.
   */
  lemma AcceptedIsHeld(k: Kind, written: seq<Byte>, bytes: seq<Byte>)
    requires k.Valid()
    ensures var n, a := Room(k, written, bytes), k.Accepted(written, bytes);
            && (a.Some? <==> n > 0)
            && (a.Some? ==> HeldPart(k.Kept(written + bytes), bytes, n, k.Ring?, a.value))
  {
    if Room(k, written, bytes) > 0 {
      if k.Ring? {
        RingIsHeld(k.limit, written, bytes);
      } else {
        AppendedIsHeld(k, written, bytes);
      }
    }
  }

  class CaptureBuffer {
    const kind: Kind
    var vec: seq<Byte>
    /** Everything ever written. */
    ghost var written: seq<Byte>

    ghost predicate Valid()
      reads this
    {
      kind.Valid() && vec == kind.Kept(written)
    }

    constructor (kind: Kind)
      requires kind.Valid()
      ensures Valid() && this.kind == kind && written == []
    {
      this.kind := kind;
      vec := [];
      written := [];
    }

    /** All slices are in range, and the buffer goes on holding what it should. */
    method Write(bytes: seq<Byte>) returns (accepted: Option<seq<Byte>>)
      requires Valid()
      modifies this
      ensures Valid() && written == old(written) + bytes
      ensures accepted == kind.Accepted(old(written), bytes)
    {
      accepted := None;
      ghost var before := written;
      written := before + bytes;
      var sz := |bytes|;
      if sz == 0 {
        assert written == before;
        return;
      }
      match kind
      case All =>
        vec := vec + bytes;
        accepted := Some(bytes);
      case Capped(limit) =>
        var endIdx := if sz < limit - |vec| then sz else limit - |vec|;
        var slice := bytes[..endIdx];
        assert slice == First(limit - |vec|, bytes);
        if slice != [] {
          vec := vec + slice;
          accepted := Some(slice);
        }
        AcceptedExtendsKept(kind, before, bytes);
      case Ring(limit) =>
        var slice;
        vec, slice := RotateIn(vec, limit, bytes);
        accepted := Some(slice);
        RingHoldsLast(before, bytes, limit);
      case Discard =>
    }
  }

  /** The bytes left after making room for `slice`, followed by it. */
  function Overwritten(vec: seq<Byte>, limit: nat, slice: seq<Byte>): seq<Byte>
    requires |vec| <= limit && |slice| <= limit
  {
    Suffix(vec, Min(|vec|, limit - |slice|)) + slice
  }

  /** The ring's step: rotate the oldest bytes to the end, grow with zeros, copy in. */
  method RotateIn(oldVec: seq<Byte>, limit: nat, bytes: seq<Byte>) returns (vec: seq<Byte>, slice: seq<Byte>)
    requires |oldVec| <= limit
    ensures slice == Last(limit, bytes)
    ensures vec == Overwritten(oldVec, limit, slice)
  {
    vec := oldVec;
    var len, sz := |vec|, |bytes|;
    slice := if sz > limit then bytes[sz - limit..] else bytes;
    var endIdx := len + |slice|;
    var shift := if endIdx > limit then endIdx - limit else 0;
    var startIdx := len - shift;
    endIdx := endIdx - shift;
    vec := vec[shift..] + vec[..shift];
    var zeros: seq<Byte> := if len < endIdx then seq(endIdx - len, _ => 0) else [];
    vec := vec + zeros;
    FrontOfRotation(oldVec, shift, zeros);
    assert |vec| == endIdx && startIdx == Min(len, limit - |slice|);
    vec := vec[..startIdx] + slice + vec[endIdx..];
  }

  lemma FrontOfRotation(v: seq<Byte>, shift: nat, tail: seq<Byte>)
    requires shift <= |v|
    ensures (v[shift..] + v[..shift] + tail)[..|v| - shift] == Suffix(v, |v| - shift)
  {
  }

  /** Overwriting the oldest bytes with the newest keeps the last `limit` of all. */
  lemma RingHoldsLast(before: seq<Byte>, bytes: seq<Byte>, limit: nat)
    ensures Overwritten(Last(limit, before), limit, Last(limit, bytes)) == Last(limit, before + bytes)
  {
    if |bytes| >= limit {
      RingNewest(before, bytes, limit, Last(limit, before));
    } else {
      RingMixed(before, bytes, limit);
    }
  }

  lemma RingNewest(before: seq<Byte>, bytes: seq<Byte>, limit: nat, vec: seq<Byte>)
    requires |vec| <= limit <= |bytes|
    ensures Overwritten(vec, limit, Last(limit, bytes)) == Last(limit, before + bytes)
  {
    SuffixOfAppend(before, bytes, limit);
    assert Suffix(vec, 0) == [];
  }

  lemma RingMixed(before: seq<Byte>, bytes: seq<Byte>, limit: nat)
    requires |bytes| < limit
    ensures Overwritten(Last(limit, before), limit, Last(limit, bytes)) == Last(limit, before + bytes)
  {
    var k, room := Min(limit, |before|), limit - |bytes|;
    var j := Min(k, room);
    assert Last(limit, bytes) == bytes;
    SuffixOfSuffix(before, k, j);
    assert j == Min(room, |before|);
    SuffixOfAppend(before, bytes, j + |bytes|);
    if j == 0 {
      assert Suffix(before, 0) + bytes == bytes == Suffix(bytes, |bytes|);
    }
  }

  lemma SuffixOfSuffix(s: seq<Byte>, k: nat, j: nat)
    requires j <= k <= |s|
    ensures Suffix(Suffix(s, k), j) == Suffix(s, j)
  {
  }

  lemma SuffixOfAppend(a: seq<Byte>, b: seq<Byte>, k: nat)
    requires k <= |a| + |b|
    ensures Suffix(a + b, k) == if k <= |b| then Suffix(b, k) else Suffix(a, k - |b|) + b
  {
  }

  // ------------------------------------------------------------------------
  // A command's stream: a head buffer and a tail buffer
  // ------------------------------------------------------------------------

  datatype Format = Str | Bin

  const DEFAULT_FORMAT: Format := Str

  /** Captured bytes in the form the requestor asked for; `Str` is decoded by the caller. */
  datatype CommandOutput = CommandOutput(format: Format, bytes: seq<Byte>)

  datatype Part = Head(limit: nat) | Tail(limit: nat) | HeadTail(limit: nat)

  datatype Mode =
    | AtEnd(part: Option<Part>, format: Option<Format>)
    | Stream(limit: Option<nat>, format: Option<Format>)

  /** The value of a `CapturedOutput`: its settings and everything written to it. */
  datatype Captured = Captured(stream: bool, format: Format, head: Kind, tail: Kind, written: seq<Byte>) {
    function Bytes(): seq<Byte> {
      head.Kept(written) + tail.Kept(written)
    }

    function Output(): Option<CommandOutput> {
      if Bytes() == [] then None else Some(CommandOutput(format, Bytes()))
    }

    function Wrote(bytes: seq<Byte>): Captured {
      this.(written := written + bytes)
    }

    /** What a write reports: the part the head took, else the part the tail took. */
    function Reported(bytes: seq<Byte>): Option<CommandOutput> {
      var h, t := head.Accepted(written, bytes), tail.Accepted(written, bytes);
      var taken := if h.Some? then h else t;
      if taken.Some? then Some(CommandOutput(format, taken.value)) else None
    }
  }

  function CaptureAll(): Captured {
    Captured(true, DEFAULT_FORMAT, All, Discard, [])
  }

  function CaptureNothing(): Captured {
    Captured(false, DEFAULT_FORMAT, Discard, Discard, [])
  }

  function FormatOr(format: Option<Format>): Format {
    if format.Some? then format.value else DEFAULT_FORMAT
  }

  /** Half of `n`, rounded up. */
  function HalfUp(n: nat): (h: nat)
    ensures h <= n && n <= 2 * h <= n + 1
  {
    (n + 1) / 2
  }

  function FromMode(mode: Option<Mode>): Captured {
    match mode
    case None => CaptureNothing()
    case Some(AtEnd(part, format)) =>
      var (head, tail) :=
        match part
        case Some(Head(limit)) => (CappedKind(limit), Discard)
        case Some(Tail(limit)) => (Discard, RingKind(limit))
        case Some(HeadTail(limit)) =>
          (CappedKind(HalfUp(limit)), RingKind(limit - HalfUp(limit)))
        case None => (All, Discard);
      Captured(false, FormatOr(format), head, tail, [])
    case Some(Stream(limit, format)) =>
      Captured(true, FormatOr(format), if limit.Some? then CappedKind(limit.value) else All, Discard, [])
  }

  /** What the requestor is promised for each way of asking, of everything the command wrote. */
  function Promise(mode: Option<Mode>, written: seq<Byte>): seq<Byte> {
    match mode
    case None => []
    case Some(AtEnd(None, _)) => written
    case Some(AtEnd(Some(Head(n)), _)) => First(n, written)
    case Some(AtEnd(Some(Tail(n)), _)) => Last(n, written)
    case Some(AtEnd(Some(HeadTail(n)), _)) => First(HalfUp(n), written) + Last(n - HalfUp(n), written)
    case Some(Stream(None, _)) => written
    case Some(Stream(Some(n), _)) => First(n, written)
  }

  /** Captures keep the promise. */
  lemma CaptureContract(mode: Option<Mode>, written: seq<Byte>)
    ensures FromMode(mode).Wrote(written).Bytes() == Promise(mode, written)
  {
    BytesOfFresh(FromMode(mode), written);
    match mode
    case None => Alone<Byte>([]);
    case Some(AtEnd(Some(part), format)) => PartContract(part, format, written);
    case Some(AtEnd(None, _)) => Alone(written);
    case Some(Stream(None, _)) => Alone(written);
    case Some(Stream(Some(n), _)) =>
      LimitsKeep(n, written);
      Alone(First(n, written));
  }

  lemma BytesOfFresh(c: Captured, written: seq<Byte>)
    requires c.written == []
    ensures c.Wrote(written).Bytes() == c.head.Kept(written) + c.tail.Kept(written)
  {
    Alone(written);
  }

  /** The limits of the two buffers for a part. */
  function HeadLimit(part: Part): nat {
    match part
    case Head(n) => n
    case Tail(_) => 0
    case HeadTail(n) => HalfUp(n)
  }

  function TailLimit(part: Part): nat {
    match part
    case Head(_) => 0
    case Tail(n) => n
    case HeadTail(n) => n - HalfUp(n)
  }

  lemma PartBuffers(part: Part, format: Option<Format>)
    ensures var c := FromMode(Some(AtEnd(Some(part), format)));
            c.head == CappedKind(HeadLimit(part)) && c.tail == RingKind(TailLimit(part))
  {
  }

  lemma PartPromise(part: Part, format: Option<Format>, written: seq<Byte>)
    ensures Promise(Some(AtEnd(Some(part), format)), written) ==
            First(HeadLimit(part), written) + Last(TailLimit(part), written)
  {
    if part.Head? {
      assert Last(0, written) == [];
      Alone(First(part.limit, written));
    } else if part.Tail? {
      assert First(0, written) == [];
      Alone(Last(part.limit, written));
    }
  }

  lemma PartContract(part: Part, format: Option<Format>, written: seq<Byte>)
    ensures var c := FromMode(Some(AtEnd(Some(part), format)));
            c.head.Kept(written) + c.tail.Kept(written) == Promise(Some(AtEnd(Some(part), format)), written)
  {
    PartBuffers(part, format);
    PartPromise(part, format, written);
    KeptTogether(HeadLimit(part), TailLimit(part), written);
  }

  lemma KeptTogether(h: nat, t: nat, written: seq<Byte>)
    ensures CappedKind(h).Kept(written) + RingKind(t).Kept(written) == First(h, written) + Last(t, written)
  {
    LimitsKeep(h, written);
    LimitsKeep(t, written);
  }

  /** The format asked for, text unless asked otherwise. */
  function AskedFormat(mode: Option<Mode>): Format {
    match mode
    case Some(AtEnd(_, Some(f))) => f
    case Some(Stream(_, Some(f))) => f
    case _ => Str
  }

  /** The output is what was promised, in the format asked for; nothing is reported for nothing captured. */
  lemma OutputAsAsked(mode: Option<Mode>, written: seq<Byte>)
    ensures FromMode(mode).Wrote(written).Output() ==
            if Promise(mode, written) == [] then None
            else Some(CommandOutput(AskedFormat(mode), Promise(mode, written)))
  {
    CaptureContract(mode, written);
  }

  /** What a write to both buffers reports: the head's part as long as the head has room, then the tail's. */
  lemma ReportedPart(c: Captured, bytes: seq<Byte>)
    requires c.head.Valid() && c.tail.Valid()
    ensures var h, t, out := Room(c.head, c.written, bytes), Room(c.tail, c.written, bytes), c.Reported(bytes);
            && (out.Some? <==> h > 0 || t > 0)
            && (h > 0 ==> HeldPart(c.head.Kept(c.written + bytes), bytes, h, c.head.Ring?, out.value.bytes))
            && (h == 0 && t > 0 ==> HeldPart(c.tail.Kept(c.written + bytes), bytes, t, c.tail.Ring?, out.value.bytes))
  {
    AcceptedIsHeld(c.head, c.written, bytes);
    AcceptedIsHeld(c.tail, c.written, bytes);
  }

  /** So is every chunk that a write reports. */
  lemma ChunkAsAsked(mode: Option<Mode>, written: seq<Byte>, bytes: seq<Byte>)
    ensures var out := FromMode(mode).Wrote(written).Reported(bytes);
            out.Some? ==> out.value.format == AskedFormat(mode)
  {
  }

  /** What is promised within a limit stays within it; only streaming captures are streamed. */
  lemma PromiseWithinLimit(mode: Mode, written: seq<Byte>)
    ensures mode.AtEnd? && mode.part.Some? ==> |Promise(Some(mode), written)| <= mode.part.value.limit
    ensures mode.Stream? && mode.limit.Some? ==> |Promise(Some(mode), written)| <= mode.limit.value
    ensures FromMode(Some(mode)).stream <==> mode.Stream?
  {
  }

  /**
   Head and tail both see every byte, so a head-and-tail capture reproduces the
   stream exactly when the command wrote nothing or exactly `limit` bytes.
   */
  lemma HeadTailReproducesStream(limit: nat, format: Option<Format>, written: seq<Byte>)
    ensures FromMode(Some(AtEnd(Some(HeadTail(limit)), format))).Wrote(written).Bytes() == written
            <==> |written| == 0 || |written| == limit
  {
    CaptureContract(Some(AtEnd(Some(HeadTail(limit)), format)), written);
    HeadTailLength(limit, written);
    if |written| == limit {
      HeadPlusTail(HalfUp(limit), written);
    }
  }

  lemma HeadTailLength(limit: nat, written: seq<Byte>)
    ensures |First(HalfUp(limit), written) + Last(limit - HalfUp(limit), written)| == |written|
            <==> |written| == 0 || |written| == limit
  {
  }

  lemma HeadPlusTail(h: nat, written: seq<Byte>)
    requires h <= |written|
    ensures First(h, written) + Last(|written| - h, written) == written
  {
    assert First(h, written) == written[..h];
  }

  /** The chunks reported by a run of writes, one after another. */
  function ReportedBytes(c: Captured, writes: seq<seq<Byte>>): seq<Byte>
    decreases |writes|
  {
    if writes == [] then []
    else
      var out := c.Reported(writes[0]);
      (if out.Some? then out.value.bytes else []) + ReportedBytes(c.Wrote(writes[0]), writes[1..])
  }

  /** Without a tail buffer, the chunks reported so far add up to what is stored. */
  lemma {:induction false} ReportsAddUp(c: Captured, writes: seq<seq<Byte>>)
    requires c.tail.Discard? && !c.head.Ring?
    ensures c.head.Kept(c.written) + ReportedBytes(c, writes) == c.head.Kept(c.written + Concat(writes))
    decreases |writes|
  {
    var kept := c.head.Kept(c.written);
    if writes == [] {
      assert c.written + [] == c.written;
      assert kept + [] == kept;
    } else {
      var out := c.Reported(writes[0]);
      var chunk := if out.Some? then out.value.bytes else [];
      var next := c.Wrote(writes[0]);
      AcceptedExtendsKept(c.head, c.written, writes[0]);
      ReportsAddUp(next, writes[1..]);
      AppendAssoc(kept, chunk, ReportedBytes(next, writes[1..]));
      AppendAssoc(c.written, writes[0], Concat(writes[1..]));
    }
  }

  class CapturedOutput {
    const stream: bool
    const format: Format
    const head: CaptureBuffer
    const tail: CaptureBuffer

    ghost predicate Valid()
      reads this, head, tail
    {
      head != tail && head.Valid() && tail.Valid() && head.written == tail.written
    }

    /** The settings, and everything written so far. */
    ghost function View(): Captured
      reads this, head, tail
    {
      Captured(stream, format, head.kind, tail.kind, head.written)
    }

    constructor (mode: Option<Mode>)
      ensures Valid() && fresh(head) && fresh(tail)
      ensures View() == FromMode(mode)
    {
      var c := FromMode(mode);
      stream, format := c.stream, c.format;
      head := new CaptureBuffer(c.head);
      tail := new CaptureBuffer(c.tail);
    }

    method Write(bytes: seq<Byte>) returns (out: Option<CommandOutput>)
      requires Valid()
      modifies head, tail
      ensures Valid()
      ensures View() == old(View()).Wrote(bytes)
      ensures out == old(View()).Reported(bytes)
    {
      var bytesHead := head.Write(bytes);
      var bytesTail := tail.Write(bytes);
      var taken := if bytesHead.Some? then bytesHead else bytesTail;
      out := if taken.Some? then Some(CommandOutput(format, taken.value)) else None;
    }

    method Output() returns (out: Option<CommandOutput>)
      requires Valid()
      ensures out == View().Output()
    {
      var output := head.vec + tail.vec;
      out := if output == [] then None else Some(CommandOutput(format, output));
    }
  }
}
