/**
 The receiving side of the VM endpoint: `RxBuffer` and the poll-driven
 `RxBufferStream` (exe-unit/src/network.rs), over an inner stream that may
 answer Pending at any time.
 */
module FrameStream {
  import opened Common
  import opened Framing

  /** An item of the inner stream: a chunk read from the socket, or a read error. */
  datatype Item = Chunk(bytes: seq<Byte>) | Fault(code: int)

  /** What the inner stream answers to one poll, until its turns run out and it has ended. */
  datatype Turn = NotReady | Yield(item: Item)

  /** An item of the framed stream. */
  datatype Out = Payload(bytes: seq<Byte>) | Failure(code: int)

  datatype Poll = Ready(out: Out) | Ended | Pending

  // ------------------------------------------------------------------------
  // What a run must deliver
  // ------------------------------------------------------------------------

  function Delivered(frames: seq<seq<Byte>>): (r: seq<Out>)
    ensures |r| == |frames|
  {
    seq(|frames|, i requires 0 <= i < |frames| => Payload(frames[i]))
  }

  /** Everything the framed stream has still to deliver. */
  function Expected(c: Prefix, buf: seq<Byte>, items: seq<Item>): seq<Out>
    requires c.Supported()
    decreases |items|, 1
  {
    Delivered(Frames(c, buf)) + After(c, Leftover(c, buf), items)
  }

  /** What follows once the buffer holds no complete frame any more. */
  function After(c: Prefix, rest: seq<Byte>, items: seq<Item>): seq<Out>
    requires c.Supported()
    decreases |items|, 0
  {
    if items == [] then []
    else
      match items[0]
      case Chunk(b) => Expected(c, rest + b, items[1..])
      case Fault(e) => [Failure(e)] + Expected(c, rest, items[1..])
  }

  function ItemsOf(turns: seq<Turn>): seq<Item> {
    if turns == [] then []
    else (if turns[0].Yield? then [turns[0].item] else []) + ItemsOf(turns[1..])
  }

  function BytesOf(items: seq<Item>): seq<Byte> {
    if items == [] then []
    else (if items[0].Chunk? then items[0].bytes else []) + BytesOf(items[1..])
  }

  function FaultsOf(items: seq<Item>): seq<int> {
    if items == [] then []
    else (if items[0].Fault? then [items[0].code] else []) + FaultsOf(items[1..])
  }

  function PayloadsIn(outs: seq<Out>): seq<seq<Byte>> {
    if outs == [] then [] else PayloadOf(outs[0]) + PayloadsIn(outs[1..])
  }

  function FailuresIn(outs: seq<Out>): seq<int> {
    if outs == [] then [] else FailureOf(outs[0]) + FailuresIn(outs[1..])
  }

  /** The payload of one item, as a sequence of at most one. */
  function PayloadOf(out: Out): seq<seq<Byte>> {
    if out.Payload? then [out.bytes] else []
  }

  function FailureOf(out: Out): seq<int> {
    if out.Failure? then [out.code] else []
  }

  lemma ConsAppend<T>(a: seq<T>, b: seq<T>)
    requires a != []
    ensures (a + b)[0] == a[0] && (a + b)[1..] == a[1..] + b
  {
  }

  lemma {:induction false} SplitPayloads(a: seq<Out>, b: seq<Out>)
    ensures PayloadsIn(a + b) == PayloadsIn(a) + PayloadsIn(b)
  {
    if a == [] {
      assert a + b == b;
    } else {
      SplitPayloads(a[1..], b);
      ConsAppend(a, b);
      AppendAssoc(PayloadOf(a[0]), PayloadsIn(a[1..]), PayloadsIn(b));
    }
  }

  lemma {:induction false} SplitFailures(a: seq<Out>, b: seq<Out>)
    ensures FailuresIn(a + b) == FailuresIn(a) + FailuresIn(b)
  {
    if a == [] {
      assert a + b == b;
    } else {
      SplitFailures(a[1..], b);
      ConsAppend(a, b);
      AppendAssoc(FailureOf(a[0]), FailuresIn(a[1..]), FailuresIn(b));
    }
  }

  lemma {:induction false} DeliveredOnly(frames: seq<seq<Byte>>)
    ensures PayloadsIn(Delivered(frames)) == frames
    ensures FailuresIn(Delivered(frames)) == []
  {
    if frames != [] {
      DeliveredOnly(frames[1..]);
      assert Delivered(frames)[1..] == Delivered(frames[1..]);
    }
  }

  /**
   However the bytes are cut into chunks and whatever read errors come between
   them, the payloads delivered are those of the concatenated bytes.
   */
  lemma {:induction false} ChunkingIsIrrelevant(c: Prefix, buf: seq<Byte>, items: seq<Item>)
    requires c.Supported()
    ensures PayloadsIn(Expected(c, buf, items)) == Frames(c, buf + BytesOf(items))
    decreases |items|, 1
  {
    var rest := Leftover(c, buf);
    DeliveredOnly(Frames(c, buf));
    SplitPayloads(Delivered(Frames(c, buf)), After(c, rest, items));
    FramesAppend(c, buf, BytesOf(items));
    LeftoverIncomplete(c, buf);
    LaterPayloads(c, rest, items);
  }

  lemma {:induction false} LaterPayloads(c: Prefix, rest: seq<Byte>, items: seq<Item>)
    requires c.Supported() && FirstLength(c, rest).None?
    ensures PayloadsIn(After(c, rest, items)) == Frames(c, rest + BytesOf(items))
    decreases |items|, 0
  {
    if items == [] {
      assert rest + [] == rest;
    } else {
      var tail := items[1..];
      match items[0]
      case Chunk(b) =>
        ChunkingIsIrrelevant(c, rest + b, tail);
        AppendAssoc(rest, b, BytesOf(tail));
      case Fault(e) =>
        ChunkingIsIrrelevant(c, rest, tail);
        assert BytesOf(items) == BytesOf(tail);
        assert ([Failure(e)] + Expected(c, rest, tail))[1..] == Expected(c, rest, tail);
    }
  }

  /** Every read error is passed on, once and in order. */
  lemma {:induction false} FaultsPassThrough(c: Prefix, buf: seq<Byte>, items: seq<Item>)
    requires c.Supported()
    ensures FailuresIn(Expected(c, buf, items)) == FaultsOf(items)
    decreases |items|
  {
    var rest := Leftover(c, buf);
    DeliveredOnly(Frames(c, buf));
    SplitFailures(Delivered(Frames(c, buf)), After(c, rest, items));
    if items != [] {
      match items[0]
      case Chunk(b) =>
        FaultsPassThrough(c, rest + b, items[1..]);
      case Fault(e) =>
        FaultsPassThrough(c, rest, items[1..]);
        SplitFailures([Failure(e)], Expected(c, rest, items[1..]));
        assert FailuresIn([Failure(e)]) == [e];
    }
  }

  /**
   Printer and parser agree over every chunking: the payloads come back, in
   order, exactly when each fits its prefix.
   */
  lemma RoundTrip(c: Prefix, payloads: seq<seq<Byte>>, turns: seq<Turn>)
    requires c.Supported()
    requires BytesOf(ItemsOf(turns)) == Wire(c, payloads)
    ensures PayloadsIn(Expected(c, [], ItemsOf(turns))) == payloads <==> AllFit(c, payloads)
  {
    ChunkingIsIrrelevant(c, [], ItemsOf(turns));
    assert [] + Wire(c, payloads) == Wire(c, payloads);
    WireRoundTrip(c, payloads);
  }

  // ------------------------------------------------------------------------
  // The reader
  // ------------------------------------------------------------------------

  class RxBuffer {
    const prefix: Prefix
    var inner: seq<Byte>

    constructor (prefix: Prefix)
      requires prefix.Supported()
      ensures this.prefix == prefix && inner == []
    {
      this.prefix := prefix;
      inner := [];
    }

    predicate HasNext()
      reads this
    {
      match ReadPrefix(prefix, inner)
      case Some(n) => |inner| >= prefix.size + n
      case None => false
    }

    /** Takes the first payload out of the buffer, if it is complete. */
    method TakeNext() returns (r: Option<seq<Byte>>)
      requires prefix.Supported()
      modifies this
      ensures r.None? ==> inner == old(inner) && Frames(prefix, inner) == []
      ensures r.Some? ==> |inner| < |old(inner)|
      ensures r.Some? ==> Frames(prefix, old(inner)) == [r.value] + Frames(prefix, inner)
      ensures Leftover(prefix, inner) == Leftover(prefix, old(inner))
    {
      r := None;
      ghost var all := inner;
      var length := ReadPrefix(prefix, inner);
      if length.Some? && |inner| >= prefix.size + length.value {
        var n := length.value;
        inner := inner[prefix.size..];
        r := Some(inner[..n]);
        inner := inner[n..];
        SplitOff(all, prefix.size, n);
      }
    }

    method Process(bytes: seq<Byte>) returns (r: Option<seq<Byte>>)
      requires prefix.Supported()
      modifies this
      ensures r.None? ==> inner == old(inner) + bytes && Frames(prefix, inner) == []
      ensures r.Some? ==> Frames(prefix, old(inner) + bytes) == [r.value] + Frames(prefix, inner)
      ensures Leftover(prefix, inner) == Leftover(prefix, old(inner) + bytes)
    {
      if inner == [] {
        inner := bytes;
      } else {
        inner := inner + bytes;
      }
      assert inner == old(inner) + bytes;
      r := TakeNext();
    }
  }

  lemma SplitOff(s: seq<Byte>, k: nat, n: nat)
    requires k + n <= |s|
    ensures s[k..][..n] == s[k..k + n] && s[k..][n..] == s[k + n..]
  {
  }

  /** The inner stream behind a one-item look-ahead. */
  class Peekable {
    var turns: seq<Turn>
    var peeked: Option<Item>
    /** Whether the inner stream keeps the reader's waker, having answered Pending last. */
    var waker: bool
    /** All turns of the inner stream, how many are over, and whether its end was seen. */
    ghost const all: seq<Turn>
    ghost var taken: nat
    ghost var ended: bool

    ghost predicate Valid()
      reads this
    {
      && taken <= |all| && turns == all[taken..]
      && (waker <==> !ended && taken > 0 && all[taken - 1].NotReady?)
    }

    ghost function Items(): seq<Item>
      reads this
    {
      (if peeked.Some? then [peeked.value] else []) + ItemsOf(turns)
    }

    constructor (turns: seq<Turn>)
      ensures Valid() && this.turns == all == turns && peeked.None? && !waker
    {
      this.turns, peeked, waker := turns, None, false;
      all, taken, ended := turns, 0, false;
    }

    /** Polls the inner stream once: an item, Pending, or the end. */
    method PollInner() returns (item: Option<Item>, pending: bool)
      requires Valid()
      modifies this
      ensures Valid() && peeked == old(peeked)
      ensures pending == waker && taken <= old(taken) + 1
      ensures pending ==> item.None? && ItemsOf(turns) == ItemsOf(old(turns))
      ensures item.Some? ==> ItemsOf(old(turns)) == [item.value] + ItemsOf(turns)
      ensures item.None? && !pending ==> turns == old(turns) == []
      ensures item.Some? || pending ==> |turns| < |old(turns)|
    {
      if turns == [] {
        waker, ended := false, true;
        return None, false;
      }
      match turns[0] {
        case NotReady => item, pending := None, true;
        case Yield(i) => item, pending := Some(i), false;
      }
      waker := pending;
      turns := turns[1..];
      taken, ended := taken + 1, false;
    }

    method PollNext() returns (item: Option<Item>, pending: bool)
      requires Valid()
      modifies this
      ensures Valid() && peeked.None?
      ensures pending ==> waker && item.None? && Items() == old(Items()) && |turns| < |old(turns)|
      ensures item.Some? ==> old(Items()) == [item.value] + Items()
      ensures item.Some? ==> |turns| < |old(turns)| || (turns == old(turns) && old(peeked.Some?))
      ensures item.None? && !pending ==> !waker && turns == old(turns) && old(Items()) == Items() == []
    {
      if peeked.Some? {
        item, pending := peeked, false;
        peeked := None;
        assert old(Items()) == [item.value] + Items();
      } else {
        item, pending := PollInner();
      }
    }

    /** `ready`: the inner stream did not answer Pending, be it that it has ended. */
    method PollPeek() returns (ready: bool)
      requires Valid() && peeked.None?
      modifies this
      ensures Valid() && (ready <==> !waker)
      ensures Items() == old(Items())
      ensures |turns| < |old(turns)| || (turns == old(turns) && peeked.None?)
    {
      var item, pending := PollInner();
      peeked := item;
      ready := !pending;
    }
  }

  class RxBufferStream {
    const rxBuffer: RxBuffer
    const inner: Peekable

    ghost predicate Valid()
      reads this, inner
    {
      rxBuffer.prefix.Supported() && inner.Valid()
    }

    ghost function ToDeliver(): seq<Out>
      requires Valid()
      reads this, rxBuffer, inner
    {
      Expected(rxBuffer.prefix, rxBuffer.inner, inner.Items())
    }

    constructor (prefix: Prefix, turns: seq<Turn>)
      requires prefix.Supported()
      ensures Valid() && fresh(rxBuffer) && fresh(inner) && inner.all == turns
      ensures ToDeliver() == Expected(prefix, [], ItemsOf(turns))
    {
      rxBuffer := new RxBuffer(prefix);
      inner := new Peekable(turns);
      new;
      assert inner.Items() == ItemsOf(turns);
    }

    /** One poll.  `woken` says that the reader called its own waker. */
    method PollNext() returns (r: Poll, woken: bool)
      requires Valid()
      modifies rxBuffer, inner
      ensures Valid()
      // nothing lost, duplicated, reordered or invented
      ensures r.Ready? ==> old(ToDeliver()) == [r.out] + ToDeliver()
      ensures r.Pending? ==> old(ToDeliver()) == ToDeliver()
      ensures r.Ended? ==> old(ToDeliver()) == ToDeliver() == []
      // a suspended reader will be polled again: it woke itself, or the inner stream answered Pending and will
      ensures r.Pending? ==> woken || inner.waker
      // a frame already in the buffer does not wait for more input
      ensures r.Ready? && r.out.Payload? && Frames(rxBuffer.prefix, rxBuffer.inner) != [] ==> woken
      // nor does the reader wake itself for nothing
      ensures woken ==> !inner.waker || Frames(rxBuffer.prefix, rxBuffer.inner) != []
      ensures woken ==> r.Pending? || (r.Ready? && r.out.Payload?)
      // every poll before the end makes progress
      ensures !r.Ended? ==>
                || |inner.turns| < |old(inner.turns)|
                || (inner.turns == old(inner.turns) && old(inner.peeked.Some?) && inner.peeked.None?)
                || (inner.turns == old(inner.turns) && inner.peeked == old(inner.peeked)
                    && |rxBuffer.inner| < |old(rxBuffer.inner)|)
      ensures r.Ended? ==> !inner.waker
    {
      var c := rxBuffer.prefix;
      woken := false;
      var taken := rxBuffer.TakeNext();
      if taken.Some? {
        DeliverFirst(c, old(rxBuffer.inner), taken.value, rxBuffer.inner, inner.Items());
        if rxBuffer.HasNext() {
          woken := true;
        }
        return Ready(Payload(taken.value)), woken;
      }

      var item, pending := inner.PollNext();
      if pending {
        r := Pending;
      } else if item.None? {
        assert After(c, Leftover(c, rxBuffer.inner), []) == [];
        r := Ended;
      } else {
        NextItem(c, rxBuffer.inner, item.value, inner.Items());
        match item.value
        case Fault(e) =>
          r := Ready(Failure(e));
        case Chunk(bytes) =>
          var ready := inner.PollPeek();
          if ready {
            woken := true;
          }
          ghost var buffered := rxBuffer.inner + bytes;
          var next := rxBuffer.Process(bytes);
          if next.Some? {
            DeliverFirst(c, buffered, next.value, rxBuffer.inner, inner.Items());
            if !woken && rxBuffer.HasNext() {
              woken := true;
            }
            r := Ready(Payload(next.value));
          } else {
            r := Pending;
          }
      }
    }
  }

  lemma DeliverFirst(c: Prefix, before: seq<Byte>, payload: seq<Byte>, after: seq<Byte>, items: seq<Item>)
    requires c.Supported()
    requires Frames(c, before) == [payload] + Frames(c, after)
    requires Leftover(c, after) == Leftover(c, before)
    ensures Expected(c, before, items) == [Payload(payload)] + Expected(c, after, items)
  {
    assert Delivered(Frames(c, before)) == [Payload(payload)] + Delivered(Frames(c, after));
  }

  lemma NextItem(c: Prefix, buf: seq<Byte>, item: Item, items: seq<Item>)
    requires c.Supported() && Frames(c, buf) == []
    ensures item.Fault? ==> Expected(c, buf, [item] + items) == [Failure(item.code)] + Expected(c, buf, items)
    ensures item.Chunk? ==> Expected(c, buf, [item] + items) == Expected(c, buf + item.bytes, items)
  {
    assert ([item] + items)[1..] == items;
    assert Leftover(c, buf) == buf;
  }

  /**
   Drives the stream as an executor does: the reader is polled when it is new,
   after it produced an item, and otherwise only if a wake is due, one it
   scheduled itself or the inner stream's.  A reader nobody would wake stops here
   for good; that everything is delivered says that this never happens early.
   */
  method Drive(s: RxBufferStream) returns (outs: seq<Out>)
    requires s.Valid()
    modifies s.rxBuffer, s.inner
    ensures s.Valid() && outs == old(s.ToDeliver())
  {
    outs := [];
    var runnable := true;
    while runnable || s.inner.waker
      invariant s.Valid() && outs + s.ToDeliver() == old(s.ToDeliver())
      invariant !runnable && !s.inner.waker ==> s.ToDeliver() == []
      decreases if runnable || s.inner.waker then 1 else 0, |s.inner.turns|,
                if s.inner.peeked.Some? then 1 else 0, |s.rxBuffer.inner|
    {
      ghost var before := outs;
      var r, woken := s.PollNext();
      match r
      case Ready(out) =>
        AppendAssoc(before, [out], s.ToDeliver());
        outs := outs + [out];
        runnable := true;
      case Pending =>
        runnable := woken;
      case Ended =>
        runnable := false;
    }
  }

  /**
   End to end: whatever the chunking, the read errors and the schedule of the
   inner stream, the consumer receives the payloads sent, in order, and every
   read error.
   */
  method Receive(c: Prefix, payloads: seq<seq<Byte>>, turns: seq<Turn>) returns (outs: seq<Out>)
    requires c.Supported() && AllFit(c, payloads)
    requires BytesOf(ItemsOf(turns)) == Wire(c, payloads)
    ensures PayloadsIn(outs) == payloads
    ensures FailuresIn(outs) == FaultsOf(ItemsOf(turns))
  {
    RoundTrip(c, payloads, turns);
    FaultsPassThrough(c, [], ItemsOf(turns));
    var s := new RxBufferStream(c, turns);
    outs := Drive(s);
  }
}
