/**
 Length-prefixed framing between the supervisor and a VM endpoint
 (exe-unit/src/network.rs).  A writer puts the payload length in front of each
 payload; a poll-driven reader cuts arbitrary byte chunks back into payloads.
 */
module Framing {
  import opened Common

  /** Byte order of the prefix: network order, or the host's own order. */
  datatype Order = LittleEndian | BigEndian

  /** Width in bytes and byte order of the length prefix. */
  datatype Prefix = Prefix(size: nat, order: Order) {
    /** The sizes `read_prefix` and `write_prefix` accept; any other size panics. */
    predicate Supported() {
      size == 1 || size == 2 || size == 4 || size == 8 || size == 16
    }
  }

  /** The number of values of a 64-bit `usize`, to which a read prefix is cast. */
  const USIZE_VALUES: nat := 0x1_0000_0000_0000_0000

  // ------------------------------------------------------------------------
  // The prefix
  // ------------------------------------------------------------------------

  /** The number of values a prefix of `size` bytes can hold. */
  function Radix(size: nat): (r: nat)
    ensures r >= 1
  {
    if size == 0 then 1 else 256 * Radix(size - 1)
  }

  /** The low `size` bytes of `n`; higher bytes are cut off as by an integer cast. */
  function Encode(n: nat, size: nat, order: Order): (s: seq<Byte>)
    ensures |s| == size
    decreases size
  {
    if size == 0 then [] else
      var low: seq<Byte> := [n % 256];
      var high := Encode(n / 256, size - 1, order);
      if order.LittleEndian? then low + high else high + low
  }

  function Decode(s: seq<Byte>, order: Order): nat
    decreases |s|
  {
    if s == [] then 0
    else if order.LittleEndian? then s[0] + 256 * Decode(s[1..], order)
    else 256 * Decode(s[..|s| - 1], order) + s[|s| - 1]
  }

  lemma NonzeroMultiple(d: int, m: int)
    requires m >= 1 && d != 0
    ensures d * m >= m || d * m <= -m
  {
    if d >= 1 {
      var e: nat := d - 1;
      assert d * m == e * m + m;
    } else {
      var e: nat := -d - 1;
      assert d * m == -(e * m) - m;
    }
  }

  lemma ModIs(n: int, m: int, q: int, r: int)
    requires 0 <= r < m
    requires n == q * m + r
    ensures n % m == r
  {
    var d := n / m - q;
    assert d * m == r - n % m;
    if d != 0 {
      NonzeroMultiple(d, m);
    }
  }

  lemma ModOfLowByte(n: nat, r: nat)
    requires r >= 1
    ensures n % (256 * r) == 256 * (n / 256 % r) + n % 256
  {
    var q := n / 256;
    var rem := q % r;
    calc {
      n;
      256 * q + n % 256;
      256 * (q / r * r + rem) + n % 256;
      q / r * (256 * r) + (256 * rem + n % 256);
    }
    ModIs(n, 256 * r, q / r, 256 * rem + n % 256);
  }

  /** Reading a written prefix gives the number back modulo the prefix's range. */
  lemma {:induction false} DecodeEncode(n: nat, size: nat, order: Order)
    ensures Decode(Encode(n, size, order), order) == n % Radix(size)
    decreases size
  {
    if size > 0 {
      var s := Encode(n, size, order);
      var high := Encode(n / 256, size - 1, order);
      DecodeEncode(n / 256, size - 1, order);
      ModOfLowByte(n, Radix(size - 1));
      if order.LittleEndian? {
        assert s[1..] == high;
      } else {
        assert s[..size - 1] == high;
      }
    }
  }

  /** The byte of `n` that counts 256^k. */
  function Digit(n: nat, k: nat): nat {
    if k == 0 then n % 256 else Digit(n / 256, k - 1)
  }

  /** Big-endian prefixes start with the most significant byte, little-endian ones end with it. */
  lemma {:induction false} EncodeDigit(n: nat, size: nat, order: Order, i: nat)
    requires i < size
    ensures Encode(n, size, order)[i] == Digit(n, if order.BigEndian? then size - 1 - i else i)
    decreases size
  {
    if order.LittleEndian? {
      if i > 0 {
        EncodeDigit(n / 256, size - 1, order, i - 1);
      }
    } else if i < size - 1 {
      EncodeDigit(n / 256, size - 1, order, i);
    }
  }

  // ------------------------------------------------------------------------
  // What a byte sequence means
  // ------------------------------------------------------------------------

  /** A payload with its prefix, as `write_prefix` leaves it in the buffer. */
  function Frame(c: Prefix, payload: seq<Byte>): (s: seq<Byte>)
    ensures |s| == c.size + |payload|
  {
    Encode(|payload|, c.size, c.order) + payload
  }

  function Wire(c: Prefix, payloads: seq<seq<Byte>>): seq<Byte> {
    if payloads == [] then [] else Frame(c, payloads[0]) + Wire(c, payloads[1..])
  }

  /** The announced length, once the prefix has arrived. */
  function ReadPrefix(c: Prefix, buf: seq<Byte>): Option<nat> {
    if |buf| < c.size then None else Some(Decode(buf[..c.size], c.order) % USIZE_VALUES)
  }

  /** The length of the first payload, once all of its bytes have arrived. */
  function FirstLength(c: Prefix, buf: seq<Byte>): (n: Option<nat>)
    ensures n.Some? ==> c.size + n.value <= |buf|
  {
    match ReadPrefix(c, buf)
    case Some(n) => if |buf| >= c.size + n then Some(n) else None
    case None => None
  }

  /** The complete payloads in `buf`, in order. */
  function Frames(c: Prefix, buf: seq<Byte>): seq<seq<Byte>>
    requires c.Supported()
    decreases |buf|
  {
    match FirstLength(c, buf)
    case None => []
    case Some(n) => [buf[c.size..c.size + n]] + Frames(c, buf[c.size + n..])
  }

  /** The bytes of `buf` after its last complete payload. */
  function Leftover(c: Prefix, buf: seq<Byte>): seq<Byte>
    requires c.Supported()
    decreases |buf|
  {
    match FirstLength(c, buf)
    case None => buf
    case Some(n) => Leftover(c, buf[c.size + n..])
  }

  /** A complete first frame is untouched by what comes after it. */
  lemma FirstLengthAppend(c: Prefix, a: seq<Byte>, b: seq<Byte>)
    requires FirstLength(c, a).Some?
    ensures FirstLength(c, a + b) == FirstLength(c, a)
    ensures var k := c.size + FirstLength(c, a).value;
            (a + b)[c.size..k] == a[c.size..k] && (a + b)[k..] == a[k..] + b
  {
    assert (a + b)[..c.size] == a[..c.size];
  }

  /** More input never changes the payloads already complete; it only extends the leftover. */
  lemma {:induction false} FramesAppend(c: Prefix, a: seq<Byte>, b: seq<Byte>)
    requires c.Supported()
    ensures Frames(c, a + b) == Frames(c, a) + Frames(c, Leftover(c, a) + b)
    ensures Leftover(c, a + b) == Leftover(c, Leftover(c, a) + b)
    decreases |a|
  {
    match FirstLength(c, a)
    case None =>
    case Some(n) =>
      var rest := a[c.size + n..];
      FirstLengthAppend(c, a, b);
      FramesAppend(c, rest, b);
      AppendAssoc([a[c.size..c.size + n]], Frames(c, rest), Frames(c, Leftover(c, rest) + b));
  }

  lemma {:induction false} LeftoverIncomplete(c: Prefix, buf: seq<Byte>)
    requires c.Supported()
    ensures FirstLength(c, Leftover(c, buf)).None?
    decreases |buf|
  {
    match FirstLength(c, buf)
    case None =>
    case Some(n) => LeftoverIncomplete(c, buf[c.size + n..]);
  }

  /** The prefix can hold the payload's length. */
  predicate Fits(c: Prefix, payload: seq<Byte>) {
    |payload| < Radix(c.size) && |payload| < USIZE_VALUES
  }

  predicate AllFit(c: Prefix, payloads: seq<seq<Byte>>) {
    forall i :: 0 <= i < |payloads| ==> Fits(c, payloads[i])
  }

  /** The length the prefix of a payload tells the reader. */
  function Announced(c: Prefix, payload: seq<Byte>): nat {
    |payload| % Radix(c.size) % USIZE_VALUES
  }

  /** What the reader sees first: the payload cut to the announced length. */
  lemma FirstOfFrame(c: Prefix, payload: seq<Byte>, more: seq<Byte>)
    requires c.Supported()
    ensures var n := Announced(c, payload);
            n <= |payload| && FirstLength(c, Frame(c, payload) + more) == Some(n)
    ensures Fits(c, payload) <==> Announced(c, payload) == |payload|
  {
    DecodeEncode(|payload|, c.size, c.order);
    var buf := Frame(c, payload) + more;
    assert buf[..c.size] == Encode(|payload|, c.size, c.order);
    var m := |payload| % Radix(c.size);
    ModSmall(|payload|, Radix(c.size));
    ModSmall(m, USIZE_VALUES);
  }

  lemma ModSmall(n: nat, m: nat)
    requires m >= 1
    ensures n % m <= n
    ensures n % m == n <==> n < m
  {
    if n < m {
      ModIs(n, m, 0, n);
    }
  }

  /** A frame that fits comes back whole; one that does not comes back shortened. */
  lemma FrameThenMore(c: Prefix, payload: seq<Byte>, more: seq<Byte>)
    requires c.Supported()
    ensures var buf := Frame(c, payload) + more;
            && (Fits(c, payload) ==>
                  Frames(c, buf) == [payload] + Frames(c, more) && Leftover(c, buf) == Leftover(c, more))
            && (!Fits(c, payload) ==> Frames(c, buf) != [] && Frames(c, buf)[0] != payload)
  {
    var buf := Frame(c, payload) + more;
    var n := Announced(c, payload);
    FirstOfFrame(c, payload, more);
    if Fits(c, payload) {
      assert buf[c.size..c.size + n] == payload;
      assert buf[c.size + n..] == more;
    } else {
      assert |Frames(c, buf)[0]| == n;
    }
  }

  /**
   Round trip of a whole conversation: the reader recovers the payloads
   exactly when every payload's length fits the prefix.
   */
  lemma {:induction false} WireRoundTrip(c: Prefix, payloads: seq<seq<Byte>>)
    requires c.Supported()
    ensures Frames(c, Wire(c, payloads)) == payloads <==> AllFit(c, payloads)
    ensures AllFit(c, payloads) ==> Leftover(c, Wire(c, payloads)) == []
  {
    if payloads != [] {
      var p, rest := payloads[0], payloads[1..];
      FrameThenMore(c, p, Wire(c, rest));
      WireRoundTrip(c, rest);
      assert payloads == [p] + rest;
      assert AllFit(c, payloads) <==> Fits(c, p) && AllFit(c, rest);
    }
  }

  // ------------------------------------------------------------------------
  // The writer
  // ------------------------------------------------------------------------

  /** A message taken from the outgoing channel. */
  datatype Outgoing = Data(payload: seq<Byte>) | Broken

  /** What the socket does with one write: all of it, or an error after `n` bytes. */
  datatype WriteResult = Written | Failed(n: nat)

  /** The messages before `sent` are payloads the socket took whole. */
  predicate AllWritten(rx: seq<Outgoing>, socket: nat -> WriteResult, sent: nat)
    requires sent <= |rx|
  {
    forall i :: 0 <= i < sent ==> rx[i].Data? && socket(i).Written?
  }

  /** An interrupted write has not written the whole frame. */
  predicate Interrupts(c: Prefix, rx: seq<Outgoing>, socket: nat -> WriteResult) {
    forall i :: 0 <= i < |rx| && rx[i].Data? && socket(i).Failed? ==>
      socket(i).n < c.size + |rx[i].payload|
  }

  /** The part of message `k` that reached the wire although its write failed. */
  function Torn(c: Prefix, rx: seq<Outgoing>, socket: nat -> WriteResult, k: nat): seq<Byte>
    requires Interrupts(c, rx, socket)
  {
    if k < |rx| && rx[k].Data? && socket(k).Failed?
    then Frame(c, rx[k].payload)[..socket(k).n]
    else []
  }

  /**
   The loop of `async_write_future`: messages go out until the channel closes,
   carries an error, or a write fails, possibly in the middle of a frame.
   `sent` counts the frames written completely.
   */
  method WriteLoop(c: Prefix, rx: seq<Outgoing>, socket: nat -> WriteResult)
    returns (wire: seq<Byte>, sent: nat)
    requires Interrupts(c, rx, socket)
    ensures sent <= |rx| && AllWritten(rx, socket, sent)
    ensures sent < |rx| ==> rx[sent].Broken? || socket(sent).Failed?
    ensures wire == Wire(c, Payloads(rx[..sent])) + Torn(c, rx, socket, sent)
  {
    wire, sent := [], 0;
    while sent < |rx|
      invariant 0 <= sent <= |rx| && AllWritten(rx, socket, sent)
      invariant wire == Wire(c, Payloads(rx[..sent]))
    {
      match rx[sent]
      case Broken => return;
      case Data(payload) =>
        var frame := Frame(c, payload);
        if socket(sent).Failed? {
          wire := wire + frame[..socket(sent).n];
          return;
        }
        PayloadsSnoc(rx, sent);
        WireSnoc(c, Payloads(rx[..sent]), payload);
        wire := wire + frame;
        sent := sent + 1;
    }
  }

  /** Written frames in front of anything: all of them come back, or not even as a beginning. */
  lemma {:induction false} WireThenMore(c: Prefix, payloads: seq<seq<Byte>>, more: seq<Byte>)
    requires c.Supported()
    ensures AllFit(c, payloads) ==> Frames(c, Wire(c, payloads) + more) == payloads + Frames(c, more)
    ensures !AllFit(c, payloads) ==> !(payloads <= Frames(c, Wire(c, payloads) + more))
  {
    if payloads == [] {
      Alone(more);
      Alone(Frames(c, more));
    } else {
      var p, rest := payloads[0], payloads[1..];
      WireThenMore(c, rest, more);
      AppendAssoc(Frame(c, p), Wire(c, rest), more);
      FrameThenMore(c, p, Wire(c, rest) + more);
      AppendAssoc([p], rest, Frames(c, more));
      assert payloads == [p] + rest;
      assert AllFit(c, payloads) <==> Fits(c, p) && AllFit(c, rest);
    }
  }

  /** A failed write stops short of what the prefix it wrote announces. */
  predicate TornShort(c: Prefix, rx: seq<Outgoing>, socket: nat -> WriteResult, k: nat) {
    k < |rx| && rx[k].Data? && socket(k).Failed? ==> socket(k).n < c.size + Announced(c, rx[k].payload)
  }

  /**
   However the writer stops, the reader recovers exactly the payloads that were
   written whole, if and only if these fit their prefixes and the torn frame, if
   any, stops short of the length it announces.
   */
  lemma WriterMeetsReader(c: Prefix, rx: seq<Outgoing>, socket: nat -> WriteResult, sent: nat)
    requires c.Supported() && Interrupts(c, rx, socket)
    requires sent <= |rx| && AllWritten(rx, socket, sent)
    ensures Frames(c, Wire(c, Payloads(rx[..sent])) + Torn(c, rx, socket, sent)) == Payloads(rx[..sent]) <==>
            AllFit(c, Payloads(rx[..sent])) && TornShort(c, rx, socket, sent)
  {
    var torn := Torn(c, rx, socket, sent);
    WireThenMore(c, Payloads(rx[..sent]), torn);
    if sent < |rx| && rx[sent].Data? && socket(sent).Failed? {
      TornFrame(c, rx[sent].payload, socket(sent).n);
    }
    assert Frames(c, []) == [];
  }

  /** A payload that fits announces its own length, so its torn frame always stops short. */
  lemma FittingIsTornShort(c: Prefix, rx: seq<Outgoing>, socket: nat -> WriteResult, k: nat)
    requires c.Supported() && Interrupts(c, rx, socket)
    requires k < |rx| && rx[k].Data? ==> Fits(c, rx[k].payload)
    ensures TornShort(c, rx, socket, k)
  {
    if k < |rx| && rx[k].Data? {
      FirstOfFrame(c, rx[k].payload, []);
    }
  }

  /** The payloads of a run of data messages. */
  function Payloads(msgs: seq<Outgoing>): (r: seq<seq<Byte>>)
    requires forall i :: 0 <= i < |msgs| ==> msgs[i].Data?
    ensures |r| == |msgs|
  {
    seq(|msgs|, i requires 0 <= i < |msgs| => msgs[i].payload)
  }

  lemma PayloadsSnoc(rx: seq<Outgoing>, k: nat)
    requires k < |rx|
    requires forall i :: 0 <= i <= k ==> rx[i].Data?
    ensures Payloads(rx[..k + 1]) == Payloads(rx[..k]) + [rx[k].payload]
  {
  }

  lemma {:induction false} WireSnoc(c: Prefix, payloads: seq<seq<Byte>>, last: seq<Byte>)
    ensures Wire(c, payloads + [last]) == Wire(c, payloads) + Frame(c, last)
  {
    if payloads == [] {
      assert Wire(c, [last]) == Frame(c, last) + Wire(c, []);
    } else {
      WireSnoc(c, payloads[1..], last);
      assert (payloads + [last])[1..] == payloads[1..] + [last];
    }
  }

  /** A frame cut short adds a payload exactly when it reaches the length it announces. */
  lemma TornFrame(c: Prefix, payload: seq<Byte>, n: nat)
    requires c.Supported() && n < c.size + |payload|
    ensures Frames(c, Frame(c, payload)[..n]) == [] <==> n < c.size + Announced(c, payload)
  {
    var torn := Frame(c, payload)[..n];
    if c.size <= n {
      FirstOfFrame(c, payload, []);
      Alone(Frame(c, payload));
      assert torn[..c.size] == Frame(c, payload)[..c.size];
    }
  }
}
