/**
 The event log of a batch and what is read from it (exe-unit/src/state.rs):
 per-command results, the running command, the live output stream and the
 supervisor's progress report.
 */
module BatchLog {
  import opened Common
  import opened Output

  /** Capture settings of a Run command. */
  datatype Capture = Capture(stdout: Option<Mode>, stderr: Option<Mode>)

  datatype Command = Sign | Deploy | Start | Run(capture: Option<Capture>) | Transfer | Terminate

  datatype CommandResult = Ok | Error

  datatype CommandState = CommandState(
    result: Option<CommandResult>, stdout: Captured, stderr: Captured, message: Option<string>)
  {
    function Channel(ch: Channel): Captured {
      if ch.StdOut? then stdout else stderr
    }

    function With(ch: Channel, c: Captured): CommandState {
      if ch.StdOut? then this.(stdout := c) else this.(stderr := c)
    }
  }

  datatype Channel = StdOut | StdErr

  datatype EventKind =
    | Started
    | Finished(code: int, message: Option<string>)
    | Wrote(channel: Channel, bytes: seq<Byte>)
    | Progress

  datatype Event = Event(index: nat, kind: EventKind)

  /** What a subscriber of the batch sees. */
  datatype StreamEvent = Passed(event: Event) | Chunk(index: nat, channel: Channel, out: CommandOutput)

  // ------------------------------------------------------------------------
  // Replaying events
  // ------------------------------------------------------------------------

  function FreshState(cmd: Command): CommandState {
    match cmd
    case Run(None) => CommandState(None, CaptureNothing(), CaptureNothing(), None)
    case Run(Some(c)) => CommandState(None, FromMode(c.stdout), FromMode(c.stderr), None)
    case _ => CommandState(None, CaptureAll(), CaptureAll(), None)
  }

  /** The results once there is a state for command `idx`. */
  function Reach(script: seq<Command>, results: seq<CommandState>, idx: nat): (r: seq<CommandState>)
    requires idx < |script|
    ensures |r| == if idx < |results| then |results| else idx + 1
    ensures forall i :: 0 <= i < |r| ==> r[i] == if i < |results| then results[i] else FreshState(script[i])
  {
    if idx < |results| then results
    else
      results +
      seq(idx + 1 - |results|, i requires 0 <= i < idx + 1 - |results| => FreshState(script[|results| + i]))
  }

  /** The results after one event; an event for an unknown command changes nothing. */
  function Apply(script: seq<Command>, results: seq<CommandState>, e: Event): seq<CommandState> {
    if e.kind.Progress? || e.index >= |script| then results
    else
      var r := Reach(script, results, e.index);
      var s := r[e.index];
      match e.kind
      case Finished(code, message) =>
        r[e.index := s.(result := Some(if code == 0 then Ok else Error), message := message)]
      case Wrote(ch, bytes) =>
        r[e.index := s.With(ch, s.Channel(ch).Wrote(bytes))]
      case _ => r
  }

  /** What the event sends to a subscriber. */
  function Emits(script: seq<Command>, results: seq<CommandState>, e: Event): Option<StreamEvent> {
    match e.kind
    case Progress => Some(Passed(e))
    case Wrote(ch, bytes) =>
      if e.index >= |script| then None
      else
        var captured := Reach(script, results, e.index)[e.index].Channel(ch);
        var out := captured.Reported(bytes);
        if out.Some? && captured.stream then Some(Chunk(e.index, ch, out.value)) else None
    case _ => if e.index >= |script| then None else Some(Passed(e))
  }

  function Replay(script: seq<Command>, events: seq<Event>): seq<CommandState> {
    if events == [] then []
    else Apply(script, Replay(script, events[..|events| - 1]), events[|events| - 1])
  }

  lemma ReplaySnoc(script: seq<Command>, events: seq<Event>, e: Event)
    ensures Replay(script, events + [e]) == Apply(script, Replay(script, events), e)
  {
    assert (events + [e])[..|events + [e]| - 1] == events;
  }

  function Emissions(script: seq<Command>, events: seq<Event>): seq<StreamEvent> {
    if events == [] then []
    else
      var before := events[..|events| - 1];
      var out := Emits(script, Replay(script, before), events[|events| - 1]);
      if out.Some? then Emissions(script, before) + [out.value] else Emissions(script, before)
  }

  lemma EmissionsSnoc(script: seq<Command>, events: seq<Event>, e: Event)
    ensures var out := Emits(script, Replay(script, events), e);
            Emissions(script, events + [e]) == Emissions(script, events) + if out.Some? then [out.value] else []
  {
    assert (events + [e])[..|events + [e]| - 1] == events;
  }

  /** The number of commands finished without a gap. */
  function Done(results: seq<CommandState>): (n: nat)
    ensures n <= |results|
    ensures forall i :: 0 <= i < n ==> results[i].result.Some?
    ensures n < |results| ==> results[n].result.None?
  {
    if results == [] || results[0].result.None? then 0 else 1 + Done(results[1..])
  }

  /** The first command without a result. */
  function RunningIndex(results: seq<CommandState>): Option<nat> {
    var n := Done(results);
    if n < |results| then Some(n) else None
  }

  datatype Batch = Batch(script: seq<Command>, results: seq<CommandState>)

  class LiveBatch {
    const script: seq<Command>
    var results: seq<CommandState>
    /** Whether someone has asked for the live stream. */
    var subscribed: bool
    var sent: seq<StreamEvent>
    /** Everything handled so far. */
    ghost var log: seq<Event>

    ghost predicate Valid()
      reads this
    {
      results == Replay(script, log)
    }

    constructor (script: seq<Command>)
      ensures Valid() && this.script == script && log == [] && !subscribed && sent == []
    {
      this.script := script;
      results, subscribed, sent, log := [], false, [], [];
    }

    method Subscribe()
      modifies `subscribed
      ensures subscribed
    {
      subscribed := true;
    }

    /** Makes sure the command has a state; fails for an index outside the script. */
    method State(idx: nat) returns (ok: bool)
      modifies `results
      ensures ok <==> idx < |script|
      ensures results == if ok then Reach(script, old(results), idx) else old(results)
    {
      var available := |results|;
      if idx >= |script| {
        return false;
      }
      ghost var before := results;
      if idx >= available {
        for i := available to idx + 1
          invariant |results| == i
          invariant forall k :: 0 <= k < i ==> results[k] == if k < available then before[k] else FreshState(script[k])
        {
          results := results + [FreshState(script[i])];
        }
        assert results == Reach(script, before, idx);
      }
      ok := true;
    }

    method OnFinished(idx: nat, code: int, message: Option<string>) returns (ok: bool)
      modifies `results
      ensures ok <==> idx < |script|
      ensures results == Apply(script, old(results), Event(idx, Finished(code, message)))
    {
      ok := State(idx);
      if ok {
        var s := results[idx].(message := message, result := Some(if code == 0 then Ok else Error));
        results := results[idx := s];
      }
    }

    /** Captures the bytes and returns the chunk for the stream, if the channel is streamed. */
    method OnWrote(idx: nat, ch: Channel, bytes: seq<Byte>) returns (ok: bool, out: Option<StreamEvent>)
      modifies `results
      ensures ok <==> idx < |script|
      ensures results == Apply(script, old(results), Event(idx, Wrote(ch, bytes)))
      ensures out == Emits(script, old(results), Event(idx, Wrote(ch, bytes)))
    {
      out := None;
      ok := State(idx);
      if ok {
        var captured := results[idx].Channel(ch);
        var reported := captured.Reported(bytes);
        results := results[idx := results[idx].With(ch, captured.Wrote(bytes))];
        if reported.Some? && captured.stream {
          out := Some(Chunk(idx, ch, reported.value));
        }
      }
    }

    /** Updates the results and says what a subscriber should be sent. */
    method Absorb(e: Event) returns (ok: bool, out: Option<StreamEvent>)
      modifies `results
      ensures results == Apply(script, old(results), e)
      ensures ok <==> e.kind.Progress? || e.index < |script|
      ensures ok ==> out == Emits(script, old(results), e)
      ensures !ok ==> Emits(script, old(results), e).None?
    {
      ok, out := true, Some(Passed(e));
      match e.kind
      case Started => ok := State(e.index);
      case Finished(code, message) => ok := OnFinished(e.index, code, message);
      case Wrote(ch, bytes) => ok, out := OnWrote(e.index, ch, bytes);
      case Progress =>
    }

    /** `received` is whether the broadcast channel still has a receiver; sending to none is an error. */
    method HandleEvent(e: Event, received: bool) returns (ok: bool)
      requires Valid()
      modifies `results, `sent, `log
      ensures Valid() && log == old(log) + [e]
      ensures var out := Emits(script, old(results), e);
              && sent == old(sent) + (if out.Some? && subscribed && received then [out.value] else [])
              && (ok <==> (e.kind.Progress? || e.index < |script|) && (out.None? || !subscribed || received))
    {
      ReplaySnoc(script, log, e);
      var out;
      ok, out := Absorb(e);
      log := log + [e];
      if ok && out.Some? && subscribed {
        ok := received;
        if received {
          sent := sent + [out.value];
        }
      }
    }
  }

  // ------------------------------------------------------------------------
  // Results only grow
  // ------------------------------------------------------------------------

  /** `b` has at least the states of `a`, and everything finished in `a` is finished in `b`. */
  predicate Grows(a: seq<CommandState>, b: seq<CommandState>) {
    |a| <= |b| && forall i :: 0 <= i < |a| && a[i].result.Some? ==> b[i].result.Some?
  }

  lemma ApplyGrows(script: seq<Command>, results: seq<CommandState>, e: Event)
    requires |results| <= |script|
    ensures Grows(results, Apply(script, results, e)) && |Apply(script, results, e)| <= |script|
  {
  }

  /** Over any events, whatever their indices, from any point of the log to any later one. */
  lemma {:induction false} ReplayGrows(script: seq<Command>, events: seq<Event>, k: nat)
    requires k <= |events|
    ensures var early, late := Replay(script, events[..k]), Replay(script, events);
            Grows(early, late) && |late| <= |script| && Done(early) <= Done(late) <= |script|
    decreases |events|
  {
    if events != [] {
      var before := events[..|events| - 1];
      var j := if k == |events| then k - 1 else k;
      ReplayGrows(script, before, j);
      ApplyGrows(script, Replay(script, before), events[|events| - 1]);
      assert before[..j] == events[..j];
    }
    assert events[..|events|] == events;
  }

  // ------------------------------------------------------------------------
  // Captured output and the live stream
  // ------------------------------------------------------------------------

  /** The bytes an event writes to one channel of one command. */
  function WriteTo(e: Event, idx: nat, ch: Channel): Option<seq<Byte>> {
    if e.index == idx && e.kind.Wrote? && e.kind.channel == ch then Some(e.kind.bytes) else None
  }

  /** The writes to one channel of one command. */
  function WritesTo(events: seq<Event>, idx: nat, ch: Channel): seq<seq<Byte>> {
    if events == [] then []
    else
      var before, w := events[..|events| - 1], WriteTo(events[|events| - 1], idx, ch);
      if w.Some? then WritesTo(before, idx, ch) + [w.value] else WritesTo(before, idx, ch)
  }

  /** The bytes a stream event carries for one channel of one command. */
  function ChunkTo(out: Option<StreamEvent>, idx: nat, ch: Channel): seq<Byte> {
    if out.Some? && out.value.Chunk? && out.value.index == idx && out.value.channel == ch
    then out.value.out.bytes else []
  }

  /** The chunks sent for one channel of one command, one after another. */
  function StreamedTo(sent: seq<StreamEvent>, idx: nat, ch: Channel): seq<Byte> {
    if sent == [] then []
    else StreamedTo(sent[..|sent| - 1], idx, ch) + ChunkTo(Some(sent[|sent| - 1]), idx, ch)
  }

  /** The captured channel of a command, whether or not it has a state yet. */
  function ChannelOf(script: seq<Command>, results: seq<CommandState>, idx: nat, ch: Channel): Captured
    requires idx < |script|
  {
    if idx < |results| then results[idx].Channel(ch) else FreshState(script[idx]).Channel(ch)
  }

  /** An event changes the captures it writes to and no other. */
  lemma ApplyToChannel(script: seq<Command>, results: seq<CommandState>, e: Event, idx: nat, ch: Channel)
    requires idx < |script|
    ensures var w, was := WriteTo(e, idx, ch), ChannelOf(script, results, idx, ch);
            ChannelOf(script, Apply(script, results, e), idx, ch) == if w.Some? then was.Wrote(w.value) else was
  {
  }

  /** Interleaved events of other commands and channels do not mix into a capture. */
  lemma {:induction false} CaptureTracksWrites(script: seq<Command>, events: seq<Event>, idx: nat, ch: Channel)
    requires idx < |script|
    ensures ChannelOf(script, Replay(script, events), idx, ch)
            == FreshState(script[idx]).Channel(ch).Wrote(Concat(WritesTo(events, idx, ch)))
    decreases |events|
  {
    var initial := FreshState(script[idx]).Channel(ch);
    if events == [] {
      assert initial.written + [] == initial.written;
    } else {
      var before, e := events[..|events| - 1], events[|events| - 1];
      CaptureTracksWrites(script, before, idx, ch);
      ApplyToChannel(script, Replay(script, before), e, idx, ch);
      var w := WriteTo(e, idx, ch);
      if w.Some? {
        ConcatSnoc(WritesTo(before, idx, ch), w.value);
        AppendAssoc(initial.written, Concat(WritesTo(before, idx, ch)), w.value);
      }
    }
  }

  /** What one event sends for a channel: the reported part of its own write, if the channel is streamed. */
  lemma EmitsChunk(script: seq<Command>, results: seq<CommandState>, e: Event, idx: nat, ch: Channel)
    requires idx < |script|
    ensures var w, c := WriteTo(e, idx, ch), ChannelOf(script, results, idx, ch);
            ChunkTo(Emits(script, results, e), idx, ch) ==
            if w.Some? && c.stream && c.Reported(w.value).Some? then c.Reported(w.value).value.bytes else []
  {
  }

  /** The stream grows by what the last event sends. */
  lemma StreamedSnoc(script: seq<Command>, events: seq<Event>, idx: nat, ch: Channel)
    requires events != []
    ensures var before, e := events[..|events| - 1], events[|events| - 1];
            StreamedTo(Emissions(script, events), idx, ch) ==
            StreamedTo(Emissions(script, before), idx, ch) + ChunkTo(Emits(script, Replay(script, before), e), idx, ch)
  {
    var before, e := events[..|events| - 1], events[|events| - 1];
    var out, sent := Emits(script, Replay(script, before), e), Emissions(script, events);
    if out.Some? {
      assert sent[..|sent| - 1] == Emissions(script, before);
    }
  }

  /** The stream carries exactly the chunks the capture reports. */
  lemma {:induction false} StreamTracksWrites(script: seq<Command>, events: seq<Event>, idx: nat, ch: Channel)
    requires idx < |script| && FreshState(script[idx]).Channel(ch).stream
    ensures StreamedTo(Emissions(script, events), idx, ch)
            == ReportedBytes(FreshState(script[idx]).Channel(ch), WritesTo(events, idx, ch))
    decreases |events|
  {
    if events != [] {
      var before, e := events[..|events| - 1], events[|events| - 1];
      StreamTracksWrites(script, before, idx, ch);
      CaptureTracksWrites(script, before, idx, ch);
      StreamedSnoc(script, events, idx, ch);
      EmitsChunk(script, Replay(script, before), e, idx, ch);
      var w := WriteTo(e, idx, ch);
      if w.Some? {
        ReportedSnoc(FreshState(script[idx]).Channel(ch), WritesTo(before, idx, ch), w.value);
      }
    }
  }

  /** The bytes one write reports. */
  function ReportedBy(c: Captured, bytes: seq<Byte>): seq<Byte> {
    if c.Reported(bytes).Some? then c.Reported(bytes).value.bytes else []
  }

  lemma {:induction false} ReportedSnoc(c: Captured, writes: seq<seq<Byte>>, last: seq<Byte>)
    ensures ReportedBytes(c, writes + [last]) == ReportedBytes(c, writes) + ReportedBy(c.Wrote(Concat(writes)), last)
    decreases |writes|
  {
    if writes == [] {
      assert c.Wrote([]) == c by {
        Alone(c.written);
      }
      assert [] + [last] == [last];
      Alone(ReportedBy(c, last));
    } else {
      var first, rest := writes[0], writes[1..];
      var next := c.Wrote(first);
      ReportedSnoc(next, rest, last);
      assert (writes + [last])[1..] == rest + [last];
      AppendAssoc(c.written, first, Concat(rest));
      assert next.Wrote(Concat(rest)) == c.Wrote(Concat(writes));
      AppendAssoc(ReportedBy(c, first), ReportedBytes(next, rest), ReportedBy(c.Wrote(Concat(writes)), last));
    }
  }

  /** What a requestor is promised of a command's output on one channel. */
  function Promised(cmd: Command, ch: Channel, written: seq<Byte>): seq<Byte> {
    match cmd
    case Run(None) => []
    case Run(Some(c)) => Promise(if ch.StdOut? then c.stdout else c.stderr, written)
    case _ => written
  }

  /** How the requestor asked for a channel of a Run command. */
  function ModeOf(c: Capture, ch: Channel): Option<Mode> {
    if ch.StdOut? then c.stdout else c.stderr
  }

  /** Whether a channel is sent on as it is written: of a Run command if that was asked for, of any other always. */
  predicate Streams(cmd: Command, ch: Channel) {
    cmd.Run? ==> cmd.capture.Some? && ModeOf(cmd.capture.value, ch).Some? && ModeOf(cmd.capture.value, ch).value.Stream?
  }

  /** The format of a command's output on one channel. */
  function PromisedFormat(cmd: Command, ch: Channel): Format {
    if cmd.Run? && cmd.capture.Some? then AskedFormat(ModeOf(cmd.capture.value, ch)) else Str
  }

  /** A command's captures are set up as it asks. */
  lemma FreshAsAsked(cmd: Command, ch: Channel)
    ensures FreshState(cmd).Channel(ch).stream <==> Streams(cmd, ch)
    ensures FreshState(cmd).Channel(ch).format == PromisedFormat(cmd, ch)
  {
  }

  /** Under any interleaving, what is stored is what was promised of the bytes written to that channel. */
  lemma StoredAsPromised(script: seq<Command>, events: seq<Event>, idx: nat, ch: Channel)
    requires idx < |script|
    ensures ChannelOf(script, Replay(script, events), idx, ch).Bytes()
            == Promised(script[idx], ch, Concat(WritesTo(events, idx, ch)))
  {
    var written := Concat(WritesTo(events, idx, ch));
    CaptureTracksWrites(script, events, idx, ch);
    Alone(written);
    match script[idx]
    case Run(Some(c)) => CaptureContract(if ch.StdOut? then c.stdout else c.stderr, written);
    case _ =>
  }

  /**
   A subscriber present from the start receives, for every streaming command and
   channel and under any interleaving, exactly the bytes that are stored: all
   that was written, or its first `limit` bytes.
   */
  lemma StreamEqualsStored(script: seq<Command>, events: seq<Event>, idx: nat, ch: Channel)
    requires idx < |script| && Streams(script[idx], ch)
    ensures StreamedTo(Emissions(script, events), idx, ch)
            == Promised(script[idx], ch, Concat(WritesTo(events, idx, ch)))
            == ChannelOf(script, Replay(script, events), idx, ch).Bytes()
  {
    FreshAsAsked(script[idx], ch);
    StoredAsPromised(script, events, idx, ch);
    StreamingCapture(script[idx], ch);
    StreamTracksWrites(script, events, idx, ch);
    CaptureTracksWrites(script, events, idx, ch);
    AllReported(FreshState(script[idx]).Channel(ch), WritesTo(events, idx, ch));
  }

  /** From its start, a capture without a tail reports all that it stores. */
  lemma AllReported(c: Captured, writes: seq<seq<Byte>>)
    requires c.written == [] && c.tail.Discard? && !c.head.Ring? && c.head.Kept([]) == []
    ensures ReportedBytes(c, writes) == c.Wrote(Concat(writes)).Bytes()
  {
    ReportsAddUp(c, writes);
    Alone(ReportedBytes(c, writes));
    Alone(c.head.Kept(Concat(writes)));
    Alone(Concat(writes));
  }

  /**
   A batch watched from its first event: the subscriber is sent everything the
   events emit, and with it the stored output of every streaming channel.
   */
  method Watch(script: seq<Command>, events: seq<Event>) returns (sent: seq<StreamEvent>, results: seq<CommandState>)
    ensures sent == Emissions(script, events) && results == Replay(script, events)
    ensures forall idx, ch :: 0 <= idx < |script| && Streams(script[idx], ch) ==>
              StreamedTo(sent, idx, ch) == ChannelOf(script, results, idx, ch).Bytes()
  {
    var batch := new LiveBatch(script);
    batch.Subscribe();
    for i := 0 to |events|
      invariant batch.Valid() && batch.subscribed && batch.log == events[..i]
      invariant batch.sent == Emissions(script, batch.log)
    {
      assert events[..i + 1] == events[..i] + [events[i]];
      EmissionsSnoc(script, batch.log, events[i]);
      var ok := batch.HandleEvent(events[i], true);
    }
    sent, results := batch.sent, batch.results;
    assert events[..|events|] == events;
    forall idx, ch | 0 <= idx < |script| && Streams(script[idx], ch)
      ensures StreamedTo(sent, idx, ch) == ChannelOf(script, results, idx, ch).Bytes()
    {
      StreamEqualsStored(script, events, idx, ch);
    }
  }

  /** The events that are passed on as they are: progress, and starts and ends of the script's commands. */
  function PassedOn(script: seq<Command>, events: seq<Event>): seq<Event> {
    if events == [] then []
    else
      var e := events[|events| - 1];
      PassedOn(script, events[..|events| - 1]) +
      if e.kind.Progress? || (!e.kind.Wrote? && e.index < |script|) then [e] else []
  }

  /** The events among what a subscriber sees. */
  function EventsIn(sent: seq<StreamEvent>): seq<Event> {
    if sent == [] then []
    else
      var out := sent[|sent| - 1];
      EventsIn(sent[..|sent| - 1]) + if out.Passed? then [out.event] else []
  }

  lemma EventsInSnoc(sent: seq<StreamEvent>, out: StreamEvent)
    ensures EventsIn(sent + [out]) == EventsIn(sent) + if out.Passed? then [out.event] else []
  {
    assert (sent + [out])[..|sent|] == sent;
  }

  /** A subscriber sees all of them, once and in order. */
  lemma {:induction false} EventsPassThrough(script: seq<Command>, events: seq<Event>)
    ensures EventsIn(Emissions(script, events)) == PassedOn(script, events)
  {
    if events != [] {
      var before, e := events[..|events| - 1], events[|events| - 1];
      var out := Emits(script, Replay(script, before), e);
      EventsPassThrough(script, before);
      if out.Some? {
        EventsInSnoc(Emissions(script, before), out.value);
      }
    }
  }

  /** Every chunk a subscriber sees is in the format asked for. */
  lemma {:induction false} ChunksAsAsked(script: seq<Command>, events: seq<Event>, i: nat)
    requires i < |Emissions(script, events)| && Emissions(script, events)[i].Chunk?
    ensures var chunk := Emissions(script, events)[i];
            && chunk.index < |script| && Streams(script[chunk.index], chunk.channel)
            && chunk.out.format == PromisedFormat(script[chunk.index], chunk.channel)
    decreases |events|
  {
    var before, e := events[..|events| - 1], events[|events| - 1];
    if i < |Emissions(script, before)| {
      ChunksAsAsked(script, before, i);
    } else {
      CaptureTracksWrites(script, before, e.index, e.kind.channel);
      FreshAsAsked(script[e.index], e.kind.channel);
    }
  }

  /** Channels of commands that do not ask to stream send nothing. */
  lemma {:induction false} OthersStreamNothing(script: seq<Command>, events: seq<Event>, idx: nat, ch: Channel)
    requires idx < |script| && !Streams(script[idx], ch)
    ensures StreamedTo(Emissions(script, events), idx, ch) == []
    decreases |events|
  {
    if events != [] {
      var before, e := events[..|events| - 1], events[|events| - 1];
      OthersStreamNothing(script, before, idx, ch);
      FreshAsAsked(script[idx], ch);
      CaptureTracksWrites(script, before, idx, ch);
      StreamedSnoc(script, events, idx, ch);
      EmitsChunk(script, Replay(script, before), e, idx, ch);
    }
  }

  /** A streamed channel has a plain or capped head and no tail. */
  lemma StreamingCapture(cmd: Command, ch: Channel)
    requires FreshState(cmd).Channel(ch).stream
    ensures var c := FreshState(cmd).Channel(ch);
            c.tail.Discard? && !c.head.Ring? && c.written == [] && c.head.Kept([]) == []
  {
  }

  // ------------------------------------------------------------------------
  // Reading a batch
  // ------------------------------------------------------------------------

  datatype CommandReport = CommandReport(
    index: nat, result: CommandResult, stdout: Option<CommandOutput>, stderr: Option<CommandOutput>,
    message: Option<string>, isBatchFinished: bool)

  /** The command without a result that a requestor is told about. */
  function RunningCommand(b: Batch): Option<Command> {
    var i := RunningIndex(b.results);
    if i.Some? && i.value < |b.script| then Some(b.script[i.value]) else None
  }

  /** The leading finished commands, up to `cmdIdx`; only that one, or all of them, with output. */
  function Results(b: Batch, cmdIdx: Option<nat>): (r: seq<CommandReport>)
    requires cmdIdx.None? ==> b.script != []
    ensures |r| <= Done(b.results)
  {
    var lastIdx := if cmdIdx.Some? then cmdIdx.value else |b.script| - 1;
    var n := if Done(b.results) <= lastIdx + 1 then Done(b.results) else lastIdx + 1;
    seq(n, i requires 0 <= i < n =>
      var s := b.results[i];
      var output := cmdIdx.None? || cmdIdx.value == i;
      CommandReport(i, s.result.value,
                    if output then s.stdout.Output() else None,
                    if output then s.stderr.Output() else None,
                    s.message,
                    i == lastIdx || s.result.value.Error?))
  }

  /**
   Asking for one command gives the same results up to it, with the output of
   that command only; its own result always says that the batch is finished.
   */
  lemma ResultsUpTo(b: Batch, k: nat)
    requires |b.results| <= |b.script| && b.script != []
    ensures var upTo, all := Results(b, Some(k)), Results(b, None);
            && |all| == Done(b.results) && |upTo| == (if |all| <= k then |all| else k + 1)
            && forall i :: 0 <= i < |upTo| ==>
                 && (upTo[i].index, upTo[i].result, upTo[i].message) == (all[i].index, all[i].result, all[i].message)
                 && upTo[i].stdout == (if i == k then all[i].stdout else None)
                 && upTo[i].stderr == (if i == k then all[i].stderr else None)
                 && (upTo[i].isBatchFinished <==> i == k || all[i].result.Error?)
                 && (all[i].isBatchFinished <==> i == |b.script| - 1 || all[i].result.Error?)
  {
  }

  // ------------------------------------------------------------------------
  // The progress report over all batches
  // ------------------------------------------------------------------------

  datatype Report = Report(batchesDone: nat, batchesPending: nat, cmdsDone: nat, cmdsPending: nat)

  ghost function DonePer(batches: map<string, Batch>): map<string, int> {
    map id | id in batches :: Done(batches[id].results)
  }

  ghost function TotalPer(batches: map<string, Batch>): map<string, int> {
    map id | id in batches :: |batches[id].script|
  }

  /** The batches whose every command has finished. */
  ghost function Complete(batches: map<string, Batch>): set<string> {
    set id | id in batches && Done(batches[id].results) == |batches[id].script|
  }

  /** Every batch and every command is counted once, and no subtraction underflows. */
  method MakeReport(batches: map<string, Batch>) returns (r: Report)
    requires forall id :: id in batches ==> |batches[id].results| <= |batches[id].script|
    ensures r.batchesDone == |Complete(batches)|
    ensures r.batchesDone + r.batchesPending == |batches|
    ensures r.cmdsDone == Sum(DonePer(batches))
    ensures r.cmdsDone + r.cmdsPending == Sum(TotalPer(batches))
  {
    r := Report(0, 0, 0, 0);
    var left := batches;
    while left != map[]
      invariant forall id :: id in left ==> id in batches && left[id] == batches[id]
      invariant r.batchesDone + |Complete(left)| == |Complete(batches)|
      invariant r.batchesDone + r.batchesPending + |left| == |batches|
      invariant r.cmdsDone + Sum(DonePer(left)) == Sum(DonePer(batches))
      invariant r.cmdsDone + r.cmdsPending + Sum(TotalPer(left)) == Sum(TotalPer(batches))
      decreases |left|
    {
      var id :| id in left;
      var batch := left[id];
      var total, done := |batch.script|, Done(batch.results);
      RemoveBatch(left, id);
      r := if done == total then r.(batchesDone := r.batchesDone + 1) else r.(batchesPending := r.batchesPending + 1);
      r := r.(cmdsDone := r.cmdsDone + done, cmdsPending := r.cmdsPending + (total - done));
      left := left - {id};
    }
  }

  /** A script with the events handled for it. */
  datatype Log = Log(script: seq<Command>, events: seq<Event>)

  function Replayed(logs: map<string, Log>): map<string, Batch> {
    map id | id in logs :: Batch(logs[id].script, Replay(logs[id].script, logs[id].events))
  }

  /** The report over batches that have handled any events, also with indices out of range. */
  method ReportAnyEvents(logs: map<string, Log>) returns (r: Report)
    ensures r.batchesDone == |Complete(Replayed(logs))|
    ensures r.batchesDone + r.batchesPending == |logs|
    ensures r.cmdsDone == Sum(DonePer(Replayed(logs)))
    ensures r.cmdsDone + r.cmdsPending == Sum(TotalPer(Replayed(logs)))
  {
    var batches := Replayed(logs);
    forall id | id in batches
      ensures |batches[id].results| <= |batches[id].script|
    {
      ReplayGrows(logs[id].script, logs[id].events, 0);
    }
    assert batches.Keys == logs.Keys;
    r := MakeReport(batches);
  }

  lemma RemoveBatch(batches: map<string, Batch>, id: string)
    requires id in batches
    ensures var rest, b := batches - {id}, batches[id];
            && |rest| == |batches| - 1
            && |Complete(batches)| == |Complete(rest)| + (if Done(b.results) == |b.script| then 1 else 0)
            && Sum(DonePer(batches)) == Sum(DonePer(rest)) + Done(b.results)
            && Sum(TotalPer(batches)) == Sum(TotalPer(rest)) + |b.script|
  {
    var rest := batches - {id};
    RemoveSums(batches, id);
    assert batches.Keys == rest.Keys + {id};
    assert Complete(rest) == Complete(batches) - {id};
  }

  lemma RemoveSums(batches: map<string, Batch>, id: string)
    requires id in batches
    ensures var rest, b := batches - {id}, batches[id];
            && Sum(DonePer(batches)) == Sum(DonePer(rest)) + Done(b.results)
            && Sum(TotalPer(batches)) == Sum(TotalPer(rest)) + |b.script|
  {
    var rest := batches - {id};
    SumPick(DonePer(batches), id);
    SumPick(TotalPer(batches), id);
    assert DonePer(batches) - {id} == DonePer(rest);
    assert TotalPer(batches) - {id} == TotalPer(rest);
  }
}
