/**
 The relay between GSB callers and a WebSocket (core/gsb-api/src/service.rs):
 calls are buffered while no WebSocket is connected and forwarded while one is,
 and the handler is swapped, with its pending callers, as connections come and go.
 Every await point of the source is a step of its own, so that a run is any
 interleaving of callers, responses, flushes, drops and mode switches.
 */
module Relay {
  import opened Common

  datatype Request = Request(id: string, component: string, payload: seq<Byte>)

  datatype Body = Payload(bytes: seq<Byte>) | Error(text: string)

  datatype Response = Response(id: string, body: Body)

  /** A handler with its pending senders: the call each message id belongs to. */
  datatype Handler =
    | Buffering(senders: map<string, nat>, msgs: seq<Request>)
    | Relaying(senders: map<string, nat>, ws: nat)

  /** Where a caller's future stands.  `Settled(None)`: the WebSocket's mailbox was gone. */
  datatype Phase = Sending(ws: nat) | Waiting | Settled(result: Option<Response>)

  /** A call in progress or done; `slot` is its one-shot channel. */
  datatype Call = Call(request: Request, phase: Phase, slot: Option<Response>)

  /** A running `send_pending_requests`; `failed` is an error it has still to report. */
  datatype Flush = Flush(msgs: seq<Request>, ws: nat, failed: Option<string>)

  datatype Forward = Forward(ws: nat, request: Request)

  datatype State = State(handler: Handler, calls: seq<Call>, flushes: seq<Flush>, forwards: seq<Forward>)

  const INIT := State(Buffering(map[], []), [], [], [])

  datatype Action =
    | Incoming(request: Request)
    | RelaySend(call: nat, ok: bool)
    | Receive(call: nat)
    | Respond(response: Response)
    | DropMessages(reason: string)
    | StartRelaying(ws: nat)
    | StartBuffering
    | FlushSend(flush: nat, ok: bool)
    | FlushReport(flush: nat)

  // ------------------------------------------------------------------------
  // Steps
  // ------------------------------------------------------------------------

  /** Message ids are fresh; the other steps need something to act on. */
  predicate Enabled(s: State, a: Action) {
    match a
    case Incoming(r) => forall c :: 0 <= c < |s.calls| ==> s.calls[c].request.id != r.id
    case RelaySend(c, _) => c < |s.calls| && s.calls[c].phase.Sending?
    case Receive(c) => c < |s.calls| && s.calls[c].phase.Waiting? && s.calls[c].slot.Some?
    case FlushSend(k, _) => k < |s.flushes| && s.flushes[k].failed.None? && s.flushes[k].msgs != []
    case FlushReport(k) => k < |s.flushes| && s.flushes[k].failed.Some?
    case _ => true
  }

  /** The one-shot send: it reaches the caller unless the caller has given up. */
  function Answer(call: Call, r: Response): Call {
    if call.phase.Settled? then call else call.(slot := Some(r))
  }

  function HandleRequest(s: State, r: Request): State {
    var c := |s.calls|;
    match s.handler
    case Buffering(senders, msgs) =>
      s.(handler := Buffering(senders[r.id := c], msgs + [r]), calls := s.calls + [Call(r, Waiting, None)])
    case Relaying(senders, ws) =>
      s.(handler := Relaying(senders[r.id := c], ws), calls := s.calls + [Call(r, Sending(ws), None)])
  }

  /** A response is refused while buffering and for an id without a sender. */
  function HandleResponse(s: State, r: Response): State
    requires SendersKnown(s)
  {
    if s.handler.Relaying? && r.id in s.handler.senders then
      var c := s.handler.senders[r.id];
      s.(handler := Relaying(s.handler.senders - {r.id}, s.handler.ws),
         calls := s.calls[c := Answer(s.calls[c], r)])
    else s
  }

  function HandleDrop(s: State, reason: string): State {
    s.(handler := s.handler.(senders := map[]),
       calls := seq(|s.calls|, c requires 0 <= c < |s.calls| =>
         var call := s.calls[c];
         if call.request.id in s.handler.senders
         then Answer(call, Response(call.request.id, Error(reason))) else call))
  }

  function SwitchToRelaying(s: State, ws: nat): State {
    match s.handler
    case Buffering(senders, msgs) =>
      s.(handler := Relaying(senders, ws), flushes := s.flushes + [Flush(msgs, ws, None)])
    case Relaying(senders, _) => s.(handler := Relaying(senders, ws))
  }

  function SwitchToBuffering(s: State): State {
    if s.handler.Relaying? then s.(handler := Buffering(s.handler.senders, [])) else s
  }

  function Step(s: State, a: Action): State
    requires SendersKnown(s) && Enabled(s, a)
  {
    match a
    case Incoming(r) => HandleRequest(s, r)
    case RelaySend(c, ok) =>
      var call := s.calls[c];
      s.(calls := s.calls[c := call.(phase := if ok then Waiting else Settled(None))],
         forwards := s.forwards + [Forward(call.phase.ws, call.request)])
    case Receive(c) =>
      s.(calls := s.calls[c := s.calls[c].(phase := Settled(s.calls[c].slot))])
    case Respond(r) => HandleResponse(s, r)
    case DropMessages(reason) => HandleDrop(s, reason)
    case StartRelaying(ws) => SwitchToRelaying(s, ws)
    case StartBuffering => SwitchToBuffering(s)
    case FlushSend(k, ok) =>
      var f := s.flushes[k];
      var msg := f.msgs[|f.msgs| - 1];
      s.(flushes := s.flushes[k := f.(msgs := f.msgs[..|f.msgs| - 1], failed := if ok then None else Some(msg.id))],
         forwards := s.forwards + [Forward(f.ws, msg)])
    case FlushReport(k) =>
      var f := s.flushes[k];
      HandleResponse(s.(flushes := s.flushes[k := f.(failed := None)]),
                     Response(f.failed.value, Error("Failed to forward buffered request")))
  }

  // ------------------------------------------------------------------------
  // Callers
  // ------------------------------------------------------------------------

  predicate SendersKnown(s: State) {
    forall id :: id in s.handler.senders ==> s.handler.senders[id] < |s.calls|
  }

  /** The call has an answer, or its caller has gone away with an error. */
  predicate Answered(call: Call) {
    call.slot.Some? || call.phase == Settled(None)
  }

  /**
   Every call is answered or has its own sender among the pending ones, and an
   answer carries the call's own id.
   */
  predicate CallersKept(s: State) {
    && SendersKnown(s)
    && (forall id :: id in s.handler.senders ==> s.calls[s.handler.senders[id]].request.id == id)
    && (forall c, d :: 0 <= c < d < |s.calls| ==> s.calls[c].request.id != s.calls[d].request.id)
    && (forall c :: 0 <= c < |s.calls| ==> CallKept(s.calls[c], s.handler.senders))
  }

  predicate CallKept(call: Call, senders: map<string, nat>) {
    && (call.request.id in senders ==> call.slot.None?)
    && (call.request.id !in senders ==> Answered(call))
    && (call.slot.Some? ==> call.slot.value.id == call.request.id)
    && (call.phase.Settled? && call.phase.result.Some? ==> call.phase.result == call.slot)
  }

  lemma RespondKeepsCallers(s: State, r: Response)
    requires CallersKept(s)
    ensures CallersKept(HandleResponse(s, r))
  {
  }

  lemma DropKeepsCallers(s: State, reason: string)
    requires CallersKept(s)
    ensures CallersKept(HandleDrop(s, reason))
  {
  }

  lemma RequestKeepsCallers(s: State, r: Request)
    requires CallersKept(s) && Enabled(s, Incoming(r))
    ensures CallersKept(HandleRequest(s, r))
  {
    var t := HandleRequest(s, r);
    forall c | 0 <= c < |s.calls|
      ensures CallKept(t.calls[c], t.handler.senders)
    {
      assert s.calls[c].request.id != r.id;
    }
  }

  lemma StepKeepsCallers(s: State, a: Action)
    requires CallersKept(s) && Enabled(s, a)
    ensures CallersKept(Step(s, a))
  {
    match a
    case Incoming(r) => RequestKeepsCallers(s, r);
    case Respond(r) => RespondKeepsCallers(s, r);
    case DropMessages(reason) => DropKeepsCallers(s, reason);
    case FlushReport(k) =>
      var f := s.flushes[k];
      var s' := s.(flushes := s.flushes[k := f.(failed := None)]);
      RespondKeepsCallers(s', Response(f.failed.value, Error("Failed to forward buffered request")));
    case _ =>
  }

  /** What a step never takes back: calls, their requests, answers and outcomes. */
  predicate Final(s: State, t: State) {
    && |s.calls| <= |t.calls|
    && forall c :: 0 <= c < |s.calls| ==>
         && t.calls[c].request == s.calls[c].request
         && (s.calls[c].slot.Some? ==> t.calls[c].slot == s.calls[c].slot)
         && (s.calls[c].phase.Settled? ==> t.calls[c] == s.calls[c])
  }

  lemma StepIsFinal(s: State, a: Action)
    requires CallersKept(s) && Enabled(s, a)
    ensures Final(s, Step(s, a))
  {
  }

  /** A response reaches the call with its own id, if that is still pending, and no other call. */
  lemma ResponseReachesItsCall(s: State, r: Response, c: nat)
    requires CallersKept(s) && c < |s.calls|
    ensures var t := Step(s, Respond(r));
            if && s.handler.Relaying? && r.id in s.handler.senders
               && s.calls[c].request.id == r.id && !s.calls[c].phase.Settled?
            then t.calls[c].slot == Some(r) && r.id !in t.handler.senders
            else t.calls[c] == s.calls[c]
  {
  }

  /** After a drop every call made before it has an answer, and nobody is left pending. */
  lemma DropAnswersEveryone(s: State, reason: string)
    requires CallersKept(s)
    ensures var t := Step(s, DropMessages(reason));
            && t.handler.senders == map[]
            && (forall c :: 0 <= c < |t.calls| ==> Answered(t.calls[c]))
            && (forall c :: 0 <= c < |t.calls| && t.calls[c] != s.calls[c] ==>
                  t.calls[c].slot == Some(Response(s.calls[c].request.id, Error(reason))))
  {
    DropKeepsCallers(s, reason);
  }

  /** Switching modes hands the pending callers over unchanged. */
  lemma SwitchKeepsPending(s: State, a: Action)
    requires SendersKnown(s) && (a.StartRelaying? || a.StartBuffering?)
    ensures var t := Step(s, a);
            && t.handler.senders == s.handler.senders && t.calls == s.calls
            && (t.handler.Relaying? <==> a.StartRelaying?)
            && (a.StartRelaying? ==> t.handler.ws == a.ws)
  {
  }

  // ------------------------------------------------------------------------
  // Requests
  // ------------------------------------------------------------------------

  function Total(xs: seq<int>): int {
    if xs == [] then 0 else xs[0] + Total(xs[1..])
  }

  lemma {:induction false} TotalSet(xs: seq<int>, k: nat, x: int)
    requires k < |xs|
    ensures Total(xs[k := x]) == Total(xs) - xs[k] + x
  {
    if k == 0 {
      assert xs[k := x][1..] == xs[1..];
    } else {
      TotalSet(xs[1..], k - 1, x);
      assert xs[k := x][1..] == xs[1..][k - 1 := x];
    }
  }

  lemma {:induction false} TotalAdd(xs: seq<int>, x: int)
    ensures Total(xs + [x]) == Total(xs) + x
  {
    if xs == [] {
      assert Total([x]) == x + Total([]);
    } else {
      TotalAdd(xs[1..], x);
      assert (xs + [x])[1..] == xs[1..] + [x];
    }
  }

  /** How often `r` occurs among the requests. */
  function Times(requests: seq<Request>, r: Request): int {
    Total(seq(|requests|, i requires 0 <= i < |requests| => Is(requests[i], r)))
  }

  function Is(q: Request, r: Request): int {
    if q == r then 1 else 0
  }

  lemma TimesAdd(requests: seq<Request>, q: Request, r: Request)
    ensures Times(requests + [q], r) == Times(requests, r) + Is(q, r)
  {
    var xs := seq(|requests|, i requires 0 <= i < |requests| => Is(requests[i], r));
    TotalAdd(xs, Is(q, r));
    var more := requests + [q];
    assert xs + [Is(q, r)] == seq(|more|, i requires 0 <= i < |more| => Is(more[i], r));
  }

  function Requests(calls: seq<Call>): (rs: seq<Request>)
    ensures |rs| == |calls|
  {
    seq(|calls|, c requires 0 <= c < |calls| => calls[c].request)
  }

  function Forwarded(forwards: seq<Forward>): (rs: seq<Request>)
    ensures |rs| == |forwards|
  {
    seq(|forwards|, i requires 0 <= i < |forwards| => forwards[i].request)
  }

  /** Whether `r` is the request of a call whose future has not reached the WebSocket yet. */
  function UnsentIs(call: Call, r: Request): int {
    if call.phase.Sending? then Is(call.request, r) else 0
  }

  function Unsent(calls: seq<Call>, r: Request): (xs: seq<int>)
    ensures |xs| == |calls|
  {
    seq(|calls|, c requires 0 <= c < |calls| => UnsentIs(calls[c], r))
  }

  function Flushing(flushes: seq<Flush>, r: Request): (xs: seq<int>)
    ensures |xs| == |flushes|
  {
    seq(|flushes|, k requires 0 <= k < |flushes| => Times(flushes[k].msgs, r))
  }

  function Buffered(h: Handler): seq<Request> {
    if h.Buffering? then h.msgs else []
  }

  /** How often `r` is held: buffered, in a flush, about to be sent, or forwarded. */
  function Held(s: State, r: Request): int {
    Times(Buffered(s.handler), r) + Total(Flushing(s.flushes, r)) + Total(Unsent(s.calls, r))
    + Times(Forwarded(s.forwards), r)
  }

  /** Every request is in exactly as many places as it was made. */
  ghost predicate RequestsKept(s: State) {
    forall r :: Held(s, r) == Times(Requests(s.calls), r)
  }

  lemma SetCall(calls: seq<Call>, c: nat, call: Call, r: Request)
    requires c < |calls| && call.request == calls[c].request
    ensures Requests(calls[c := call]) == Requests(calls)
    ensures Total(Unsent(calls[c := call], r)) == Total(Unsent(calls, r)) - UnsentIs(calls[c], r) + UnsentIs(call, r)
  {
    TotalSet(Unsent(calls, r), c, UnsentIs(call, r));
    assert Unsent(calls[c := call], r) == Unsent(calls, r)[c := UnsentIs(call, r)];
  }

  lemma AddCall(calls: seq<Call>, call: Call, r: Request)
    ensures Times(Requests(calls + [call]), r) == Times(Requests(calls), r) + Is(call.request, r)
    ensures Total(Unsent(calls + [call], r)) == Total(Unsent(calls, r)) + UnsentIs(call, r)
  {
    TimesAdd(Requests(calls), call.request, r);
    assert Requests(calls + [call]) == Requests(calls) + [call.request];
    TotalAdd(Unsent(calls, r), UnsentIs(call, r));
    assert Unsent(calls + [call], r) == Unsent(calls, r) + [UnsentIs(call, r)];
  }

  lemma SetFlush(flushes: seq<Flush>, k: nat, f: Flush, r: Request)
    requires k < |flushes|
    ensures Total(Flushing(flushes[k := f], r))
            == Total(Flushing(flushes, r)) - Times(flushes[k].msgs, r) + Times(f.msgs, r)
  {
    TotalSet(Flushing(flushes, r), k, Times(f.msgs, r));
    assert Flushing(flushes[k := f], r) == Flushing(flushes, r)[k := Times(f.msgs, r)];
  }

  lemma AddFlush(flushes: seq<Flush>, f: Flush, r: Request)
    ensures Total(Flushing(flushes + [f], r)) == Total(Flushing(flushes, r)) + Times(f.msgs, r)
  {
    TotalAdd(Flushing(flushes, r), Times(f.msgs, r));
    assert Flushing(flushes + [f], r) == Flushing(flushes, r) + [Times(f.msgs, r)];
  }

  lemma AddForward(forwards: seq<Forward>, f: Forward, r: Request)
    ensures Times(Forwarded(forwards + [f]), r) == Times(Forwarded(forwards), r) + Is(f.request, r)
  {
    TimesAdd(Forwarded(forwards), f.request, r);
    assert Forwarded(forwards + [f]) == Forwarded(forwards) + [f.request];
  }

  /** Changing only answers moves no request. */
  lemma AnswersMoveNothing(a: seq<Call>, b: seq<Call>, r: Request)
    requires |a| == |b|
    requires forall c :: 0 <= c < |a| ==> b[c].request == a[c].request && b[c].phase == a[c].phase
    ensures Requests(a) == Requests(b) && Unsent(a, r) == Unsent(b, r)
  {
  }

  lemma SendMovesOne(s: State, c: nat, ok: bool, r: Request)
    requires CallersKept(s) && Enabled(s, RelaySend(c, ok))
    ensures var t := Step(s, RelaySend(c, ok));
            Held(t, r) == Held(s, r) && Requests(t.calls) == Requests(s.calls)
  {
    SetCall(s.calls, c, s.calls[c].(phase := if ok then Waiting else Settled(None)), r);
    AddForward(s.forwards, Forward(s.calls[c].phase.ws, s.calls[c].request), r);
  }

  lemma FlushMovesOne(s: State, k: nat, ok: bool, r: Request)
    requires CallersKept(s) && Enabled(s, FlushSend(k, ok))
    ensures Held(Step(s, FlushSend(k, ok)), r) == Held(s, r)
  {
    var t, f := Step(s, FlushSend(k, ok)), s.flushes[k];
    var rest, last := f.msgs[..|f.msgs| - 1], f.msgs[|f.msgs| - 1];
    SetFlush(s.flushes, k, t.flushes[k], r);
    AddForward(s.forwards, Forward(f.ws, last), r);
    TimesAdd(rest, last, r);
    assert f.msgs == rest + [last];
  }

  lemma IncomingAddsOne(s: State, q: Request, r: Request)
    requires CallersKept(s) && Enabled(s, Incoming(q))
    ensures var t := Step(s, Incoming(q));
            && Held(t, r) == Held(s, r) + Is(q, r)
            && Times(Requests(t.calls), r) == Times(Requests(s.calls), r) + Is(q, r)
  {
    AddCall(s.calls, Step(s, Incoming(q)).calls[|s.calls|], r);
    if s.handler.Buffering? {
      TimesAdd(s.handler.msgs, q, r);
    }
  }

  lemma SwitchMovesAll(s: State, a: Action, r: Request)
    requires CallersKept(s) && (a.StartRelaying? || a.StartBuffering?)
    ensures Held(Step(s, a), r) == Held(s, r)
  {
    if a.StartRelaying? && s.handler.Buffering? {
      AddFlush(s.flushes, Flush(s.handler.msgs, a.ws, None), r);
    }
  }

  lemma StepKeepsRequests(s: State, a: Action)
    requires CallersKept(s) && RequestsKept(s) && Enabled(s, a)
    ensures RequestsKept(Step(s, a))
  {
    var t := Step(s, a);
    forall r
      ensures Held(t, r) == Times(Requests(t.calls), r)
    {
      assert Held(s, r) == Times(Requests(s.calls), r);
      match a
      case Incoming(q) => IncomingAddsOne(s, q, r);
      case RelaySend(c, ok) => SendMovesOne(s, c, ok, r);
      case Receive(c) => SetCall(s.calls, c, t.calls[c], r);
      case Respond(_) => AnswersMoveNothing(s.calls, t.calls, r);
      case DropMessages(_) => AnswersMoveNothing(s.calls, t.calls, r);
      case StartRelaying(_) => SwitchMovesAll(s, a, r);
      case StartBuffering => SwitchMovesAll(s, a, r);
      case FlushSend(k, ok) => FlushMovesOne(s, k, ok, r);
      case FlushReport(k) =>
        SetFlush(s.flushes, k, s.flushes[k].(failed := None), r);
        AnswersMoveNothing(s.calls, t.calls, r);
    }
  }

  // ------------------------------------------------------------------------
  // Whole runs
  // ------------------------------------------------------------------------

  /** Each action is possible when its turn comes. */
  ghost predicate Executable(s: State, acts: seq<Action>)
    requires CallersKept(s)
    decreases |acts|
  {
    acts == [] ||
    (Enabled(s, acts[0]) && (StepKeepsCallers(s, acts[0]); Executable(Step(s, acts[0]), acts[1..])))
  }

  ghost function After(s: State, acts: seq<Action>): (t: State)
    requires CallersKept(s) && Executable(s, acts)
    ensures CallersKept(t)
    decreases |acts|
  {
    if acts == [] then s
    else
      StepKeepsCallers(s, acts[0]);
      After(Step(s, acts[0]), acts[1..])
  }

  lemma {:induction false} RunKeeps(s: State, acts: seq<Action>)
    requires CallersKept(s) && RequestsKept(s) && Executable(s, acts)
    ensures CallersKept(After(s, acts)) && RequestsKept(After(s, acts))
    ensures Final(s, After(s, acts))
    decreases |acts|
  {
    if acts != [] {
      StepKeepsCallers(s, acts[0]);
      StepKeepsRequests(s, acts[0]);
      StepIsFinal(s, acts[0]);
      RunKeeps(Step(s, acts[0]), acts[1..]);
    }
  }

  lemma {:induction false} TimesIn(rs: seq<Request>, r: Request)
    ensures Times(rs, r) >= 0 && (r in rs <==> Times(rs, r) >= 1)
  {
    if rs == [] {
      assert Times([], r) == 0;
    } else {
      var init, last := rs[..|rs| - 1], rs[|rs| - 1];
      TimesIn(init, r);
      TimesAdd(init, last, r);
      assert rs == init + [last];
    }
  }

  lemma {:induction false} TimesTwice(rs: seq<Request>, i: nat, j: nat)
    requires i < j < |rs| && rs[i] == rs[j]
    ensures Times(rs, rs[i]) >= 2
  {
    var init, last := rs[..|rs| - 1], rs[|rs| - 1];
    TimesAdd(init, last, rs[i]);
    assert rs == init + [last];
    if j == |rs| - 1 {
      assert rs[i] == init[i];
      TimesIn(init, rs[i]);
    } else {
      TimesTwice(init, i, j);
    }
  }

  lemma {:induction false} TimesOnce(rs: seq<Request>, r: Request)
    requires forall i, j :: 0 <= i < j < |rs| ==> rs[i] != rs[j]
    ensures Times(rs, r) <= 1
  {
    if rs == [] {
      assert Times([], r) == 0;
    } else {
      var init, last := rs[..|rs| - 1], rs[|rs| - 1];
      TimesAdd(init, last, r);
      assert rs == init + [last];
      TimesOnce(init, r);
      TimesIn(init, r);
    }
  }

  /** Only requests that were made are forwarded, and none of them twice. */
  lemma ForwardedOnce(s: State, i: nat, j: nat)
    requires CallersKept(s) && RequestsKept(s)
    requires i < j < |s.forwards|
    ensures s.forwards[i].request.id != s.forwards[j].request.id
    ensures s.forwards[i].request in Requests(s.calls)
  {
    var sent, made := Forwarded(s.forwards), Requests(s.calls);
    ForwardedWasMade(s, sent[i]);
    ForwardedWasMade(s, sent[j]);
    TimesOnce(made, sent[i]);
    HeldParts(s, sent[i]);
    assert Held(s, sent[i]) == Times(made, sent[i]);
    if sent[i] == sent[j] {
      TimesTwice(sent, i, j);
    }
  }

  lemma ForwardedWasMade(s: State, r: Request)
    requires RequestsKept(s) && r in Forwarded(s.forwards)
    ensures r in Requests(s.calls)
  {
    TimesIn(Forwarded(s.forwards), r);
    HeldParts(s, r);
    assert Held(s, r) == Times(Requests(s.calls), r);
    TimesIn(Requests(s.calls), r);
  }

  lemma HeldParts(s: State, r: Request)
    ensures Held(s, r) >= Times(Forwarded(s.forwards), r)
  {
    TimesIn(Buffered(s.handler), r);
    forall k | 0 <= k < |s.flushes|
      ensures Flushing(s.flushes, r)[k] >= 0
    {
      TimesIn(s.flushes[k].msgs, r);
    }
    TotalNat(Flushing(s.flushes, r));
    TotalNat(Unsent(s.calls, r));
  }

  lemma {:induction false} TotalNat(xs: seq<int>)
    requires forall i :: 0 <= i < |xs| ==> xs[i] >= 0
    ensures Total(xs) >= 0
  {
    if xs != [] {
      TotalNat(xs[1..]);
    }
  }

  /**
   Safety of every run: no caller is lost or answered twice or with another's
   response, no request is lost, altered or forwarded twice.
   */
  lemma SafetyOverRuns(acts: seq<Action>)
    requires Executable(INIT, acts)
    ensures var s := After(INIT, acts);
            && CallersKept(s) && RequestsKept(s)
            && (forall i, j :: 0 <= i < j < |s.forwards| ==> s.forwards[i].request.id != s.forwards[j].request.id)
  {
    assert RequestsKept(INIT) by {
      forall r
        ensures Held(INIT, r) == Times(Requests(INIT.calls), r)
      {
        assert Requests([]) == Forwarded([]) == [];
        assert Times([], r) == 0;
      }
    }
    RunKeeps(INIT, acts);
    var s := After(INIT, acts);
    forall i, j | 0 <= i < j < |s.forwards|
      ensures s.forwards[i].request.id != s.forwards[j].request.id
    {
      ForwardedOnce(s, i, j);
    }
  }

  // ------------------------------------------------------------------------
  // Whether anyone still waits for what is forwarded
  // ------------------------------------------------------------------------

  /** The step takes the sender of message `id` from the pending ones. */
  predicate TakesSender(s: State, a: Action, id: string) {
    match a
    case DropMessages(_) => true
    case Respond(r) => s.handler.Relaying? && r.id == id
    case FlushReport(k) => s.handler.Relaying? && k < |s.flushes| && s.flushes[k].failed == Some(id)
    case _ => false
  }

  /** No step of the run takes it. */
  ghost predicate Untouched(s: State, acts: seq<Action>, id: string)
    requires CallersKept(s) && Executable(s, acts)
    decreases |acts|
  {
    acts == [] ||
    (!TakesSender(s, acts[0], id) && (StepKeepsCallers(s, acts[0]); Untouched(Step(s, acts[0]), acts[1..], id)))
  }

  lemma SenderStays(s: State, a: Action, c: nat)
    requires CallersKept(s) && Enabled(s, a) && c < |s.calls|
    ensures var t, id := Step(s, a), s.calls[c].request.id;
            && c < |t.calls| && t.calls[c].request.id == id
            && (id in t.handler.senders <==> id in s.handler.senders && !TakesSender(s, a, id))
  {
  }

  /** A call is pending as long as no step takes its sender, and never again after that. */
  lemma {:induction false} PendingUntilTaken(s: State, acts: seq<Action>, c: nat)
    requires CallersKept(s) && Executable(s, acts) && c < |s.calls|
    ensures var id := s.calls[c].request.id;
            id in After(s, acts).handler.senders <==> id in s.handler.senders && Untouched(s, acts, id)
    decreases |acts|
  {
    if acts != [] {
      StepKeepsCallers(s, acts[0]);
      SenderStays(s, acts[0], c);
      PendingUntilTaken(Step(s, acts[0]), acts[1..], c);
    }
  }

  /** The step sends `r` to a WebSocket. */
  predicate Forwards(s: State, a: Action, r: Request) {
    match a
    case RelaySend(c, _) => c < |s.calls| && s.calls[c].request == r
    case FlushSend(k, _) => k < |s.flushes| && var msgs := s.flushes[k].msgs; msgs != [] && msgs[|msgs| - 1] == r
    case _ => false
  }

  /**
   At the moment a request is forwarded, its caller still waits for the answer
   exactly when nothing took its sender since the request was made: no drop, no
   response with its id while relaying.
   */
  lemma ForwardFindsCaller(s: State, r: Request, acts: seq<Action>, a: Action)
    requires CallersKept(s) && Enabled(s, Incoming(r))
    requires (StepKeepsCallers(s, Incoming(r)); Executable(Step(s, Incoming(r)), acts))
    requires var t := After(Step(s, Incoming(r)), acts);
             Enabled(t, a) && Forwards(t, a, r)
    ensures var made := Step(s, Incoming(r));
            var t := After(made, acts);
            && Forwarded(Step(t, a).forwards) == Forwarded(t.forwards) + [r]
            && (r.id in Step(t, a).handler.senders <==> Untouched(made, acts, r.id))
  {
    var made := Step(s, Incoming(r));
    PendingUntilTaken(made, acts, |s.calls|);
    ForwardAdds(After(made, acts), a, r);
  }

  lemma ForwardAdds(s: State, a: Action, r: Request)
    requires CallersKept(s) && Enabled(s, a) && Forwards(s, a, r)
    ensures Step(s, a).handler == s.handler && Forwarded(Step(s, a).forwards) == Forwarded(s.forwards) + [r]
  {
  }

  /** Buffered, with its caller pending. */
  function OneBuffered(r: Request): State {
    State(Buffering(map[r.id := 0], [r]), [Call(r, Waiting, None)], [], [])
  }

  /** Still buffered, with its caller told why it was dropped. */
  function OneDropped(r: Request, reason: string): State {
    State(Buffering(map[], [r]), [Call(r, Waiting, Some(Response(r.id, Error(reason))))], [], [])
  }

  lemma DropLeavesRequest(r: Request, reason: string)
    ensures HandleRequest(INIT, r) == OneBuffered(r)
    ensures HandleDrop(OneBuffered(r), reason) == OneDropped(r, reason)
  {
    assert HandleDrop(OneBuffered(r), reason).calls == OneDropped(r, reason).calls;
  }

  /** A drop while buffering leaves the request behind: it is forwarded although its caller has been answered. */
  lemma ForwardedAfterDrop(r: Request, reason: string, ws: nat)
    ensures var relaying := SwitchToRelaying(HandleDrop(HandleRequest(INIT, r), reason), ws);
            && SendersKnown(relaying) && Enabled(relaying, FlushSend(0, true))
            && var sent := Step(relaying, FlushSend(0, true));
               && sent.forwards == [Forward(ws, r)] && sent.handler.senders == map[]
               && sent.calls[0].slot == Some(Response(r.id, Error(reason)))
  {
    DropLeavesRequest(r, reason);
    assert SwitchToRelaying(OneDropped(r, reason), ws) ==
           State(Relaying(map[], ws), OneDropped(r, reason).calls, [Flush([r], ws, None)], []);
  }

  // ------------------------------------------------------------------------
  // What a caller gets
  // ------------------------------------------------------------------------

  /** What the step puts into the slot of call `c`: only a pending caller that has not given up is answered. */
  function Puts(s: State, a: Action, c: nat): Option<Response>
    requires c < |s.calls|
  {
    var id := s.calls[c].request.id;
    if id !in s.handler.senders || s.calls[c].phase.Settled? then None
    else
      match a
      case DropMessages(reason) => Some(Response(id, Error(reason)))
      case Respond(r) => if s.handler.Relaying? && r.id == id then Some(r) else None
      case FlushReport(k) =>
        if s.handler.Relaying? && k < |s.flushes| && s.flushes[k].failed == Some(id)
        then Some(Response(id, Error("Failed to forward buffered request"))) else None
      case _ => None
  }

  /** How far a caller gets: sent or not, received or not, and otherwise unmoved by every step. */
  function Moves(s: State, a: Action, c: nat): Phase
    requires c < |s.calls|
  {
    if a == RelaySend(c, true) then Waiting
    else if a == RelaySend(c, false) then Settled(None)
    else if a == Receive(c) then Settled(s.calls[c].slot)
    else s.calls[c].phase
  }

  lemma StepOfCaller(s: State, a: Action, c: nat)
    requires CallersKept(s) && Enabled(s, a) && c < |s.calls|
    ensures var t := Step(s, a);
            && c < |t.calls| && t.calls[c].request == s.calls[c].request
            && t.calls[c].phase == Moves(s, a, c)
            && t.calls[c].slot == (if Puts(s, a, c).Some? then Puts(s, a, c) else s.calls[c].slot)
  {
  }

  /** A new call waits for its answer, or is on its way to the WebSocket connected now. */
  lemma NewCaller(s: State, r: Request)
    requires CallersKept(s) && Enabled(s, Incoming(r))
    ensures var t := Step(s, Incoming(r));
            && |t.calls| == |s.calls| + 1 && t.calls[|s.calls|].request == r && t.calls[|s.calls|].slot.None?
            && t.calls[|s.calls|].phase == (if s.handler.Relaying? then Sending(s.handler.ws) else Waiting)
  {
  }

  /** Some step of the run put `r` into the slot of call `c`. */
  ghost predicate PutByRun(s: State, acts: seq<Action>, c: nat, r: Response)
    requires CallersKept(s) && Executable(s, acts) && c < |s.calls|
    decreases |acts|
  {
    acts != [] &&
    (|| Puts(s, acts[0], c) == Some(r)
     || (StepKeepsCallers(s, acts[0]); StepOfCaller(s, acts[0], c); PutByRun(Step(s, acts[0]), acts[1..], c, r)))
  }

  /**
   From the moment a call is made, over every run: its caller goes away empty
   exactly when its own send failed; a caller that received goes away with the
   answer in its slot; and that answer was put there by a step of the run, a
   response with its id, a drop or a failed flush.
   */
  lemma {:induction false} CallerGetsAnswer(s: State, acts: seq<Action>, c: nat)
    requires CallersKept(s) && Executable(s, acts) && c < |s.calls| && !s.calls[c].phase.Settled?
    ensures c < |After(s, acts).calls|
    ensures var call := After(s, acts).calls[c];
            && (call.phase == Settled(None) <==> RelaySend(c, false) in acts)
            && (Receive(c) in acts <==> call.phase.Settled? && call.phase.result.Some?)
            && (Receive(c) in acts ==> call.phase == Settled(call.slot))
            && (call.slot.Some? ==> s.calls[c].slot == call.slot || PutByRun(s, acts, c, call.slot.value))
    decreases |acts|
  {
    if acts != [] {
      var t := Step(s, acts[0]);
      assert acts == [acts[0]] + acts[1..];
      StepKeepsCallers(s, acts[0]);
      StepOfCaller(s, acts[0], c);
      if t.calls[c].phase.Settled? {
        SettledStays(t, acts[1..], c);
      } else {
        CallerGetsAnswer(t, acts[1..], c);
      }
    }
  }

  /** Nothing more happens to a caller that has gone away. */
  lemma {:induction false} SettledStays(s: State, acts: seq<Action>, c: nat)
    requires CallersKept(s) && Executable(s, acts) && c < |s.calls| && s.calls[c].phase.Settled?
    ensures c < |After(s, acts).calls| && After(s, acts).calls[c] == s.calls[c]
    ensures forall ok :: RelaySend(c, ok) !in acts
    ensures Receive(c) !in acts
    decreases |acts|
  {
    if acts != [] {
      assert acts == [acts[0]] + acts[1..];
      StepKeepsCallers(s, acts[0]);
      StepOfCaller(s, acts[0], c);
      SettledStays(Step(s, acts[0]), acts[1..], c);
    }
  }

  /**
   Where requests go: a call's own send goes to the WebSocket connected when it was
   made, a flush to the one whose connection started it, and nothing else forwards.
   */
  lemma ForwardsGoTo(s: State, a: Action)
    requires CallersKept(s) && Enabled(s, a)
    ensures var t := Step(s, a);
            && (!a.RelaySend? && !a.FlushSend? ==> t.forwards == s.forwards)
            && (a.RelaySend? ==>
                  t.forwards == s.forwards + [Forward(s.calls[a.call].phase.ws, s.calls[a.call].request)])
            && (a.FlushSend? ==>
                  && s.flushes[a.flush].msgs == t.flushes[a.flush].msgs + [t.forwards[|s.forwards|].request]
                  && t.forwards == s.forwards + [Forward(s.flushes[a.flush].ws, t.forwards[|s.forwards|].request)]
                  && t.flushes[a.flush].failed == if a.ok then None else Some(t.forwards[|s.forwards|].request.id))
            && (forall k :: 0 <= k < |s.flushes| ==> k < |t.flushes| && t.flushes[k].ws == s.flushes[k].ws)
            && (a.StartRelaying? && s.handler.Buffering? ==>
                  t.flushes == s.flushes + [Flush(s.handler.msgs, a.ws, None)])
  {
  }

  // ------------------------------------------------------------------------
  // The actor
  // ------------------------------------------------------------------------

  function LastToFirst(ws: nat, msgs: seq<Request>): seq<Forward> {
    if msgs == [] then []
    else [Forward(ws, msgs[|msgs| - 1])] + LastToFirst(ws, msgs[..|msgs| - 1])
  }

  /** A flush sends the buffered requests in the reverse of the order they came in. */
  lemma {:induction false} FlushReverses(ws: nat, msgs: seq<Request>, i: nat)
    requires i < |msgs|
    ensures |LastToFirst(ws, msgs)| == |msgs|
    ensures LastToFirst(ws, msgs)[i] == Forward(ws, msgs[|msgs| - 1 - i])
  {
    var rest := msgs[..|msgs| - 1];
    if i > 0 {
      FlushReverses(ws, rest, i - 1);
    } else if rest != [] {
      FlushReverses(ws, rest, 0);
    }
  }

  /** So requests with ids of their own keep their order only if there are no two of them. */
  lemma FlushKeepsOrderOnlyOfOne(ws: nat, msgs: seq<Request>)
    requires forall i, j :: 0 <= i < j < |msgs| ==> msgs[i].id != msgs[j].id
    ensures Forwarded(LastToFirst(ws, msgs)) == msgs <==> |msgs| <= 1
  {
    if |msgs| > 0 {
      FlushReverses(ws, msgs, 0);
      assert Forwarded(LastToFirst(ws, msgs))[0] == msgs[|msgs| - 1];
    }
  }

  /** Drains the pending senders, in any order, telling each caller why. */
  method DrainSenders(ghost s: State, senders: map<string, nat>, pending: seq<Call>, reason: string)
    returns (calls: seq<Call>)
    requires CallersKept(s) && senders == s.handler.senders && pending == s.calls
    ensures calls == HandleDrop(s, reason).calls
  {
    calls := pending;
    var left := senders;
    while left != map[]
      invariant forall id :: id in left ==> id in senders && left[id] == senders[id]
      invariant calls == AnsweredExcept(s, left.Keys, reason)
      decreases |left|
    {
      var id :| id in left;
      var c := left[id];
      AnswerOne(s, left.Keys, id, reason);
      calls := calls[c := Answer(calls[c], Response(id, Error(reason)))];
      left := left - {id};
    }
  }

  class Service {
    const addresses: set<string>
    var handler: Handler
    var calls: seq<Call>
    var flushes: seq<Flush>
    var forwards: seq<Forward>

    ghost function View(): State
      reads this
    {
      State(handler, calls, flushes, forwards)
    }

    constructor (addresses: set<string>)
      ensures View() == INIT && this.addresses == addresses
    {
      this.addresses := addresses;
      handler := Buffering(map[], []);
      calls, flushes, forwards := [], [], [];
    }

    /** A call from the bus; refused when the address is not one of the service's. */
    method HandleCall(addr: string, request: Request) returns (accepted: bool)
      requires CallersKept(View()) && Enabled(View(), Incoming(request))
      modifies this
      ensures accepted <==> addr in addresses
      ensures View() == if accepted then Step(old(View()), Incoming(request)) else old(View())
    {
      if addr !in addresses {
        return false;
      }
      var c := |calls|;
      match handler {
        case Buffering(senders, msgs) =>
          handler := Buffering(senders[request.id := c], msgs + [request]);
          calls := calls + [Call(request, Waiting, None)];
        case Relaying(senders, ws) =>
          handler := Relaying(senders[request.id := c], ws);
          calls := calls + [Call(request, Sending(ws), None)];
      }
      accepted := true;
    }

    /** A response from the WebSocket; `delivered` when a caller was there to take it. */
    method HandleWsResponse(r: Response) returns (delivered: bool)
      requires CallersKept(View())
      modifies this
      ensures View() == Step(old(View()), Respond(r))
      ensures delivered <==> exists c :: 0 <= c < |calls| && calls[c].slot == Some(r) && old(calls)[c].slot.None?
    {
      if handler.Buffering? || r.id !in handler.senders {
        return false;
      }
      var c := handler.senders[r.id];
      handler := Relaying(handler.senders - {r.id}, handler.ws);
      if calls[c].phase.Settled? {
        return false;
      }
      calls := calls[c := calls[c].(slot := Some(r))];
      assert calls[c].slot == Some(r);
      delivered := true;
    }

    /** Returns the WebSocket to disconnect, if one is connected. */
    method HandleDropMessages(reason: string) returns (disconnect: Option<nat>)
      requires CallersKept(View())
      modifies this
      ensures View() == Step(old(View()), DropMessages(reason))
      ensures disconnect == if old(handler).Relaying? then Some(old(handler).ws) else None
    {
      calls := DrainSenders(View(), handler.senders, calls, reason);
      handler := handler.(senders := map[]);
      disconnect := if handler.Relaying? then Some(handler.ws) else None;
    }

    method HandleStartRelaying(ws: nat)
      requires CallersKept(View())
      modifies this
      ensures View() == Step(old(View()), StartRelaying(ws))
    {
      match handler {
        case Buffering(senders, msgs) =>
          handler := Relaying(senders, ws);
          flushes := flushes + [Flush(msgs, ws, None)];
        case Relaying(senders, _) =>
          handler := Relaying(senders, ws);
      }
    }

    /** Returns the WebSocket that was connected, for the caller to close. */
    method HandleStartBuffering() returns (oldWs: Option<nat>)
      requires CallersKept(View())
      modifies this
      ensures View() == Step(old(View()), StartBuffering)
      ensures oldWs == if old(handler).Relaying? then Some(old(handler).ws) else None
    {
      oldWs := None;
      if handler.Relaying? {
        oldWs := Some(handler.ws);
        handler := Buffering(handler.senders, []);
      }
    }

    /** One turn of the flush: the last buffered request is sent. */
    method SendLast(k: nat, ok: bool)
      requires CallersKept(View()) && Enabled(View(), FlushSend(k, ok))
      modifies this
      ensures View() == Step(old(View()), FlushSend(k, ok)) && CallersKept(View())
      ensures k < |flushes| && flushes[k].msgs + [forwards[|forwards| - 1].request] == old(flushes[k].msgs)
    {
      StepKeepsCallers(View(), FlushSend(k, ok));
      var f := flushes[k];
      var msg := f.msgs[|f.msgs| - 1];
      forwards := forwards + [Forward(f.ws, msg)];
      flushes := flushes[k := f.(msgs := f.msgs[..|f.msgs| - 1], failed := if ok then None else Some(msg.id))];
    }

    /** A failed send is reported to the service as an error response. */
    method ReportFailure(k: nat)
      requires CallersKept(View()) && Enabled(View(), FlushReport(k))
      modifies this
      ensures View() == Step(old(View()), FlushReport(k)) && CallersKept(View())
      ensures forwards == old(forwards) && flushes == old(flushes)[k := old(flushes[k]).(failed := None)]
    {
      StepKeepsCallers(View(), FlushReport(k));
      var id := flushes[k].failed.value;
      flushes := flushes[k := flushes[k].(failed := None)];
      var delivered := HandleWsResponse(Response(id, Error("Failed to forward buffered request")));
    }

    /**
     The loop of `send_pending_requests` with no other step in between: it takes
     every buffered request once, last to first, and reports each failed send.
     */
    method SendPendingRequests(k: nat, sends: nat -> bool)
      requires CallersKept(View()) && k < |flushes| && flushes[k].failed.None?
      modifies this
      ensures CallersKept(View())
      ensures forwards == old(forwards) + LastToFirst(old(flushes[k].ws), old(flushes[k].msgs))
      ensures k < |flushes| && flushes[k].msgs == [] && flushes[k].failed.None?
    {
      ghost var ws, all := flushes[k].ws, LastToFirst(flushes[k].ws, flushes[k].msgs);
      while flushes[k].msgs != []
        invariant CallersKept(View()) && k < |flushes|
        invariant flushes[k].failed.None? && flushes[k].ws == ws
        invariant forwards + LastToFirst(ws, flushes[k].msgs) == old(forwards) + all
        decreases |flushes[k].msgs|
      {
        var ok := sends(|flushes[k].msgs|);
        ghost var sent, msgs := forwards, flushes[k].msgs;
        ghost var next := Forward(flushes[k].ws, msgs[|msgs| - 1]);
        SendLast(k, ok);
        if !ok {
          ReportFailure(k);
        }
        assert LastToFirst(ws, msgs) == [next] + LastToFirst(ws, flushes[k].msgs);
        assert forwards == sent + [next];
        AppendAssoc(sent, [next], LastToFirst(ws, flushes[k].msgs));
      }
    }
  }

  /** The calls once every pending sender outside `left` has been told. */
  ghost function AnsweredExcept(s: State, left: set<string>, reason: string): seq<Call> {
    seq(|s.calls|, c requires 0 <= c < |s.calls| =>
      var call := s.calls[c];
      if call.request.id in s.handler.senders && call.request.id !in left
      then Answer(call, Response(call.request.id, Error(reason))) else call)
  }

  lemma AnswerOne(s: State, left: set<string>, id: string, reason: string)
    requires CallersKept(s) && left <= s.handler.senders.Keys && id in left
    ensures var c, calls := s.handler.senders[id], AnsweredExcept(s, left, reason);
            AnsweredExcept(s, left - {id}, reason) == calls[c := Answer(calls[c], Response(id, Error(reason)))]
  {
    var c := s.handler.senders[id];
    assert forall d :: 0 <= d < |s.calls| && d != c ==> s.calls[d].request.id != id;
  }
}
