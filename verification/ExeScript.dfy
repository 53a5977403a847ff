/**
 Execution of exe-scripts (exe-unit/src/exe_unit.rs): the activity's state
 machine, the loop that runs a batch, and the event log it leaves behind, read
 through the batch model of `BatchLog`.
 */
module ExeScript {
  import opened Common
  import opened BatchLog
  import opened Output

  datatype State = New | Initialized | Deployed | Ready | Unresponsive | Terminated

  datatype StatePair = StatePair(current: State, pending: Option<State>)

  /** Why a command failed; `text` is the error as it is shown to the requestor. */
  datatype Failure = ExitCode(code: int, text: string) | Other(text: string)

  function ReturnCode(f: Option<Failure>): int {
    match f
    case None => 0
    case Some(ExitCode(c, _)) => c
    case Some(Other(_)) => -1
  }

  function Message(f: Option<Failure>): Option<string> {
    if f.Some? then Some(f.value.text) else None
  }

  /**
   How the world answers one command: whether the runtime, a transfer, signing or
   stopping failed, what was reported meanwhile, and whether someone else set the
   activity's state.
   */
  datatype Outcome = Outcome(failure: Option<Failure>, reported: seq<Event>, meanwhile: Option<StatePair>) {
    /** Reports concern the running command or late output of an earlier one; only a nonzero exit code is a failure. */
    predicate Valid(idx: nat) {
      && (forall i :: 0 <= i < |reported| ==>
            reported[i].index <= idx && (reported[i].kind.Wrote? || reported[i].kind.Progress?))
      && (failure.Some? && failure.value.ExitCode? ==> failure.value.code != 0)
    }
  }

  // ------------------------------------------------------------------------
  // The state machine
  // ------------------------------------------------------------------------

  predicate Stateless(cmd: Command) {
    cmd.Sign? || cmd.Terminate?
  }

  /** The state a stateful command leads to, or nothing where it is refused. */
  function Check(s: StatePair, cmd: Command): Option<State> {
    if s.pending.Some? then None
    else
      match s.current
      case New => None
      case Terminated => None
      case Initialized => if cmd.Deploy? then Some(Deployed) else None
      case Deployed => if cmd.Start? then Some(Ready) else None
      case _ => if cmd.Deploy? || cmd.Start? then None else Some(s.current)
  }

  /** Someone else changed the state while the command ran. */
  predicate Disturbed(s: StatePair, cmd: Command, o: Outcome)
    requires Check(s, cmd).Some?
  {
    o.meanwhile.Some? && o.meanwhile.value != StatePair(s.current, Check(s, cmd))
  }

  function Result(s: StatePair, cmd: Command, o: Outcome): Option<Failure> {
    if Stateless(cmd) then o.failure
    else if Check(s, cmd).None? then Some(Other(if s.pending.Some? then "Busy" else "InvalidState"))
    else if Disturbed(s, cmd, o) then Some(Other("UnexpectedState"))
    else o.failure
  }

  function Next(s: StatePair, cmd: Command, o: Outcome): StatePair {
    if cmd.Terminate? && o.failure.None? then StatePair(Initialized, None)
    else if Stateless(cmd) then (if o.meanwhile.Some? then o.meanwhile.value else s)
    else if Check(s, cmd).None? then s
    else if Disturbed(s, cmd, o) then o.meanwhile.value
    else StatePair(Check(s, cmd).value, None)
  }

  /** The stateful commands let through since the last Terminate that succeeded. */
  function Dispatch(d: seq<Command>, s: StatePair, cmd: Command, o: Outcome): seq<Command> {
    if cmd.Terminate? && o.failure.None? then []
    else if !Stateless(cmd) && Check(s, cmd).Some? then d + [cmd]
    else d
  }

  /** Deploy, then Start, then any mix of Run and Transfer; or a prefix of that. */
  predicate Lifecycle(d: seq<Command>) {
    && (|d| >= 1 ==> d[0].Deploy?)
    && (|d| >= 2 ==> d[1].Start?)
    && (forall i :: 2 <= i < |d| ==> d[i].Run? || d[i].Transfer?)
  }

  function StateAfter(d: seq<Command>): State {
    if |d| == 0 then Initialized else if |d| == 1 then Deployed else Ready
  }

  /** No pending state, and the state is the one the dispatched commands lead to. */
  predicate Tracks(s: StatePair, d: seq<Command>) {
    s == StatePair(StateAfter(d), None) && Lifecycle(d)
  }

  /**
   The state check lets a stateful command through exactly when the lifecycle
   allows it next, and no command leaves a pending state behind, failed or not.
   */
  lemma CommandKeepsLifecycle(s: StatePair, d: seq<Command>, cmd: Command, o: Outcome)
    requires Tracks(s, d) && o.meanwhile.None?
    ensures !Stateless(cmd) ==> (Check(s, cmd).Some? <==> Lifecycle(d + [cmd]))
    ensures Tracks(Next(s, cmd, o), Dispatch(d, s, cmd, o))
  {
    LifecycleNext(d, cmd);
  }

  lemma LifecycleNext(d: seq<Command>, cmd: Command)
    requires Lifecycle(d)
    ensures Lifecycle(d + [cmd]) <==>
            if |d| == 0 then cmd.Deploy? else if |d| == 1 then cmd.Start? else cmd.Run? || cmd.Transfer?
  {
    var e := d + [cmd];
    assert e[|d|] == cmd && forall i :: 0 <= i < |d| ==> e[i] == d[i];
  }

  /** The moves of the activity: from which state a stateful command leads to which. */
  predicate Moves(from: State, cmd: Command, to: State) {
    || (from.Initialized? && cmd.Deploy? && to.Deployed?)
    || (from.Deployed? && cmd.Start? && to.Ready?)
    || ((from.Ready? || from.Unresponsive?) && !cmd.Deploy? && !cmd.Start? && to == from)
  }

  /** In any state a command is let through exactly for a move, and only where none is pending. */
  lemma CheckFindsMoves(s: StatePair, cmd: Command, to: State)
    ensures Check(s, cmd) == Some(to) <==> s.pending.None? && Moves(s.current, cmd, to)
  {
  }

  /** What the runtime, a transfer, signing or stopping made of a command that was let through. */
  predicate Reported(failure: Option<Failure>, code: int, message: Option<string>) {
    match failure
    case None => code == 0 && message.None?
    case Some(ExitCode(c, text)) => code == c && message == Some(text)
    case Some(Other(text)) => code == -1 && message == Some(text)
  }

  /** The lifecycle allows the command next. */
  predicate Allowed(d: seq<Command>, cmd: Command) {
    Stateless(cmd) || Lifecycle(d + [cmd])
  }

  /**
   What a command's Finished event says: a command the lifecycle does not allow is
   an error, and any other is what the world made of it.
   */
  predicate Says(d: seq<Command>, cmd: Command, o: Outcome, code: int, message: Option<string>) {
    if Allowed(d, cmd) then Reported(o.failure, code, message) else code == -1 && message.Some?
  }

  /** The commands of the lifecycle so far, after another one. */
  function Progress(d: seq<Command>, cmd: Command, o: Outcome): seq<Command> {
    if Stateless(cmd) then (if cmd.Terminate? && o.failure.None? then [] else d)
    else if Lifecycle(d + [cmd]) then d + [cmd]
    else d
  }

  lemma CommandSays(s: StatePair, d: seq<Command>, cmd: Command, o: Outcome)
    requires Tracks(s, d) && o.meanwhile.None?
    ensures var f := Result(s, cmd, o);
            && Says(d, cmd, o, ReturnCode(f), Message(f))
            && Dispatch(d, s, cmd, o) == Progress(d, cmd, o)
  {
    CommandKeepsLifecycle(s, d, cmd, o);
  }

  /** In any state a stateful command that is no move fails and changes nothing. */
  lemma RefusedChangesNothing(s: StatePair, cmd: Command, o: Outcome)
    requires !Stateless(cmd) && (s.pending.Some? || forall to :: !Moves(s.current, cmd, to))
    ensures ReturnCode(Result(s, cmd, o)) == -1 && Next(s, cmd, o) == s
    ensures Message(Result(s, cmd, o)) == Some(if s.pending.None? then "InvalidState" else "Busy")
  {
    match Check(s, cmd)
    case None =>
    case Some(to) => CheckFindsMoves(s, cmd, to);
  }

  /** From any state, pending or not, a Terminate that succeeds leads back to Initialized. */
  lemma TerminateResets(s: StatePair, o: Outcome)
    ensures Reported(o.failure, ReturnCode(Result(s, Terminate, o)), Message(Result(s, Terminate, o)))
    ensures o.failure.None? ==> Next(s, Terminate, o) == StatePair(Initialized, None)
  {
  }

  /** A state that someone else changed meanwhile is an error, and is left as they set it. */
  lemma DisturbedFails(s: StatePair, cmd: Command, o: Outcome)
    requires !Stateless(cmd) && s.pending.None? && exists to :: Moves(s.current, cmd, to)
    requires o.meanwhile.Some?
    requires !(o.meanwhile.value.current == s.current && exists to ::
                 Moves(s.current, cmd, to) && o.meanwhile.value.pending == Some(to))
    ensures ReturnCode(Result(s, cmd, o)) == -1 && Next(s, cmd, o) == o.meanwhile.value
  {
    var to :| Moves(s.current, cmd, to);
    CheckFindsMoves(s, cmd, to);
  }

  /** The states of a run of commands, whatever batches they come from. */
  function RunStates(s: StatePair, cmds: seq<Command>, os: seq<Outcome>): StatePair
    requires |cmds| == |os|
    decreases |cmds|
  {
    if cmds == [] then s else RunStates(Next(s, cmds[0], os[0]), cmds[1..], os[1..])
  }

  function RunDispatched(d: seq<Command>, s: StatePair, cmds: seq<Command>, os: seq<Outcome>): seq<Command>
    requires |cmds| == |os|
    decreases |cmds|
  {
    if cmds == [] then d
    else RunDispatched(Dispatch(d, s, cmds[0], os[0]), Next(s, cmds[0], os[0]), cmds[1..], os[1..])
  }

  /** Over any number of batches run one after another from any lifecycle point. */
  lemma {:induction false} LifecycleOverRuns(s: StatePair, d: seq<Command>, cmds: seq<Command>, os: seq<Outcome>)
    requires |cmds| == |os| && Tracks(s, d)
    requires forall i :: 0 <= i < |os| ==> os[i].meanwhile.None?
    ensures Tracks(RunStates(s, cmds, os), RunDispatched(d, s, cmds, os))
    decreases |cmds|
  {
    if cmds != [] {
      CommandKeepsLifecycle(s, d, cmds[0], os[0]);
      LifecycleOverRuns(Next(s, cmds[0], os[0]), Dispatch(d, s, cmds[0], os[0]), cmds[1..], os[1..]);
    }
  }

  // ------------------------------------------------------------------------
  // Logs of a batch
  // ------------------------------------------------------------------------

  /** The return codes of the finished commands. */
  function Codes(es: seq<Event>): seq<int> {
    if es == [] then []
    else
      var before, e := es[..|es| - 1], es[|es| - 1];
      if e.kind.Finished? then Codes(before) + [e.kind.code] else Codes(before)
  }

  /** The messages of the finished commands. */
  function Messages(es: seq<Event>): (ms: seq<Option<string>>)
    ensures |ms| == |Codes(es)|
  {
    if es == [] then []
    else
      var before, e := es[..|es| - 1], es[|es| - 1];
      if e.kind.Finished? then Messages(before) + [e.kind.message] else Messages(before)
  }

  /** A command has started and not finished. */
  predicate Open(es: seq<Event>) {
    if es == [] then false
    else
      var e := es[|es| - 1];
      e.kind.Started? || (!e.kind.Finished? && Open(es[..|es| - 1]))
  }

  predicate AllZero(codes: seq<int>) {
    forall i :: 0 <= i < |codes| ==> codes[i] == 0
  }

  /** Contiguous Started(i), reports, Finished(i); nothing starts after a failure. */
  predicate Orderly(es: seq<Event>, n: nat) {
    es == [] ||
    var before, e := es[..|es| - 1], es[|es| - 1];
    var k := |Codes(before)|;
    && Orderly(before, n)
    && match e.kind
       case Started => !Open(before) && AllZero(Codes(before)) && e.index == k < n
       case Finished(_, _) => Open(before) && e.index == k
       case _ => e.index < k || (e.index == k && Open(before))
  }

  /**
   Replaying an orderly log: the finished commands are exactly those that ran,
   with the result their code tells, and the running command is the one started
   and not yet finished.  A prefix of an orderly log is orderly, so this holds
   at every moment of the run.
   */
  lemma {:induction false} OrderlyReplay(script: seq<Command>, es: seq<Event>)
    requires Orderly(es, |script|)
    ensures var r, codes := Replay(script, es), Codes(es);
            && |codes| <= |script| && (Open(es) ==> |codes| < |script| && AllZero(codes))
            && |r| == |codes| + (if Open(es) then 1 else 0)
            && (forall i :: 0 <= i < |codes| ==>
                  r[i].result == Some(if codes[i] == 0 then Ok else Error) && r[i].message == Messages(es)[i])
            && (Open(es) ==> r[|codes|].result.None?)
            && (forall i :: 0 <= i < |codes| - 1 ==> codes[i] == 0)
  {
    if es != [] {
      OrderlyReplay(script, es[..|es| - 1]);
    }
  }

  lemma {:induction false} OrderlyPrefix(es: seq<Event>, n: nat, k: nat)
    requires Orderly(es, n) && k <= |es|
    ensures Orderly(es[..k], n)
    decreases |es|
  {
    if k == |es| {
      assert es[..k] == es;
    } else {
      OrderlyPrefix(es[..|es| - 1], n, k);
      assert es[..|es| - 1][..k] == es[..k];
    }
  }

  /** At every moment of the run the requestor is told the command that is running, and only that. */
  lemma RunningCommandIsOpen(script: seq<Command>, es: seq<Event>, moment: nat)
    requires Orderly(es, |script|) && moment <= |es|
    ensures var seen := es[..moment];
            var running := RunningCommand(Batch(script, Replay(script, seen)));
            if Open(seen) then |Codes(seen)| < |script| && running == Some(script[|Codes(seen)|])
            else running == None
  {
    OrderlyPrefix(es, |script|, moment);
    OrderlyReplay(script, es[..moment]);
  }

  /**
   The results of a batch, stopped or while a command runs: one per finished
   command, in order; only the last can be an error, and only the last can say
   that the batch is finished, which it does exactly when the script ran out or
   failed.
   */
  lemma ResultsOfBatch(script: seq<Command>, es: seq<Event>)
    requires script != [] && Orderly(es, |script|)
    ensures var codes := Codes(es);
            var rs := Results(Batch(script, Replay(script, es)), None);
            && |rs| == |codes|
            && (forall i :: 0 <= i < |rs| ==>
                  && rs[i].index == i
                  && (rs[i].result.Error? <==> codes[i] != 0) && rs[i].message == Messages(es)[i]
                  && (rs[i].result.Error? ==> i == |rs| - 1)
                  && (rs[i].isBatchFinished <==> i == |rs| - 1 && (|rs| == |script| || codes[i] != 0)))
  {
    OrderlyReplay(script, es);
  }

  /** The output reported with a result is what the command was promised of its own writes so far. */
  lemma ResultsCarryOutput(script: seq<Command>, es: seq<Event>, i: nat)
    requires script != [] && Orderly(es, |script|) && i < |Codes(es)|
    ensures var r := Results(Batch(script, Replay(script, es)), None);
            && i < |r| && i < |script|
            && Reports(r[i].stdout, script[i], StdOut, Concat(WritesTo(es, i, StdOut)))
            && Reports(r[i].stderr, script[i], StdErr, Concat(WritesTo(es, i, StdErr)))
  {
    OrderlyReplay(script, es);
    ChannelReports(script, es, i, StdOut);
    ChannelReports(script, es, i, StdErr);
  }

  /** The output is what was promised of the bytes written, in the format asked for, or nothing if that is nothing. */
  predicate Reports(out: Option<CommandOutput>, cmd: Command, ch: Channel, written: seq<Byte>) {
    var bytes := Promised(cmd, ch, written);
    out == if bytes == [] then None else Some(CommandOutput(PromisedFormat(cmd, ch), bytes))
  }

  lemma ChannelReports(script: seq<Command>, es: seq<Event>, i: nat, ch: Channel)
    requires i < |script|
    ensures Reports(ChannelOf(script, Replay(script, es), i, ch).Output(), script[i], ch, Concat(WritesTo(es, i, ch)))
  {
    StoredAsPromised(script, es, i, ch);
    CaptureTracksWrites(script, es, i, ch);
    FreshAsAsked(script[i], ch);
  }

  // ------------------------------------------------------------------------
  // Running a batch
  // ------------------------------------------------------------------------

  class Supervisor {
    var state: StatePair
    /** The events sent for the batch being run. */
    var events: seq<Event>
    ghost var dispatched: seq<Command>

    constructor ()
      ensures Tracks(state, dispatched) && dispatched == [] && events == []
    {
      state := StatePair(Initialized, None);
      events, dispatched := [], [];
    }

    method ExecStateless(cmd: Command, o: Outcome) returns (failure: Option<Failure>)
      requires Stateless(cmd)
      modifies `state, `dispatched
      ensures state == Next(old(state), cmd, o) && failure == Result(old(state), cmd, o)
      ensures dispatched == Dispatch(old(dispatched), old(state), cmd, o)
    {
      // signing, or stopping everything else
      failure := o.failure;
      if o.meanwhile.Some? {
        state := o.meanwhile.value;
      }
      if cmd.Terminate? && failure.None? {
        state := StatePair(Initialized, None);
        dispatched := [];
      }
    }

    method ExecStateful(cmd: Command, o: Outcome) returns (failure: Option<Failure>)
      requires !Stateless(cmd)
      modifies `state, `dispatched
      ensures state == Next(old(state), cmd, o) && failure == Result(old(state), cmd, o)
      ensures dispatched == Dispatch(old(dispatched), old(state), cmd, o)
    {
      var target := Check(state, cmd);
      if target.None? {
        return Some(Other(if state.pending.Some? then "Busy" else "InvalidState"));
      }
      var statePre := StatePair(state.current, target);
      state := statePre;
      dispatched := dispatched + [cmd];

      // the command runs; its result is looked at only after the state is
      var result := o.failure;
      if o.meanwhile.Some? {
        state := o.meanwhile.value;
      }

      if state != statePre {
        return Some(Other("UnexpectedState"));
      }
      state := StatePair(target.value, None);
      failure := result;
    }

    /** Runs one command between its Started and Finished events. */
    method ExecCommand(idx: nat, command: Command, o: Outcome, ghost n: nat) returns (code: int)
      requires Orderly(events, n) && !Open(events)
      requires |Codes(events)| == idx < n && AllZero(Codes(events)) && o.Valid(idx)
      modifies this
      ensures Orderly(events, n) && !Open(events)
      ensures Codes(events) == old(Codes(events)) + [code]
      ensures Messages(events) == old(Messages(events)) + [Message(Result(old(state), command, o))]
      ensures events == old(events) + [Event(idx, Started)] + o.reported +
                        [Event(idx, Finished(code, Message(Result(old(state), command, o))))]
      ensures state == Next(old(state), command, o)
      ensures code == ReturnCode(Result(old(state), command, o))
      ensures dispatched == Dispatch(old(dispatched), old(state), command, o)
      ensures old(Tracks(state, dispatched)) && o.meanwhile.None? ==> Tracks(state, dispatched)
    {
      if Tracks(state, dispatched) && o.meanwhile.None? {
        CommandKeepsLifecycle(state, dispatched, command, o);
      }
      ghost var before := events;
      events := events + [Event(idx, Started)];
      var failure;
      if Stateless(command) {
        failure := ExecStateless(command, o);
      } else {
        failure := ExecStateful(command, o);
      }
      events := events + o.reported;
      code := ReturnCode(failure);
      events := events + [Event(idx, Finished(code, Message(failure)))];
      OrderlyRound(before, idx, o.reported, code, Message(failure), n);
    }

    /**
     Runs a script.  `trace` records the state before each command and after the
     last; `abort(i)` is whether a stop request has arrived by command `i`.
     */
    method Exec(script: seq<Command>, outcomes: nat -> Outcome, abort: nat -> bool)
      returns (trace: seq<StatePair>)
      requires events == []
      requires forall i :: 0 <= i < |script| ==> outcomes(i).Valid(i)
      modifies this
      ensures Ran(trace, events, script, outcomes, abort)
      ensures trace[0] == old(state) && trace[|trace| - 1] == state
      // only the last command can have failed
      ensures forall i :: 0 <= i < |Codes(events)| - 1 ==> Codes(events)[i] == 0
      // what is reported follows from the lifecycle and the world alone
      ensures old(Tracks(state, dispatched)) && Undisturbed(outcomes, |script|) ==>
                Tracks(state, dispatched) && RunSays(old(dispatched), script, outcomes, events)
    {
      trace := [state];
      var idx := 0;
      while idx < |script|
        invariant 0 <= idx <= |script| && Orderly(events, |script|) && !Open(events)
        invariant |Codes(events)| == idx && AllZero(Codes(events))
        invariant Traced(trace, Codes(events), Messages(events), script, outcomes, abort)
        invariant trace[0] == old(state) && trace[idx] == state
        invariant old(Tracks(state, dispatched)) && Undisturbed(outcomes, |script|) ==> Tracks(state, dispatched)
      {
        if abort(idx) {
          break;
        }
        ghost var codes, messages := Codes(events), Messages(events);
        var code := ExecCommand(idx, script[idx], outcomes(idx), |script|);
        TracedSnoc(trace, codes, messages, script, outcomes, abort, state, code,
                   Messages(events)[idx]);
        trace := trace + [state];
        idx := idx + 1;
        if code != 0 {
          break;
        }
      }
      OrderlyReplay(script, events);
      if old(Tracks(state, dispatched)) && Undisturbed(outcomes, |script|) {
        TraceSays(old(dispatched), trace, script, outcomes, abort, events);
      }
    }
  }

  /** A batch stopped: its log is orderly, and it ran to its end, a failure or a stop request. */
  predicate Ran(trace: seq<StatePair>, log: seq<Event>, script: seq<Command>,
                outcomes: nat -> Outcome, abort: nat -> bool) {
    && Orderly(log, |script|) && !Open(log)
    && Traced(trace, Codes(log), Messages(log), script, outcomes, abort)
    && var n := |Codes(log)|;
       n == |script| || abort(n) || !AllZero(Codes(log))
  }

  /** Each batch ran from the state the one before it left. */
  predicate RanInTurn(s: StatePair, traces: seq<seq<StatePair>>, t: StatePair) {
    && (forall b :: 0 <= b < |traces| ==> |traces[b]| > 0)
    && (forall b :: 0 <= b < |traces| ==> traces[b][0] == if b == 0 then s else LastOf(traces[b - 1]))
    && t == if traces == [] then s else LastOf(traces[|traces| - 1])
  }

  function LastOf(trace: seq<StatePair>): StatePair {
    if trace == [] then StatePair(New, None) else trace[|trace| - 1]
  }

  predicate AllRan(traces: seq<seq<StatePair>>, logs: seq<seq<Event>>, scripts: seq<seq<Command>>,
                   outcomes: nat -> nat -> Outcome, abort: nat -> nat -> bool) {
    && |traces| == |logs| <= |scripts|
    && forall b :: 0 <= b < |traces| ==> Ran(traces[b], logs[b], scripts[b], outcomes(b), abort(b))
  }

  lemma NextBatch(s: StatePair, t: StatePair, traces: seq<seq<StatePair>>, logs: seq<seq<Event>>,
                  scripts: seq<seq<Command>>, outcomes: nat -> nat -> Outcome, abort: nat -> nat -> bool,
                  trace: seq<StatePair>, log: seq<Event>)
    requires RanInTurn(s, traces, t) && AllRan(traces, logs, scripts, outcomes, abort)
    requires var b := |traces|;
             b < |scripts| && Ran(trace, log, scripts[b], outcomes(b), abort(b)) && trace[0] == t
    ensures RanInTurn(s, traces + [trace], trace[|trace| - 1])
    ensures AllRan(traces + [trace], logs + [log], scripts, outcomes, abort)
  {
    NextTurn(s, t, traces, trace);
    var b, ts, ls := |traces|, traces + [trace], logs + [log];
    forall k | 0 <= k < |ts|
      ensures Ran(ts[k], ls[k], scripts[k], outcomes(k), abort(k))
    {
      if k < b {
        assert ts[k] == traces[k] && ls[k] == logs[k];
      }
    }
  }

  lemma NextTurn(s: StatePair, t: StatePair, traces: seq<seq<StatePair>>, trace: seq<StatePair>)
    requires RanInTurn(s, traces, t) && trace != [] && trace[0] == t
    ensures RanInTurn(s, traces + [trace], trace[|trace| - 1])
  {
    var b, all := |traces|, traces + [trace];
    assert all[b] == trace && forall k :: 0 <= k < b ==> all[k] == traces[k];
  }

  /** Batches run one after another keep the lifecycle, whatever fails or is aborted in them. */
  method RunBatches(s: Supervisor, scripts: seq<seq<Command>>,
                    outcomes: nat -> nat -> Outcome, abort: nat -> nat -> bool)
    returns (traces: seq<seq<StatePair>>, logs: seq<seq<Event>>)
    requires Tracks(s.state, s.dispatched)
    requires forall b, i :: 0 <= b < |scripts| && 0 <= i < |scripts[b]| ==>
               outcomes(b)(i).Valid(i) && outcomes(b)(i).meanwhile.None?
    modifies s
    ensures Tracks(s.state, s.dispatched)
    ensures |traces| == |scripts| && RanInTurn(old(s.state), traces, s.state)
    ensures AllRan(traces, logs, scripts, outcomes, abort)
  {
    traces, logs := [], [];
    for b := 0 to |scripts|
      invariant Tracks(s.state, s.dispatched)
      invariant |traces| == b && RanInTurn(old(s.state), traces, s.state)
      invariant AllRan(traces, logs, scripts, outcomes, abort)
    {
      s.events := [];
      ghost var before := s.state;
      var trace := s.Exec(scripts[b], outcomes(b), abort(b));
      NextBatch(old(s.state), before, traces, logs, scripts, outcomes, abort, trace, s.events);
      traces, logs := traces + [trace], logs + [s.events];
    }
  }

  /** Each command ran from the state its predecessor left, unless a stop request came first. */
  predicate Traced(trace: seq<StatePair>, codes: seq<int>, messages: seq<Option<string>>, script: seq<Command>,
                   outcomes: nat -> Outcome, abort: nat -> bool) {
    && |trace| == |codes| + 1 && |codes| == |messages| <= |script|
    && forall i :: 0 <= i < |codes| ==>
         && !abort(i)
         && trace[i + 1] == Next(trace[i], script[i], outcomes(i))
         && codes[i] == ReturnCode(Result(trace[i], script[i], outcomes(i)))
         && messages[i] == Message(Result(trace[i], script[i], outcomes(i)))
  }

  lemma TracedSnoc(trace: seq<StatePair>, codes: seq<int>, messages: seq<Option<string>>, script: seq<Command>,
                   outcomes: nat -> Outcome, abort: nat -> bool, s: StatePair, code: int, message: Option<string>)
    requires Traced(trace, codes, messages, script, outcomes, abort)
    requires |codes| < |script| && !abort(|codes|)
    requires s == Next(trace[|codes|], script[|codes|], outcomes(|codes|))
    requires code == ReturnCode(Result(trace[|codes|], script[|codes|], outcomes(|codes|)))
    requires message == Message(Result(trace[|codes|], script[|codes|], outcomes(|codes|)))
    ensures Traced(trace + [s], codes + [code], messages + [message], script, outcomes, abort)
  {
  }

  /** The lifecycle's commands after the first `n` of a script. */
  function ProgressOf(d: seq<Command>, script: seq<Command>, outcomes: nat -> Outcome, n: nat): seq<Command>
    requires n <= |script|
  {
    if n == 0 then d else Progress(ProgressOf(d, script, outcomes, n - 1), script[n - 1], outcomes(n - 1))
  }

  /** Every Finished event says what the lifecycle and the world make of its command. */
  ghost predicate RunSays(d: seq<Command>, script: seq<Command>, outcomes: nat -> Outcome, log: seq<Event>) {
    && |Codes(log)| <= |script|
    && forall i :: 0 <= i < |Codes(log)| ==>
         Says(ProgressOf(d, script, outcomes, i), script[i], outcomes(i), Codes(log)[i], Messages(log)[i])
  }

  lemma {:induction false} TraceTracks(d: seq<Command>, trace: seq<StatePair>, script: seq<Command>,
                                       outcomes: nat -> Outcome, abort: nat -> bool, log: seq<Event>, n: nat)
    requires Traced(trace, Codes(log), Messages(log), script, outcomes, abort) && Tracks(trace[0], d)
    requires Undisturbed(outcomes, |script|) && n <= |Codes(log)|
    ensures Tracks(trace[n], ProgressOf(d, script, outcomes, n))
  {
    if n > 0 {
      TraceTracks(d, trace, script, outcomes, abort, log, n - 1);
      var before := ProgressOf(d, script, outcomes, n - 1);
      CommandSays(trace[n - 1], before, script[n - 1], outcomes(n - 1));
      CommandKeepsLifecycle(trace[n - 1], before, script[n - 1], outcomes(n - 1));
      assert trace[n - 1 + 1] == Next(trace[n - 1], script[n - 1], outcomes(n - 1));
    }
  }

  lemma TraceSays(d: seq<Command>, trace: seq<StatePair>, script: seq<Command>,
                  outcomes: nat -> Outcome, abort: nat -> bool, log: seq<Event>)
    requires Traced(trace, Codes(log), Messages(log), script, outcomes, abort) && Tracks(trace[0], d)
    requires Undisturbed(outcomes, |script|)
    ensures RunSays(d, script, outcomes, log)
  {
    forall i | 0 <= i < |Codes(log)|
      ensures Says(ProgressOf(d, script, outcomes, i), script[i], outcomes(i), Codes(log)[i], Messages(log)[i])
    {
      TraceTracks(d, trace, script, outcomes, abort, log, i);
      CommandSays(trace[i], ProgressOf(d, script, outcomes, i), script[i], outcomes(i));
    }
  }

  /** Batches run one after another: nobody else sets the state during a command. */
  predicate Undisturbed(outcomes: nat -> Outcome, n: nat) {
    forall i :: 0 <= i < n ==> outcomes(i).meanwhile.None?
  }

  /** A command's events continue an orderly log. */
  lemma OrderlyRound(es: seq<Event>, idx: nat, reported: seq<Event>, code: int, message: Option<string>, n: nat)
    requires Orderly(es, n) && !Open(es) && |Codes(es)| == idx < n && AllZero(Codes(es))
    requires forall i :: 0 <= i < |reported| ==>
               reported[i].index <= idx && (reported[i].kind.Wrote? || reported[i].kind.Progress?)
    ensures var all := es + [Event(idx, Started)] + reported + [Event(idx, Finished(code, message))];
            && Orderly(all, n) && !Open(all)
            && Codes(all) == Codes(es) + [code] && Messages(all) == Messages(es) + [message]
  {
    var started := es + [Event(idx, Started)];
    AppendOne(es, Event(idx, Started));
    AppendReports(started, reported, idx, n);
    AppendOne(started + reported, Event(idx, Finished(code, message)));
  }

  lemma AppendOne(es: seq<Event>, e: Event)
    ensures (es + [e])[..|es|] == es
  {
  }

  lemma {:induction false} AppendReports(es: seq<Event>, reports: seq<Event>, idx: nat, n: nat)
    requires Orderly(es, n) && Open(es) && |Codes(es)| == idx
    requires forall i :: 0 <= i < |reports| ==>
               reports[i].index <= idx && (reports[i].kind.Wrote? || reports[i].kind.Progress?)
    ensures Orderly(es + reports, n) && Open(es + reports)
    ensures Codes(es + reports) == Codes(es) && Messages(es + reports) == Messages(es)
    decreases |reports|
  {
    if reports == [] {
      assert es + reports == es;
    } else {
      var before := reports[..|reports| - 1];
      AppendReports(es, before, idx, n);
      assert (es + reports)[..|es + reports| - 1] == es + before;
    }
  }
}
