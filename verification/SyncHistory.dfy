/**
 Histories of payment documents and their marks: messages are built, acknowledged
 and cleared one document at a time, while documents go on being accepted,
 rejected, settled and marked in between (core/payment/src/payment_sync.rs and the
 marking operations of core/payment/src/dao).
 */
module SyncHistory {
  import opened Common
  import opened PaymentSync

  /**
   What can happen.  A message is built at `Send`; its reply changes nothing, so
   whatever happens until the marks are cleared comes between `Send` and `ClearOne`.
   */
  datatype Step =
    | SetMark(doc: Doc)
    | ChangeStore(store: Store)
    | Send(owner: string, peer: string, docs: seq<Doc>, acked: bool)
    | ClearOne(doc: Doc)

  /** `told`: the documents of the last message, if it was acknowledged. */
  datatype World = World(st: Store, marks: set<Doc>, told: set<Doc>)

  predicate Possible(w: World, s: Step) {
    match s
    case Send(owner, peer, docs, _) => Spells(docs, Message(w.st, w.marks, owner, peer))
    case ClearOne(d) => d in w.told
    case _ => true
  }

  function Next(w: World, s: Step): World {
    match s
    case SetMark(d) => w.(marks := w.marks + {d})
    case ChangeStore(st) => w.(st := st)
    case Send(_, _, docs, acked) => w.(told := if acked then Docs(docs) else {})
    case ClearOne(d) => w.(marks := Clear(w.st, w.marks, d))
  }

  function Docs(docs: seq<Doc>): set<Doc> {
    set d | d in docs
  }

  /** The world after the first `n` steps. */
  function After(w: World, steps: seq<Step>, n: nat): World
    requires n <= |steps|
  {
    if n == 0 then w else Next(After(w, steps, n - 1), steps[n - 1])
  }

  predicate PossibleAt(w: World, steps: seq<Step>, i: nat)
    requires i < |steps|
  {
    Possible(After(w, steps, i), steps[i])
  }

  ghost predicate History(w: World, steps: seq<Step>) {
    forall i :: 0 <= i < |steps| ==> PossibleAt(w, steps, i)
  }

  /** A step takes away marks only of documents the peer has just been told. */
  predicate Honest(w: World, s: Step) {
    w.marks - Next(w, s).marks <= w.told
  }

  predicate HonestAt(w: World, steps: seq<Step>, i: nat)
    requires i < |steps|
  {
    Honest(After(w, steps, i), steps[i])
  }

  ghost predicate AllHonest(w: World, steps: seq<Step>) {
    forall i :: 0 <= i < |steps| ==> HonestAt(w, steps, i)
  }

  // ------------------------------------------------------------------------
  // What clearing one document takes
  // ------------------------------------------------------------------------

  predicate Precedes(st: Store, b: DocKey, a: DocKey) {
    a in st.notes && st.notes[a].previous == Some(b.id) && b.owner == a.owner
  }

  /** Marked debit notes, each followed by the one before it. */
  predicate Path(st: Store, marks: set<Doc>, path: seq<DocKey>) {
    && path != [] && NoteAccepted(path[0]) in marks
    && (|path| == 1 || (Precedes(st, path[1], path[0]) && Path(st, marks, path[1..])))
  }

  ghost predicate Leads(st: Store, marks: set<Doc>, a: DocKey, b: DocKey) {
    exists path :: Path(st, marks, path) && path[0] == a && path[|path| - 1] == b
  }

  /**
   The marks that go with `d`: of every payment made as requestor under the same
   id, of the invoice itself, of every debit note that marked notes lead to.
   */
  ghost predicate Takes(st: Store, marks: set<Doc>, d: Doc, e: Doc) {
    match d
    case Paid(k) => e.Paid? && e.pay.id == k.id && e.pay in st.payments && st.payments[e.pay]
    case NoteAccepted(k) => e.NoteAccepted? && Leads(st, marks, k, e.key)
    case _ => e == d
  }

  lemma {:induction false} PathGrows(st: Store, marks: set<Doc>, more: set<Doc>, path: seq<DocKey>)
    requires marks <= more && Path(st, marks, path)
    ensures Path(st, more, path)
    decreases |path|
  {
    if |path| > 1 {
      PathGrows(st, marks, more, path[1..]);
    }
  }

  /** A mark cleared by the walk lies on a path. */
  lemma {:induction false} ClearedIsLedTo(st: Store, marks: set<Doc>, k: DocKey, e: DocKey)
    requires NoteAccepted(e) in marks - ClearNotes(st, marks, k)
    ensures Leads(st, marks, k, e)
    decreases |marks|
  {
    if e == k {
      assert Path(st, marks, [k]) && [k][|[k]| - 1] == e;
    } else {
      var p, rest := DocKey(st.notes[k].previous.value, k.owner), marks - {NoteAccepted(k)};
      ClearedIsLedTo(st, rest, p, e);
      var path :| Path(st, rest, path) && path[0] == p && path[|path| - 1] == e;
      PathGrows(st, rest, marks, path);
      var longer := [k] + path;
      assert longer[1..] == path && Path(st, marks, longer);
      assert longer[|longer| - 1] == e;
    }
  }

  /** The walk clears all of a path that starts on a mark it clears. */
  lemma {:induction false} PathIsCleared(st: Store, marks: set<Doc>, m: set<Doc>, path: seq<DocKey>)
    requires Path(st, marks, path) && NoteAccepted(path[0]) !in m && DraggedAlong(st, marks, m)
    ensures NoteAccepted(path[|path| - 1]) in marks && NoteAccepted(path[|path| - 1]) !in m
    decreases |path|
  {
    if |path| > 1 {
      assert Drags(st, NoteAccepted(path[0]), NoteAccepted(path[1]));
      PathIsCleared(st, marks, m, path[1..]);
    }
  }

  /** Clearing a document takes exactly those marks. */
  lemma ClearTakes(st: Store, marks: set<Doc>, d: Doc, e: Doc)
    requires e in marks
    ensures e !in Clear(st, marks, d) <==> Takes(st, marks, d, e)
  {
    match d
    case NoteAccepted(k) =>
      if !e.NoteAccepted? {
        NotesOnlyNotes(st, marks, k, e);
      } else if e !in ClearNotes(st, marks, k) {
        ClearedIsLedTo(st, marks, k, e.key);
      } else if Leads(st, marks, k, e.key) {
        var path :| Path(st, marks, path) && path[0] == k && path[|path| - 1] == e.key;
        NotesDrag(st, marks, k);
        PathIsCleared(st, marks, ClearNotes(st, marks, k), path);
      }
    case _ =>
  }

  /** All that is taken with the document was told with it. */
  ghost predicate Contained(w: World, s: Step) {
    s.ClearOne? ==> forall e :: e in w.marks && Takes(w.st, w.marks, s.doc, e) ==> e in w.told
  }

  /** A step is honest exactly when it takes nothing but what was told, whatever happened since. */
  lemma HonestIffContained(w: World, s: Step)
    ensures Honest(w, s) <==> Contained(w, s)
  {
    if s.ClearOne? {
      forall e | e in w.marks
        ensures e in w.marks - Next(w, s).marks <==> Takes(w.st, w.marks, s.doc, e)
      {
        ClearTakes(w.st, w.marks, s.doc, e);
      }
    }
  }

  // ------------------------------------------------------------------------
  // Every history
  // ------------------------------------------------------------------------

  /** The last message sent before step `i` was acknowledged and had `d` in it. */
  ghost predicate ToldBefore(steps: seq<Step>, i: nat, d: Doc)
    requires i <= |steps|
  {
    exists j :: 0 <= j < i && steps[j].Send? && steps[j].acked && d in steps[j].docs && NoneSent(steps, j, i)
  }

  /** Nothing is sent strictly between steps `j` and `i`. */
  predicate NoneSent(steps: seq<Step>, j: nat, i: nat)
    requires i <= |steps|
  {
    forall k :: j < k < i ==> !steps[k].Send?
  }

  lemma {:induction false} ToldIsAcked(w: World, steps: seq<Step>, i: nat, d: Doc)
    requires w.told == {} && i <= |steps|
    ensures d in After(w, steps, i).told <==> ToldBefore(steps, i, d)
  {
    if i > 0 {
      ToldIsAcked(w, steps, i - 1, d);
      if steps[i - 1].Send? {
        assert NoneSent(steps, i - 1, i);
        assert forall j :: 0 <= j < i - 1 ==> !NoneSent(steps, j, i);
      } else {
        assert forall j :: 0 <= j < i - 1 ==> (NoneSent(steps, j, i) <==> NoneSent(steps, j, i - 1));
      }
    }
  }

  /**
   In every history, at every step that takes away a mark: the peer had
   acknowledged a message with that document, the last one sent, provided the
   document being cleared takes nothing but what that message told.
   */
  lemma MarksGoOnlyAfterAck(w: World, steps: seq<Step>, i: nat, d: Doc)
    requires w.told == {} && History(w, steps) && i < |steps| && Contained(After(w, steps, i), steps[i])
    requires d in After(w, steps, i).marks - After(w, steps, i + 1).marks
    ensures ToldBefore(steps, i, d)
  {
    HonestIffContained(After(w, steps, i), steps[i]);
    ToldIsAcked(w, steps, i, d);
  }

  /** And where that does not hold, some mark goes whose document was not in the last message. */
  lemma OtherwiseMarksGoUntold(w: World, steps: seq<Step>, i: nat)
    requires w.told == {} && History(w, steps) && i < |steps| && !Contained(After(w, steps, i), steps[i])
    ensures exists d :: d in After(w, steps, i).marks - After(w, steps, i + 1).marks && !ToldBefore(steps, i, d)
  {
    var now := After(w, steps, i);
    HonestIffContained(now, steps[i]);
    var d :| d in now.marks - After(w, steps, i + 1).marks && d !in now.told;
    ToldIsAcked(w, steps, i, d);
  }

  // ------------------------------------------------------------------------
  // Histories whose deliveries are not disturbed
  // ------------------------------------------------------------------------

  /** A whole delivery, or something that happens between two of them. */
  datatype Event = MarkSet(doc: Doc) | StoreChanged(store: Store) | Delivered(dl: Delivery)

  function ClearSteps(docs: seq<Doc>): (steps: seq<Step>)
    ensures |steps| == |docs|
  {
    seq(|docs|, i requires 0 <= i < |docs| => ClearOne(docs[i]))
  }

  function StepsOf(e: Event): seq<Step>
    requires e.Delivered? ==> e.dl.cleared <= |e.dl.docs|
  {
    match e
    case MarkSet(d) => [SetMark(d)]
    case StoreChanged(st) => [ChangeStore(st)]
    case Delivered(dl) =>
      [Send(dl.owner, dl.peer, dl.docs, dl.acked)] + if dl.acked then ClearSteps(dl.docs[..dl.cleared]) else []
  }

  function StoreAfter(st: Store, e: Event): Store {
    if e.StoreChanged? then e.store else st
  }

  function MarksAfter(st: Store, marks: set<Doc>, e: Event): set<Doc>
    requires e.Delivered? ==> e.dl.cleared <= |e.dl.docs|
  {
    match e
    case MarkSet(d) => marks + {d}
    case StoreChanged(_) => marks
    case Delivered(dl) => Deliver(st, marks, dl)
  }

  predicate ValidEvent(st: Store, marks: set<Doc>, e: Event) {
    e.Delivered? ==> Valid(st, marks, e.dl)
  }

  /** Each message is built from the documents and marks of its moment. */
  predicate ValidEvents(st: Store, marks: set<Doc>, events: seq<Event>)
    decreases |events|
  {
    events == [] ||
    (ValidEvent(st, marks, events[0])
     && ValidEvents(StoreAfter(st, events[0]), MarksAfter(st, marks, events[0]), events[1..]))
  }

  function Expand(st: Store, marks: set<Doc>, events: seq<Event>): seq<Step>
    requires ValidEvents(st, marks, events)
    decreases |events|
  {
    if events == [] then []
    else StepsOf(events[0]) + Expand(StoreAfter(st, events[0]), MarksAfter(st, marks, events[0]), events[1..])
  }

  /** At the moment it is sent, no acknowledged message drags anything along. */
  predicate ClosedWhenSent(st: Store, marks: set<Doc>, events: seq<Event>)
    requires ValidEvents(st, marks, events)
    decreases |events|
  {
    events == [] ||
    (ClosedAt(st, marks, events[0])
     && ClosedWhenSent(StoreAfter(st, events[0]), MarksAfter(st, marks, events[0]), events[1..]))
  }

  predicate ClosedAt(st: Store, marks: set<Doc>, e: Event) {
    e.Delivered? && e.dl.acked ==> Closed(st, marks, e.dl.owner, e.dl.peer)
  }

  /** The database failed during no delivery. */
  predicate Complete(e: Event) {
    e.Delivered? && e.dl.acked ==> e.dl.cleared == |e.dl.docs|
  }

  lemma {:induction false} AfterPrefix(w: World, a: seq<Step>, b: seq<Step>, n: nat)
    requires n <= |a|
    ensures After(w, a + b, n) == After(w, a, n)
  {
    if n > 0 {
      AfterPrefix(w, a, b, n - 1);
    }
  }

  lemma {:induction false} AfterAppend(w: World, a: seq<Step>, b: seq<Step>, n: nat)
    requires n <= |b|
    ensures After(w, a + b, |a| + n) == After(After(w, a, |a|), b, n)
  {
    if n == 0 {
      AfterPrefix(w, a, b, |a|);
    } else {
      AfterAppend(w, a, b, n - 1);
    }
  }

  lemma StepAt(w: World, a: seq<Step>, b: seq<Step>, i: nat)
    requires i < |a + b|
    ensures i < |a| ==> PossibleAt(w, a + b, i) == PossibleAt(w, a, i) && HonestAt(w, a + b, i) == HonestAt(w, a, i)
    ensures i >= |a| ==>
              var m := After(w, a, |a|);
              && PossibleAt(w, a + b, i) == PossibleAt(m, b, i - |a|)
              && HonestAt(w, a + b, i) == HonestAt(m, b, i - |a|)
  {
    if i < |a| {
      AfterPrefix(w, a, b, i);
    } else {
      AfterAppend(w, a, b, i - |a|);
    }
  }

  /** A history goes on as a history from where it has got to. */
  lemma HistoryAppend(w: World, a: seq<Step>, b: seq<Step>)
    ensures var m := After(w, a, |a|);
            && After(w, a + b, |a + b|) == After(m, b, |b|)
            && (History(w, a + b) <==> History(w, a) && History(m, b))
            && (AllHonest(w, a + b) <==> AllHonest(w, a) && AllHonest(m, b))
  {
    var m, all := After(w, a, |a|), a + b;
    AfterAppend(w, a, b, |b|);
    forall i | 0 <= i < |all|
      ensures if i < |a| then PossibleAt(w, all, i) == PossibleAt(w, a, i) && HonestAt(w, all, i) == HonestAt(w, a, i)
              else PossibleAt(w, all, i) == PossibleAt(m, b, i - |a|) && HonestAt(w, all, i) == HonestAt(m, b, i - |a|)
    {
      StepAt(w, a, b, i);
    }
    forall i | 0 <= i < |b|
      ensures PossibleAt(w, all, |a| + i) == PossibleAt(m, b, i) && HonestAt(w, all, |a| + i) == HonestAt(m, b, i)
    {
      StepAt(w, a, b, |a| + i);
    }
  }

  lemma OneStep(w: World, s: Step)
    ensures After(w, [s], 1) == Next(w, s)
    ensures (History(w, [s]) <==> Possible(w, s)) && (AllHonest(w, [s]) <==> Honest(w, s))
  {
    assert After(w, [s], 0) == w;
    assert (PossibleAt(w, [s], 0) <==> Possible(w, s)) && (HonestAt(w, [s], 0) <==> Honest(w, s));
  }

  lemma OneMoreStep(w: World, steps: seq<Step>, s: Step)
    ensures var m := After(w, steps, |steps|);
            && After(w, steps + [s], |steps + [s]|) == Next(m, s)
            && (History(w, steps + [s]) <==> History(w, steps) && Possible(m, s))
            && (AllHonest(w, steps + [s]) <==> AllHonest(w, steps) && Honest(m, s))
  {
    HistoryAppend(w, steps, [s]);
    OneStep(After(w, steps, |steps|), s);
  }

  lemma ClearStepsSnoc(docs: seq<Doc>, d: Doc)
    ensures ClearSteps(docs + [d]) == ClearSteps(docs) + [ClearOne(d)]
  {
  }

  /** Clearing a message's documents one by one leaves what clearing them all does. */
  lemma {:induction false} ClearingSteps(w: World, docs: seq<Doc>)
    requires forall i :: 0 <= i < |docs| ==> docs[i] in w.told
    ensures History(w, ClearSteps(docs))
    ensures After(w, ClearSteps(docs), |docs|) == w.(marks := ClearAll(w.st, w.marks, docs))
    ensures AllHonest(w, ClearSteps(docs)) <==> w.marks - ClearAll(w.st, w.marks, docs) <= w.told
  {
    if docs != [] {
      var before, d := docs[..|docs| - 1], docs[|docs| - 1];
      ClearingSteps(w, before);
      assert docs == before + [d];
      ClearStepsSnoc(before, d);
      OneMoreStep(w, ClearSteps(before), ClearOne(d));
    }
  }

  /** A delivery, taken as its steps. */
  lemma DeliverySteps(w: World, dl: Delivery)
    requires Valid(w.st, w.marks, dl)
    ensures var steps, m := StepsOf(Delivered(dl)), Deliver(w.st, w.marks, dl);
            && History(w, steps)
            && After(w, steps, |steps|) == World(w.st, m, if dl.acked then Docs(dl.docs) else {})
            && (AllHonest(w, steps) <==> w.marks - m <= Message(w.st, w.marks, dl.owner, dl.peer))
  {
    var send := Send(dl.owner, dl.peer, dl.docs, dl.acked);
    OneStep(w, send);
    if dl.acked {
      AckedSteps(w, dl);
    } else {
      Alone([send]);
    }
  }

  lemma AckedSteps(w: World, dl: Delivery)
    requires Valid(w.st, w.marks, dl) && dl.acked
    ensures var steps, m := StepsOf(Delivered(dl)), Deliver(w.st, w.marks, dl);
            && History(w, steps) && After(w, steps, |steps|) == World(w.st, m, Docs(dl.docs))
            && (AllHonest(w, steps) <==> w.marks - m <= Message(w.st, w.marks, dl.owner, dl.peer))
  {
    var send, docs := Send(dl.owner, dl.peer, dl.docs, true), dl.docs[..dl.cleared];
    OneStep(w, send);
    HistoryAppend(w, [send], ClearSteps(docs));
    assert Docs(dl.docs) == Message(w.st, w.marks, dl.owner, dl.peer);
    ClearingSteps(Next(w, send), docs);
  }

  /** A delivery is honest if its message is closed when sent, and only then if it runs to its end. */
  lemma DeliveryHonest(w: World, dl: Delivery)
    requires Valid(w.st, w.marks, dl)
    ensures ClosedAt(w.st, w.marks, Delivered(dl)) ==> AllHonest(w, StepsOf(Delivered(dl)))
    ensures Complete(Delivered(dl)) && AllHonest(w, StepsOf(Delivered(dl))) ==> ClosedAt(w.st, w.marks, Delivered(dl))
  {
    DeliverySteps(w, dl);
    if dl.acked {
      if Closed(w.st, w.marks, dl.owner, dl.peer) {
        ClearStaysInside(w.st, w.marks, dl.docs[..dl.cleared], Message(w.st, w.marks, dl.owner, dl.peer));
      }
      if dl.cleared == |dl.docs| {
        assert dl.docs[..dl.cleared] == dl.docs;
        AckClearsOnlyMessage(w.st, w.marks, dl.owner, dl.peer, dl.docs);
      }
    }
  }

  lemma EventSteps(w: World, e: Event)
    requires ValidEvent(w.st, w.marks, e)
    ensures var steps := StepsOf(e);
            && History(w, steps)
            && After(w, steps, |steps|).st == StoreAfter(w.st, e)
            && After(w, steps, |steps|).marks == MarksAfter(w.st, w.marks, e)
            && (ClosedAt(w.st, w.marks, e) ==> AllHonest(w, steps))
            && (Complete(e) && AllHonest(w, steps) ==> ClosedAt(w.st, w.marks, e))
  {
    match e
    case MarkSet(d) => OneStep(w, SetMark(d));
    case StoreChanged(st) => OneStep(w, ChangeStore(st));
    case Delivered(dl) =>
      DeliverySteps(w, dl);
      DeliveryHonest(w, dl);
  }

  /**
   Deliveries with documents accepted, changed and marked between them, in any
   number and order: no mark goes untold if every acknowledged message is closed
   at the moment it is sent, and only then unless the database fails during one.
   */
  lemma {:induction false} DeliveriesHonest(w: World, events: seq<Event>)
    requires ValidEvents(w.st, w.marks, events)
    ensures var steps := Expand(w.st, w.marks, events);
            && History(w, steps)
            && (ClosedWhenSent(w.st, w.marks, events) ==> AllHonest(w, steps))
            && ((forall i :: 0 <= i < |events| ==> Complete(events[i])) && AllHonest(w, steps) ==>
                  ClosedWhenSent(w.st, w.marks, events))
    decreases |events|
  {
    if events != [] {
      var first := StepsOf(events[0]);
      var now := After(w, first, |first|);
      EventSteps(w, events[0]);
      DeliveriesHonest(now, events[1..]);
      HistoryAppend(w, first, Expand(now.st, now.marks, events[1..]));
    }
  }

  /** Marks closed at the start say nothing of later messages: accepting the next note reopens them. */
  lemma MarkingReopens()
    ensures var first, second := DocKey("note-1", "me"), DocKey("note-2", "me");
            var notes := map[first := Note("peer", Settled, None), second := Note("peer", Accepted, Some("note-1"))];
            var st, marks := Store(map[], map[], notes), {NoteAccepted(first)};
            && (forall owner, peer :: Closed(st, marks, owner, peer))
            && !Closed(st, Next(World(st, marks, {}), SetMark(NoteAccepted(second))).marks, "me", "peer")
  {
    var first, second := DocKey("note-1", "me"), DocKey("note-2", "me");
    var notes := map[first := Note("peer", Settled, None), second := Note("peer", Accepted, Some("note-1"))];
    var st, marks := Store(map[], map[], notes), {NoteAccepted(first), NoteAccepted(second)};
    assert Next(World(st, {NoteAccepted(first)}, {}), SetMark(NoteAccepted(second))).marks == marks;
    assert Drags(st, NoteAccepted(second), NoteAccepted(first));
    assert NoteAccepted(second) in Message(st, marks, "me", "peer");
    assert NoteAccepted(first) !in Message(st, marks, "me", "peer");
  }

  /** The messages of a job as events. */
  function AsEvents(run: seq<Delivery>): (events: seq<Event>)
    ensures |events| == |run|
  {
    seq(|run|, i requires 0 <= i < |run| => Delivered(run[i]))
  }

  /** A job's run, between whatever else happens, is such a history. */
  lemma {:induction false} JobIsHistory(w: World, run: seq<Delivery>)
    requires ValidRun(w.st, w.marks, run)
    ensures ValidEvents(w.st, w.marks, AsEvents(run))
    ensures var steps := Expand(w.st, w.marks, AsEvents(run));
            && History(w, steps)
            && After(w, steps, |steps|).st == w.st && After(w, steps, |steps|).marks == AfterRun(w.st, w.marks, run)
    decreases |run|
  {
    if run != [] {
      var first := StepsOf(Delivered(run[0]));
      var now := After(w, first, |first|);
      DeliverySteps(w, run[0]);
      JobIsHistory(now, run[1..]);
      assert AsEvents(run)[1..] == AsEvents(run[1..]);
      var rest := Expand(now.st, now.marks, AsEvents(run[1..]));
      HistoryAppend(w, first, rest);
    }
  }
}
