/**
 Synchronisation of payment documents with peers (core/payment/src/payment_sync.rs
 and the marking operations of core/payment/src/dao): unsent marks are collected
 into a message per identity and peer, and cleared when the peer acknowledges it.
 */
module PaymentSync {
  import opened Common

  datatype PayKey = PayKey(id: string, owner: string, peer: string)
  datatype DocKey = DocKey(id: string, owner: string)

  datatype Status = Issued | Received | Accepted | Rejected | Failed | Settled | Cancelled

  datatype Invoice = Invoice(peer: string, status: Status, rejectionEvent: bool)
  datatype Note = Note(peer: string, status: Status, previous: Option<string>)

  /** The stored documents; a payment is listed with whether it was made as requestor. */
  datatype Store = Store(payments: map<PayKey, bool>, invoices: map<DocKey, Invoice>, notes: map<DocKey, Note>)

  /** A document with something still to tell the peer. */
  datatype Doc =
    | Paid(pay: PayKey)
    | InvoiceAccepted(key: DocKey)
    | InvoiceRejected(key: DocKey)
    | NoteAccepted(key: DocKey)

  /** The document is stored. */
  predicate Known(st: Store, d: Doc) {
    match d
    case Paid(k) => k in st.payments
    case InvoiceAccepted(k) => k in st.invoices
    case InvoiceRejected(k) => k in st.invoices
    case NoteAccepted(k) => k in st.notes
  }

  // ------------------------------------------------------------------------
  // The message
  // ------------------------------------------------------------------------

  /** The queries for unsent documents of `owner` for `peer`. */
  predicate Listed(st: Store, d: Doc, owner: string, peer: string) {
    && Known(st, d)
    && match d
       case Paid(k) => k.owner == owner && k.peer == peer
       case InvoiceAccepted(k) =>
         && k.owner == owner && st.invoices[k].peer == peer
         && (st.invoices[k].status.Accepted? || st.invoices[k].status.Settled?)
       case InvoiceRejected(k) =>
         && k.owner == owner && st.invoices[k].peer == peer && st.invoices[k].status.Rejected?
         && st.invoices[k].rejectionEvent
       case NoteAccepted(k) =>
         k.owner == owner && st.notes[k].peer == peer && st.notes[k].status.Accepted?
  }

  /** The marked documents that go into the message. */
  function Message(st: Store, marks: set<Doc>, owner: string, peer: string): set<Doc> {
    set d | d in marks && Listed(st, d, owner, peer)
  }

  function OwnerOf(d: Doc): string {
    if d.Paid? then d.pay.owner else d.key.owner
  }

  /** Whom the document concerns. */
  function PeerOf(st: Store, d: Doc): string
    requires Known(st, d)
  {
    match d
    case Paid(k) => k.peer
    case InvoiceAccepted(k) => st.invoices[k].peer
    case InvoiceRejected(k) => st.invoices[k].peer
    case NoteAccepted(k) => st.notes[k].peer
  }

  /** There is something to tell: a payment; an acceptance that stands; a rejection whose reason is known. */
  predicate Tellable(st: Store, d: Doc)
    requires Known(st, d)
  {
    match d
    case Paid(_) => true
    case InvoiceAccepted(k) => st.invoices[k].status in {Accepted, Settled}
    case InvoiceRejected(k) => st.invoices[k].status == Rejected && st.invoices[k].rejectionEvent
    case NoteAccepted(k) => st.notes[k].status == Accepted
  }

  /** A marked document with something to tell is in one message, its owner's to its peer; others are in none. */
  lemma InItsMessageOnly(st: Store, marks: set<Doc>, d: Doc, owner: string, peer: string)
    ensures d in Message(st, marks, owner, peer) <==>
            d in marks && Known(st, d) && Tellable(st, d) && owner == OwnerOf(d) && peer == PeerOf(st, d)
  {
  }

  // ------------------------------------------------------------------------
  // Clearing marks
  // ------------------------------------------------------------------------

  /** A debit note's mark is cleared together with those of its predecessors, up to the first one already clear. */
  function ClearNotes(st: Store, marks: set<Doc>, k: DocKey): (m: set<Doc>)
    ensures m <= marks && NoteAccepted(k) !in m
    decreases |marks|
  {
    if NoteAccepted(k) !in marks then marks
    else
      var rest := marks - {NoteAccepted(k)};
      if k in st.notes && st.notes[k].previous.Some?
      then ClearNotes(st, rest, DocKey(st.notes[k].previous.value, k.owner))
      else rest
  }

  /** A payment's mark is cleared by id alone, for every payment made as requestor. */
  function ClearPayments(st: Store, marks: set<Doc>, id: string): set<Doc> {
    set d | d in marks && !(d.Paid? && d.pay.id == id && d.pay in st.payments && st.payments[d.pay])
  }

  function Clear(st: Store, marks: set<Doc>, d: Doc): (m: set<Doc>)
    ensures m <= marks
  {
    match d
    case Paid(k) => ClearPayments(st, marks, k.id)
    case InvoiceAccepted(_) => marks - {d}
    case InvoiceRejected(_) => marks - {d}
    case NoteAccepted(k) => ClearNotes(st, marks, k)
  }

  function ClearAll(st: Store, marks: set<Doc>, docs: seq<Doc>): (m: set<Doc>)
    ensures m <= marks
  {
    if docs == [] then marks else Clear(st, ClearAll(st, marks, docs[..|docs| - 1]), docs[|docs| - 1])
  }

  /** Documents whose marks are cleared because of `d`, besides `d` itself. */
  predicate Drags(st: Store, d: Doc, e: Doc) {
    match d
    case Paid(k) => e.Paid? && e.pay.id == k.id && e.pay in st.payments && st.payments[e.pay]
    case NoteAccepted(k) =>
      k in st.notes && st.notes[k].previous.Some? && e == NoteAccepted(DocKey(st.notes[k].previous.value, k.owner))
    case _ => false
  }

  /** Whatever a message drags along is in the message. */
  predicate Closed(st: Store, marks: set<Doc>, owner: string, peer: string) {
    forall d, e :: d in Message(st, marks, owner, peer) && e in marks && Drags(st, d, e) ==>
      e in Message(st, marks, owner, peer)
  }

  lemma {:induction false} NotesStayInside(st: Store, marks: set<Doc>, k: DocKey, s: set<Doc>)
    requires NoteAccepted(k) in marks ==> NoteAccepted(k) in s
    requires forall d, e :: d in s && e in marks && Drags(st, d, e) ==> e in s
    ensures marks - ClearNotes(st, marks, k) <= s
    decreases |marks|
  {
    if NoteAccepted(k) in marks && k in st.notes && st.notes[k].previous.Some? {
      var p := DocKey(st.notes[k].previous.value, k.owner);
      assert Drags(st, NoteAccepted(k), NoteAccepted(p));
      NotesStayInside(st, marks - {NoteAccepted(k)}, p, s);
    }
  }

  /** Clearing the marks of closed documents clears no others. */
  lemma {:induction false} ClearStaysInside(st: Store, marks: set<Doc>, docs: seq<Doc>, s: set<Doc>)
    requires forall i :: 0 <= i < |docs| ==> docs[i] in s
    requires forall d, e :: d in s && e in marks && Drags(st, d, e) ==> e in s
    ensures marks - ClearAll(st, marks, docs) <= s
  {
    if docs != [] {
      var before, d := docs[..|docs| - 1], docs[|docs| - 1];
      ClearStaysInside(st, marks, before, s);
      var m := ClearAll(st, marks, before);
      if d.NoteAccepted? {
        NotesStayInside(st, m, d.key, s);
      }
    }
  }

  /** Once a document is cleared, everything it drags along is. */
  ghost predicate DraggedAlong(st: Store, marks: set<Doc>, m: set<Doc>) {
    forall d, e :: d in marks - m && d.NoteAccepted? && Drags(st, d, e) ==> e !in m
  }

  lemma {:induction false} NotesDrag(st: Store, marks: set<Doc>, k: DocKey)
    ensures DraggedAlong(st, marks, ClearNotes(st, marks, k))
    decreases |marks|
  {
    if NoteAccepted(k) in marks && k in st.notes && st.notes[k].previous.Some? {
      NotesDrag(st, marks - {NoteAccepted(k)}, DocKey(st.notes[k].previous.value, k.owner));
    }
  }

  lemma {:induction false} ClearDrags(st: Store, marks: set<Doc>, docs: seq<Doc>, d: Doc, e: Doc)
    requires d in docs && d in marks && Drags(st, d, e)
    ensures e !in ClearAll(st, marks, docs)
    ensures DraggedAlong(st, marks, ClearAll(st, marks, docs))
  {
    var before, last := docs[..|docs| - 1], docs[|docs| - 1];
    var m := ClearAll(st, marks, before);
    DragsKept(st, marks, docs);
    if last == d {
      if d.NoteAccepted? {
        assert d !in ClearAll(st, marks, docs);
      }
    } else {
      ClearDrags(st, marks, before, d, e);
    }
  }

  lemma {:induction false} DragsKept(st: Store, marks: set<Doc>, docs: seq<Doc>)
    ensures DraggedAlong(st, marks, ClearAll(st, marks, docs))
  {
    if docs != [] {
      var before, last := docs[..|docs| - 1], docs[|docs| - 1];
      DragsKept(st, marks, before);
      if last.NoteAccepted? {
        NotesDrag(st, ClearAll(st, marks, before), last.key);
      }
    }
  }

  /** `docs` lists the message, in any order. */
  predicate Spells(docs: seq<Doc>, msg: set<Doc>) {
    (forall i :: 0 <= i < |docs| ==> docs[i] in msg) && (forall d :: d in msg ==> d in docs)
  }

  /**
   An acknowledged message clears only marks of documents in it exactly when it
   drags nothing along: no payment of another identity or peer under the same
   id, no marked debit note outside the message right before one inside.
   */
  lemma AckClearsOnlyMessage(st: Store, marks: set<Doc>, owner: string, peer: string, docs: seq<Doc>)
    requires Spells(docs, Message(st, marks, owner, peer))
    ensures marks - ClearAll(st, marks, docs) <= Message(st, marks, owner, peer) <==> Closed(st, marks, owner, peer)
  {
    var msg := Message(st, marks, owner, peer);
    if Closed(st, marks, owner, peer) {
      ClearStaysInside(st, marks, docs, msg);
    } else {
      var d, e :| d in msg && e in marks && Drags(st, d, e) && e !in msg;
      ClearDrags(st, marks, docs, d, e);
      assert e in marks - ClearAll(st, marks, docs);
    }
  }

  /** An acknowledged document is told again only if it is a payment not made as requestor. */
  lemma {:induction false} AckClearsMessage(st: Store, marks: set<Doc>, docs: seq<Doc>, d: Doc)
    requires d in docs && d in marks && Known(st, d)
    ensures d in ClearAll(st, marks, docs) <==> d.Paid? && !st.payments[d.pay]
  {
    var before, last := docs[..|docs| - 1], docs[|docs| - 1];
    if d.Paid? && !st.payments[d.pay] {
      OthersPaymentsKept(st, marks, docs, d);
    } else if d != last {
      AckClearsMessage(st, marks, before, d);
    }
  }

  lemma {:induction false} OthersPaymentsKept(st: Store, marks: set<Doc>, docs: seq<Doc>, d: Doc)
    requires d in marks && d.Paid? && d.pay in st.payments && !st.payments[d.pay]
    ensures d in ClearAll(st, marks, docs)
  {
    if docs != [] {
      var before, last := docs[..|docs| - 1], docs[|docs| - 1];
      OthersPaymentsKept(st, marks, before, d);
      if last.NoteAccepted? {
        NotesOnlyNotes(st, ClearAll(st, marks, before), last.key, d);
      }
    }
  }

  lemma {:induction false} NotesOnlyNotes(st: Store, marks: set<Doc>, k: DocKey, d: Doc)
    requires d in marks && !d.NoteAccepted?
    ensures d in ClearNotes(st, marks, k)
    decreases |marks|
  {
    if NoteAccepted(k) in marks && k in st.notes && st.notes[k].previous.Some? {
      NotesOnlyNotes(st, marks - {NoteAccepted(k)}, DocKey(st.notes[k].previous.value, k.owner), d);
    }
  }

  /**
   A debit note over a zero amount is settled as soon as it is accepted, so no
   message lists it, yet its mark goes with that of the next note.
   */
  lemma SettledNoteClearedUntold()
    ensures var first, second := DocKey("note-1", "me"), DocKey("note-2", "me");
            var notes := map[first := Note("peer", Settled, None), second := Note("peer", Accepted, Some("note-1"))];
            var st := Store(map[], map[], notes);
            var marks := {NoteAccepted(first), NoteAccepted(second)};
            && Message(st, marks, "me", "peer") == {NoteAccepted(second)}
            && ClearAll(st, marks, [NoteAccepted(second)]) == {}
            && !Closed(st, marks, "me", "peer")
  {
    var first, second := DocKey("note-1", "me"), DocKey("note-2", "me");
    var notes := map[first := Note("peer", Settled, None), second := Note("peer", Accepted, Some("note-1"))];
    var st := Store(map[], map[], notes);
    var marks := {NoteAccepted(first), NoteAccepted(second)};
    assert ClearAll(st, marks, []) == marks;
    assert marks - {NoteAccepted(second)} == {NoteAccepted(first)};
    assert Drags(st, NoteAccepted(second), NoteAccepted(first));
    assert NoteAccepted(second) in Message(st, marks, "me", "peer");
  }

  // ------------------------------------------------------------------------
  // Runs
  // ------------------------------------------------------------------------

  /** One message to a peer: whether it was acknowledged, and how many marks were then cleared. */
  datatype Delivery = Delivery(owner: string, peer: string, docs: seq<Doc>, acked: bool, cleared: nat)

  predicate Valid(st: Store, marks: set<Doc>, dl: Delivery) {
    Spells(dl.docs, Message(st, marks, dl.owner, dl.peer)) && dl.cleared <= |dl.docs|
  }

  function Deliver(st: Store, marks: set<Doc>, dl: Delivery): (m: set<Doc>)
    requires dl.cleared <= |dl.docs|
    ensures m <= marks
  {
    if dl.acked then ClearAll(st, marks, dl.docs[..dl.cleared]) else marks
  }

  /** Each message is built from the marks its predecessors left. */
  predicate ValidRun(st: Store, marks: set<Doc>, run: seq<Delivery>)
    decreases |run|
  {
    run == [] || (Valid(st, marks, run[0]) && ValidRun(st, Deliver(st, marks, run[0]), run[1..]))
  }

  function AfterRun(st: Store, marks: set<Doc>, run: seq<Delivery>): set<Doc>
    requires ValidRun(st, marks, run)
    decreases |run|
  {
    if run == [] then marks else AfterRun(st, Deliver(st, marks, run[0]), run[1..])
  }
}
