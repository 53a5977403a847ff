/**
 The job that sends payment synchronisation messages (core/payment/src/payment_sync.rs):
 building the two variants of a message, clearing marks, the per-peer round with
 its retry queue, and the back-off that decides who is due and how long to sleep.
 */
module SyncJob {
  import opened Common
  import opened PaymentSync

  datatype Identity = Identity(nodeId: string, locked: bool)

  /** A peer waiting for a message: when it was last tried and how often in vain. */
  datatype Entry = Entry(lastPing: int, retries: nat)

  /** A document of a message; payments are signed plainly or over canonical bytes. */
  datatype Signed = Signed(doc: Doc, canonical: bool)

  function DocsOf(msg: seq<Signed>): (docs: seq<Doc>)
    ensures |docs| == |msg|
  {
    seq(|msg|, i requires 0 <= i < |msg| => msg[i].doc)
  }

  datatype Reply = Ack | Refusal | NoEndpoint | Unreachable

  /**
   How the world answers one identity: whether its documents can be listed, signing,
   the peer's two replies, after how many marks the database fails, if it does, and
   whether it counts a retry.
   */
  datatype Outcome = Outcome(
    listed: bool, signs: Doc -> bool, withBytes: Reply, plain: Reply, clears: Option<nat>, counts: bool)

  /** A signature or the database can fail. */
  ghost predicate Fails(o: Outcome) {
    !o.listed || o.clears.Some? || !o.counts || exists d: Doc :: d.Paid? && !o.signs(d)
  }

  /** Whether the exchange with the peer ends in an acknowledgement. */
  predicate Acked(o: Outcome) {
    o.withBytes.Ack? || (o.withBytes.NoEndpoint? && o.plain.Ack?)
  }

  // ------------------------------------------------------------------------
  // Back-off
  // ------------------------------------------------------------------------

  datatype Config = Config(initialDelay: nat, exponent: real, maxRetries: nat, cap: Option<nat>)

  const U32_MAX: nat := 0xffff_ffff

  function Power(x: real, n: nat): real {
    if n == 0 then 1.0 else x * Power(x, n - 1)
  }

  /** A float cast to 32 bits: cut off towards zero and saturating. */
  function ToU32(x: real): nat {
    if x <= 0.0 then 0 else if x.Floor >= U32_MAX then U32_MAX else x.Floor
  }

  function Backoff(c: Config, n: nat): nat {
    var delay := c.initialDelay * ToU32(Power(c.exponent, n));
    if c.cap.Some? && c.cap.value < delay then c.cap.value else delay
  }

  lemma {:induction false} PowerGrows(x: real, n: nat)
    requires x >= 1.0
    ensures 1.0 <= Power(x, n) <= Power(x, n + 1)
  {
    if n > 0 {
      PowerGrows(x, n - 1);
    }
    var p := Power(x, n);
    assert p >= 1.0 ==> (x - 1.0) * p >= 0.0;
    assert x * p == p + (x - 1.0) * p;
  }

  /** With an exponent of at least one, waiting never gets shorter, and it never exceeds the cap. */
  lemma BackoffGrows(c: Config, n: nat)
    requires c.exponent >= 1.0
    ensures Backoff(c, n) <= Backoff(c, n + 1)
    ensures c.cap.Some? ==> Backoff(c, n) <= c.cap.value
    ensures c.cap.None? ==> Backoff(c, n) >= c.initialDelay && Backoff(c, 0) == c.initialDelay
  {
    PowerGrows(c.exponent, n);
    var a, b := ToU32(Power(c.exponent, n)), ToU32(Power(c.exponent, n + 1));
    CastGrows(Power(c.exponent, n), Power(c.exponent, n + 1));
    TimesGrows(c.initialDelay, 1, a);
    TimesGrows(c.initialDelay, a, b);
    assert Power(c.exponent, 0) == 1.0;
  }

  lemma CastGrows(x: real, y: real)
    requires 1.0 <= x <= y
    ensures 1 <= ToU32(x) <= ToU32(y)
  {
  }

  lemma TimesGrows(k: nat, a: nat, b: nat)
    requires a <= b
    ensures k * a <= k * b
  {
    assert k * (b - a) >= 0;
  }

  /** `e` to the power of `n`, in whole numbers. */
  function WholePower(e: nat, n: nat): nat {
    if n == 0 then 1 else e * WholePower(e, n - 1)
  }

  lemma {:induction false} PowerOfWhole(e: nat, n: nat)
    ensures Power(e as real, n) == WholePower(e, n) as real
  {
    if n > 0 {
      PowerOfWhole(e, n - 1);
      var p := WholePower(e, n - 1);
      assert (e as real) * (p as real) == (e * p) as real;
    }
  }

  /** With a whole exponent: the initial delay, multiplied by the exponent for each retry, up to 32 bits and the cap. */
  lemma BackoffOfWhole(c: Config, e: nat, n: nat)
    requires c.exponent == e as real
    ensures var delay := c.initialDelay * if WholePower(e, n) < U32_MAX then WholePower(e, n) else U32_MAX;
            Backoff(c, n) == if c.cap.None? || delay <= c.cap.value then delay else c.cap.value
  {
    PowerOfWhole(e, n);
    assert (WholePower(e, n) as real).Floor == WholePower(e, n);
  }

  function Deadline(c: Config, e: Entry): int {
    e.lastPing + Backoff(c, e.retries)
  }

  predicate Due(c: Config, e: Entry, cutoff: int) {
    Deadline(c, e) <= cutoff && e.retries <= c.maxRetries
  }

  /** A peer is due once it has waited long enough, and unless it was tried too often. */
  lemma DueExactly(c: Config, e: Entry, cutoff: int)
    ensures Due(c, e, cutoff) <==> cutoff - e.lastPing >= Backoff(c, e.retries) && !(e.retries > c.maxRetries)
  {
  }

  /** The time to the earliest deadline still ahead; no queued deadline falls inside it. */
  method NextSleep(c: Config, queue: map<string, Entry>, cutoff: int) returns (sleep: Option<int>)
    ensures sleep.None? <==> forall p :: p in queue ==> Deadline(c, queue[p]) <= cutoff
    ensures sleep.Some? ==>
              && sleep.value > 0
              && (forall p :: p in queue ==> !(cutoff < Deadline(c, queue[p]) < cutoff + sleep.value))
              && (exists p :: p in queue && Deadline(c, queue[p]) == cutoff + sleep.value)
  {
    sleep := None;
    var left := queue.Keys;
    while left != {}
      invariant left <= queue.Keys
      invariant sleep.None? ==> forall p :: p in queue && p !in left ==> Deadline(c, queue[p]) <= cutoff
      invariant sleep.Some? ==>
                  && sleep.value > 0
                  && (forall p :: p in queue && p !in left ==> !(cutoff < Deadline(c, queue[p]) < cutoff + sleep.value))
                  && (exists p :: p in queue && Deadline(c, queue[p]) == cutoff + sleep.value)
      decreases |left|
    {
      var p :| p in left;
      var ahead := Deadline(c, queue[p]) - cutoff;
      if ahead > 0 && (sleep.None? || ahead < sleep.value) {
        sleep := Some(ahead);
      }
      left := left - {p};
    }
  }

  // ------------------------------------------------------------------------
  // Building a message
  // ------------------------------------------------------------------------

  /** The unsent documents as queried: rejected invoices are looked at before their event is known. */
  predicate Queried(st: Store, d: Doc, owner: string, peer: string) {
    && Known(st, d)
    && if d.InvoiceRejected?
       then d.key.owner == owner && st.invoices[d.key].peer == peer && st.invoices[d.key].status.Rejected?
       else Listed(st, d, owner, peer)
  }

  /** The payments of a message, and nothing else, are signed over canonical bytes, if at all. */
  ghost predicate SignedOver(msg: seq<Signed>, canonical: bool) {
    forall i :: 0 <= i < |msg| ==> (msg[i].canonical <==> canonical && msg[i].doc.Paid?)
  }

  /** Both variants carry the same documents, and those are the message; only the second signs canonical bytes. */
  method BuildSync(st: Store, marks: set<Doc>, owner: string, peer: string, listed: bool, signs: Doc -> bool)
    returns (ok: bool, plain: seq<Signed>, withBytes: seq<Signed>)
    ensures DocsOf(plain) == DocsOf(withBytes) && SignedOver(plain, false) && SignedOver(withBytes, true)
    ensures ok ==> Spells(DocsOf(plain), Message(st, marks, owner, peer))
    ensures ok <==> listed && forall d :: d in Message(st, marks, owner, peer) && d.Paid? ==> signs(d)
  {
    plain, withBytes := [], [];
    if !listed {
      return false, plain, withBytes;
    }
    var left := set d | d in marks && Queried(st, d, owner, peer);
    ghost var msg := Message(st, marks, owner, peer);
    ghost var all := left;
    while left != {}
      invariant left <= all && DocsOf(plain) == DocsOf(withBytes)
      invariant SignedOver(plain, false) && SignedOver(withBytes, true)
      invariant forall i :: 0 <= i < |plain| ==> plain[i].doc in msg
      invariant forall d :: d in msg && d !in left ==> d in DocsOf(plain) && (d.Paid? ==> signs(d))
      decreases |left|
    {
      var d :| d in left;
      left := left - {d};
      if d.Paid? && !signs(d) {
        assert d in msg;
        return false, plain, withBytes;
      }
      if !d.InvoiceRejected? || st.invoices[d.key].rejectionEvent {
        PushBoth(plain, withBytes, d);
        plain := plain + [Signed(d, false)];
        withBytes := withBytes + [Signed(d, d.Paid?)];
      }
    }
    ok := true;
  }

  lemma PushBoth(plain: seq<Signed>, withBytes: seq<Signed>, d: Doc)
    requires DocsOf(plain) == DocsOf(withBytes)
    ensures DocsOf(plain + [Signed(d, false)]) == DocsOf(plain) + [d]
    ensures DocsOf(withBytes + [Signed(d, d.Paid?)]) == DocsOf(plain) + [d]
  {
  }

  // ------------------------------------------------------------------------
  // Rounds
  // ------------------------------------------------------------------------

  datatype Variant = Canonical | Original

  /** A message that went out, and the reply to it. */
  datatype Sending = Sending(variant: Variant, msg: seq<Signed>, reply: Reply)

  /**
   The messages of one identity to the peer: first the canonically signed one, then
   the original one if and only if the first had no endpoint; with the same documents.
   */
  ghost predicate Exchange(xs: seq<Sending>, o: Outcome) {
    && 1 <= |xs| <= 2
    && xs[0].variant.Canonical? && xs[0].reply == o.withBytes && SignedOver(xs[0].msg, true)
    && (|xs| == 2 <==> xs[0].reply.NoEndpoint?)
    && (|xs| == 2 ==>
          && xs[1].variant.Original? && xs[1].reply == o.plain && SignedOver(xs[1].msg, false)
          && DocsOf(xs[1].msg) == DocsOf(xs[0].msg))
  }

  /** The last message that went out was acknowledged. */
  predicate EndsInAck(xs: seq<Sending>) {
    xs != [] && xs[|xs| - 1].reply.Ack?
  }

  class SyncDb {
    const store: Store
    var marks: set<Doc>
    var queue: map<string, Entry>

    /** Walks a debit note and its predecessors until one is already clear. */
    method MarkNoteSent(k: DocKey)
      modifies `marks
      ensures marks == Clear(store, old(marks), NoteAccepted(k))
    {
      var cur, more := k, true;
      while more && NoteAccepted(cur) in marks
        invariant (if more then ClearNotes(store, marks, cur) else marks) == ClearNotes(store, old(marks), k)
        decreases |marks|, more
      {
        marks := marks - {NoteAccepted(cur)};
        if cur in store.notes && store.notes[cur].previous.Some? {
          cur := DocKey(store.notes[cur].previous.value, cur.owner);
        } else {
          more := false;
        }
      }
    }

    /** Clears the marks of a message one document at a time; the database may fail after `limit` of them. */
    method MarkAllSent(docs: seq<Doc>, limit: Option<nat>) returns (ok: bool)
      modifies `marks
      ensures ok <==> limit.None? || |docs| <= limit.value
      ensures marks == ClearAll(store, old(marks), docs[..if ok then |docs| else limit.value])
    {
      for i := 0 to |docs|
        invariant limit.Some? ==> i <= limit.value
        invariant marks == ClearAll(store, old(marks), docs[..i])
      {
        if limit == Some(i) {
          return false;
        }
        assert docs[..i + 1][..i] == docs[..i];
        match docs[i]
        case NoteAccepted(k) => MarkNoteSent(k);
        case d => marks := Clear(store, marks, d);
      }
      ok := true;
    }

    /**
     One message of one identity: built, sent with its fall-back, and its marks
     cleared when it was acknowledged.  `sent` is the message, if it got that far,
     and `xs` what went out.
     */
    method SyncOwner(owner: string, peer: string, o: Outcome)
      returns (ok: bool, xs: seq<Sending>, ghost sent: Option<Delivery>)
      modifies `marks
      ensures sent.None? <==> xs == []
      ensures xs != [] ==> Exchange(xs, o) && DocsOf(xs[0].msg) == sent.value.docs
      // marks go only if the last message sent was acknowledged
      ensures !EndsInAck(xs) ==> marks == old(marks)
      ensures sent.Some? ==> Sends(sent.value, owner, peer, EndsInAck(xs)) && Valid(store, old(marks), sent.value)
      ensures sent.Some? ==> marks == Deliver(store, old(marks), sent.value)
      ensures xs != [] ==> (EndsInAck(xs) <==> Acked(o))
      ensures ok ==> sent.Some? && (EndsInAck(xs) ==> sent.value.cleared == |sent.value.docs|)
      ensures !ok ==> Fails(o)
    {
      var built, plain, withBytes := BuildSync(store, marks, owner, peer, o.listed, o.signs);
      if !built {
        return false, [], None;
      }
      var reply := o.withBytes;
      xs := [Sending(Canonical, withBytes, reply)];
      if reply.NoEndpoint? {
        reply := o.plain;
        xs := xs + [Sending(Original, plain, reply)];
      }
      var docs := DocsOf(plain);
      if reply.Ack? {
        ok := MarkAllSent(docs, o.clears);
        sent := Some(Delivery(owner, peer, docs, true, if ok then |docs| else o.clears.value));
      } else {
        ok, sent := true, Some(Delivery(owner, peer, docs, false, 0));
      }
    }

    /** The round after its first `n` identities: `run` was sent, its marks cleared and its refusals counted. */
    ghost predicate RoundAt(was: set<Doc>, queued: map<string, Entry>, run: seq<Delivery>,
                            peer: string, r: Round, n: nat, cutoff: int)
      requires peer in queued && n <= |r.Ids()|
      reads this
    {
      && ValidRun(store, was, run) && marks == AfterRun(store, was, run)
      && AllSent(run, peer, Owners(r.Ids(), n), r.answers)
      && queue == QueueAfter(queued, peer, Refusals(r.Ids(), r.answers, n), cutoff, false)
    }

    /** One identity's turn in a round; when it breaks off, the message may have gone out. */
    method SyncIdentity(peer: string, r: Round, n: nat, cutoff: int,
                        ghost was: set<Doc>, ghost queued: map<string, Entry>, ghost before: seq<Delivery>)
      returns (ok: bool, xs: seq<Sending>, ghost run: seq<Delivery>)
      requires peer in queued && n < |r.Ids()| && !r.Ids()[n].locked
      requires RoundAt(was, queued, before, peer, r, n, cutoff)
      modifies `marks, `queue
      ensures ok ==> RoundAt(was, queued, run, peer, r, n + 1, cutoff)
      ensures ok ==> Exchange(xs, r.answers(r.Ids()[n].nodeId))
      // an acknowledged message leaves the entry, any other leaves the marks and counts one more retry
      ensures ok && EndsInAck(xs) ==> queue == old(queue)
      ensures ok && !EndsInAck(xs) ==>
                && marks == old(marks) && peer in old(queue)
                && queue == old(queue)[peer := Entry(cutoff, old(queue)[peer].retries + 1)]
      ensures !ok ==>
                && Fails(r.answers(r.Ids()[n].nodeId))
                && ValidRun(store, was, run) && marks == AfterRun(store, was, run)
                && SentInOrder(run, peer, r.Senders(), r.answers)
                && queue == QueueAfter(queued, peer, Refusals(r.Ids(), r.answers, n), cutoff, false)
    {
      var owner := r.Ids()[n].nodeId;
      ghost var sent;
      ok, xs, sent := SyncOwner(owner, peer, r.answers(owner));
      run := before;
      if sent.Some? {
        RunSnoc(store, was, before, sent.value);
        SentSnoc(before, peer, Owners(r.Ids(), n), r.answers, sent.value);
        run := before + [sent.value];
      }
      SentPrefix(run, peer, r.Ids(), if sent.Some? then n + 1 else n, r.answers);
      if ok && !EndsInAck(xs) {
        ok := r.answers(owner).counts;
        if ok {
          OneMoreRefusal(queued, peer, Refusals(r.Ids(), r.answers, n), cutoff);
          queue := queue[peer := Entry(cutoff, queue[peer].retries + 1)];
        }
      }
    }

    /**
     One round for one peer.  `run` records the messages that were sent: one for
     each unlocked identity, in order, unless the round breaks off.  The entry
     leaves the queue only when all of them were acknowledged; every refused
     message counts as one more retry.
     */
    method SyncPeer(peer: string, r: Round, cutoff: int) returns (ok: bool, ghost run: seq<Delivery>)
      requires peer in queue
      modifies `marks, `queue
      ensures ValidRun(store, old(marks), run) && marks == AfterRun(store, old(marks), run)
      ensures SentInOrder(run, peer, r.Senders(), r.answers)
      ensures ok ==> AllSent(run, peer, r.Senders(), r.answers)
      ensures ok ==> queue == QueueAfter(old(queue), peer, r.Refused(), cutoff, true)
      ensures !ok ==> Trouble(r)
      ensures !ok ==> exists n :: 0 <= n <= |r.Ids()| &&
                        queue == QueueAfter(old(queue), peer, Refusals(r.Ids(), r.answers, n), cutoff, false)
    {
      run := [];
      if r.listed.None? {
        assert queue == QueueAfter(old(queue), peer, Refusals(r.Ids(), r.answers, 0), cutoff, false);
        return false, run;
      }
      var identities := r.Ids();
      var allDelivered := true;
      for i := 0 to |identities|
        invariant RoundAt(old(marks), old(queue), run, peer, r, i, cutoff)
        invariant allDelivered <==> Refusals(identities, r.answers, i) == 0
      {
        if identities[i].locked {
          assert Owners(identities, i + 1) == Owners(identities, i);
          continue;
        }
        var xs;
        ok, xs, run := SyncIdentity(peer, r, i, cutoff, old(marks), old(queue), run);
        if !ok {
          return;
        }
        if !EndsInAck(xs) {
          allDelivered := false;
        }
      }
      if allDelivered {
        if !r.drops {
          return false, run;
        }
        queue := queue - {peer};
      }
      ok := true;
    }

    /**
     The job: every peer that is due gets its round, in any order, until one
     fails; then the time to sleep is taken from what is queued by now.  `lists`
     and `listsAgain` are whether the queue can be read at the start and at the end.
     */
    method SendSyncNotifs(c: Config, cutoff: int, world: string -> Round, lists: bool, listsAgain: bool)
      returns (ok: bool, sleep: Option<int>, ghost run: seq<Delivery>)
      modifies `marks, `queue
      ensures ValidRun(store, old(marks), run) && marks == AfterRun(store, old(marks), run)
      ensures AnsweredBy(run, world)
      ensures forall p :: Kept(c, cutoff, old(queue), queue, p, world(p))
      ensures ok ==> RoundsDone(c, cutoff, old(queue), queue, {}, world)
      ensures ok ==> forall p :: p in old(queue) && Due(c, old(queue)[p], cutoff) ==> Told(run, p, world(p).Senders())
      ensures !ok ==> !lists || !listsAgain
                      || exists p :: p in old(queue) && Due(c, old(queue)[p], cutoff) && Trouble(world(p))
      ensures ok ==> (sleep.None? <==> forall p :: p in queue ==> Deadline(c, queue[p]) <= cutoff)
      ensures ok && sleep.Some? ==>
                && sleep.value > 0
                && (forall p :: p in queue ==> !(cutoff < Deadline(c, queue[p]) < cutoff + sleep.value))
                && (exists p :: p in queue && Deadline(c, queue[p]) == cutoff + sleep.value)
    {
      run, sleep := [], None;
      if !lists {
        return false, sleep, run;
      }
      var due := set p | p in queue && Due(c, queue[p], cutoff);
      var left := due;
      while left != {}
        invariant ValidRun(store, old(marks), run) && marks == AfterRun(store, old(marks), run)
        invariant left <= due && RoundsDone(c, cutoff, old(queue), queue, left, world)
        invariant AnsweredBy(run, world)
        invariant forall p :: p in due && p !in left ==> Told(run, p, world(p).Senders())
        decreases |left|
      {
        var peer :| peer in left;
        assert EntryOf(queue, peer) == EntryOf(old(queue), peer);
        ghost var more, before := [], queue;
        ok, more := SyncPeer(peer, world(peer), cutoff);
        RunAppend(store, old(marks), run, more);
        AnsweredMore(run, more, peer, world);
        run := run + more;
        if !ok {
          ghost var refusals: nat :| queue == QueueAfter(before, peer, refusals, cutoff, false);
          BrokenOff(c, cutoff, old(queue), before, queue, left, peer, refusals, world);
          return;
        }
        OneRoundDone(c, cutoff, old(queue), before, left, peer, world);
        left := left - {peer};
      }
      OnlyDueTouched(c, cutoff, old(queue), queue, left, world);
      if !listsAgain {
        return false, sleep, run;
      }
      sleep := NextSleep(c, queue, cutoff);
      ok := true;
    }
  }

  function EntryOf(queue: map<string, Entry>, peer: string): Option<Entry> {
    if peer in queue then Some(queue[peer]) else None
  }

  /** What a completed round leaves of an entry. */
  function Settled(e: Entry, refusals: nat, cutoff: int): Option<Entry> {
    if refusals == 0 then None else Some(Entry(cutoff, e.retries + refusals))
  }

  /** The entries of all peers that were due, except those `left`, are settled; all others are untouched. */
  ghost predicate RoundsDone(c: Config, cutoff: int, before: map<string, Entry>, now: map<string, Entry>,
                             left: set<string>, world: string -> Round) {
    forall p :: EntryOf(now, p) ==
                if p in before && Due(c, before[p], cutoff) && p !in left
                then Settled(before[p], world(p).Refused(), cutoff)
                else EntryOf(before, p)
  }

  /** Only an entry that was due is touched, and it goes only when everyone's message was acknowledged. */
  ghost predicate Kept(c: Config, cutoff: int, before: map<string, Entry>, now: map<string, Entry>,
                       p: string, r: Round) {
    || EntryOf(now, p) == EntryOf(before, p)
    || (p in before && Due(c, before[p], cutoff) && (p !in now ==> EveryoneAcked(r.Ids(), r.answers)))
  }

  lemma OnlyDueTouched(c: Config, cutoff: int, before: map<string, Entry>, now: map<string, Entry>,
                       left: set<string>, world: string -> Round)
    requires RoundsDone(c, cutoff, before, now, left, world)
    ensures forall p :: Kept(c, cutoff, before, now, p, world(p))
  {
    forall p
      ensures Kept(c, cutoff, before, now, p, world(p))
    {
      NoRefusals(world(p).Ids(), world(p).answers, |world(p).Ids()|);
    }
  }

  lemma OneRoundDone(c: Config, cutoff: int, before: map<string, Entry>, now: map<string, Entry>, left: set<string>,
                     peer: string, world: string -> Round)
    requires RoundsDone(c, cutoff, before, now, left, world)
    requires peer in left && peer in before && Due(c, before[peer], cutoff) && peer in now
    ensures var after := QueueAfter(now, peer, world(peer).Refused(), cutoff, true);
            RoundsDone(c, cutoff, before, after, left - {peer}, world)
  {
    var n := world(peer).Refused();
    assert EntryOf(now, peer) == EntryOf(before, peer);
    forall p
      ensures EntryOf(QueueAfter(now, peer, n, cutoff, true), p) ==
              if p in before && Due(c, before[p], cutoff) && p !in left - {peer}
              then Settled(before[p], world(p).Refused(), cutoff)
              else EntryOf(before, p)
    {
      EntryAfter(now, peer, n, cutoff, true, p);
    }
  }

  /** A round changes its own peer's entry only. */
  lemma EntryAfter(queue: map<string, Entry>, peer: string, refusals: nat, cutoff: int, complete: bool, p: string)
    requires peer in queue
    ensures EntryOf(QueueAfter(queue, peer, refusals, cutoff, complete), p) ==
            if p != peer || (refusals == 0 && !complete) then EntryOf(queue, p)
            else Settled(queue[peer], refusals, cutoff)
  {
  }

  lemma BrokenOff(c: Config, cutoff: int, before: map<string, Entry>, now: map<string, Entry>,
                  after: map<string, Entry>, left: set<string>, peer: string, refusals: nat, world: string -> Round)
    requires RoundsDone(c, cutoff, before, now, left, world)
    requires peer in before && Due(c, before[peer], cutoff) && peer in now
    requires after == QueueAfter(now, peer, refusals, cutoff, false)
    ensures forall p :: Kept(c, cutoff, before, after, p, world(p))
  {
    OnlyDueTouched(c, cutoff, before, now, left, world);
    assert forall p :: p != peer ==> EntryOf(after, p) == EntryOf(now, p);
    forall p
      ensures Kept(c, cutoff, before, after, p, world(p))
    {
      assert Kept(c, cutoff, before, now, p, world(p));
    }
  }

  /**
   A round's world: the identities, if they can be listed, the answers to each,
   and whether the database drops the entry.
   */
  datatype Round = Round(listed: Option<seq<Identity>>, answers: string -> Outcome, drops: bool) {
    function Ids(): seq<Identity> {
      if listed.Some? then listed.value else []
    }

    /** Whose messages go out. */
    function Senders(): seq<string> {
      Owners(Ids(), |Ids()|)
    }

    function Refused(): nat {
      Refusals(Ids(), answers, |Ids()|)
    }
  }

  /** Something besides the peer can fail in the round. */
  ghost predicate Trouble(r: Round) {
    r.listed.None? || !r.drops
    || exists i :: 0 <= i < |r.Ids()| && !r.Ids()[i].locked && Fails(r.answers(r.Ids()[i].nodeId))
  }

  /** The unlocked identities among the first `n`. */
  function Owners(identities: seq<Identity>, n: nat): seq<string>
    requires n <= |identities|
  {
    if n == 0 then []
    else Owners(identities, n - 1) + if identities[n - 1].locked then [] else [identities[n - 1].nodeId]
  }

  /** A message goes out for an identity exactly if it is not locked. */
  lemma {:induction false} OwnersAreUnlocked(identities: seq<Identity>, n: nat, owner: string)
    requires n <= |identities|
    ensures owner in Owners(identities, n) <==>
            exists i :: 0 <= i < n && identities[i] == Identity(owner, false)
  {
    if n > 0 {
      OwnersAreUnlocked(identities, n - 1, owner);
    }
  }

  lemma {:induction false} OwnersPrefix(identities: seq<Identity>, n: nat, m: nat)
    requires n <= m <= |identities|
    ensures Owners(identities, n) <= Owners(identities, m)
  {
    if n < m {
      OwnersPrefix(identities, n, m - 1);
    }
  }

  predicate Sends(dl: Delivery, owner: string, peer: string, acked: bool) {
    dl.owner == owner && dl.peer == peer && dl.acked == acked
  }

  /** The messages went to `peer`, one for each of the first owners, and were answered as the world has it. */
  ghost predicate SentInOrder(run: seq<Delivery>, peer: string, owners: seq<string>, world: string -> Outcome) {
    && |run| <= |owners|
    && forall i :: 0 <= i < |run| ==> Sends(run[i], owners[i], peer, Acked(world(owners[i])))
  }

  /** Every acknowledged message had all its marks cleared. */
  ghost predicate AcksCleared(run: seq<Delivery>) {
    forall i :: 0 <= i < |run| && run[i].acked ==> run[i].cleared == |run[i].docs|
  }

  ghost predicate AllSent(run: seq<Delivery>, peer: string, owners: seq<string>, world: string -> Outcome) {
    SentInOrder(run, peer, owners, world) && |run| == |owners| && AcksCleared(run)
  }

  lemma SentPrefix(run: seq<Delivery>, peer: string, identities: seq<Identity>, n: nat, world: string -> Outcome)
    requires n <= |identities| && SentInOrder(run, peer, Owners(identities, n), world)
    ensures SentInOrder(run, peer, Owners(identities, |identities|), world)
  {
    OwnersPrefix(identities, n, |identities|);
  }

  lemma SentSnoc(run: seq<Delivery>, peer: string, owners: seq<string>, world: string -> Outcome, dl: Delivery)
    requires AllSent(run, peer, owners, world)
    requires Sends(dl, dl.owner, peer, Acked(world(dl.owner)))
    ensures SentInOrder(run + [dl], peer, owners + [dl.owner], world)
    ensures (dl.acked ==> dl.cleared == |dl.docs|) ==> AllSent(run + [dl], peer, owners + [dl.owner], world)
  {
  }

  ghost predicate AnsweredBy(run: seq<Delivery>, world: string -> Round) {
    forall i :: 0 <= i < |run| ==> (run[i].acked <==> Acked(world(run[i].peer).answers(run[i].owner)))
  }

  /** `owner` sent its message to `peer`; if it was acknowledged, all its marks are cleared. */
  ghost predicate OneTold(run: seq<Delivery>, owner: string, peer: string) {
    exists i :: 0 <= i < |run| && Sends(run[i], owner, peer, run[i].acked)
                && (run[i].acked ==> run[i].cleared == |run[i].docs|)
  }

  /** Each of the owners sent its message. */
  ghost predicate Told(run: seq<Delivery>, peer: string, owners: seq<string>) {
    forall k :: 0 <= k < |owners| ==> OneTold(run, owners[k], peer)
  }

  lemma StillTold(run: seq<Delivery>, more: seq<Delivery>, owner: string, peer: string)
    requires OneTold(run, owner, peer)
    ensures OneTold(run + more, owner, peer)
  {
    var i :| 0 <= i < |run| && Sends(run[i], owner, peer, run[i].acked)
             && (run[i].acked ==> run[i].cleared == |run[i].docs|);
    assert (run + more)[i] == run[i];
  }

  lemma NowTold(run: seq<Delivery>, more: seq<Delivery>, peer: string, owners: seq<string>, world: string -> Outcome)
    requires AllSent(more, peer, owners, world)
    ensures Told(run + more, peer, owners)
  {
    forall k | 0 <= k < |owners|
      ensures OneTold(run + more, owners[k], peer)
    {
      assert (run + more)[|run| + k] == more[k];
    }
  }

  lemma AnsweredMore(run: seq<Delivery>, more: seq<Delivery>, peer: string, world: string -> Round)
    requires AnsweredBy(run, world) && SentInOrder(more, peer, world(peer).Senders(), world(peer).answers)
    ensures AnsweredBy(run + more, world)
    ensures forall p :: Told(run, p, world(p).Senders()) ==> Told(run + more, p, world(p).Senders())
    ensures AllSent(more, peer, world(peer).Senders(), world(peer).answers) ==>
              Told(run + more, peer, world(peer).Senders())
  {
    forall p | Told(run, p, world(p).Senders())
      ensures Told(run + more, p, world(p).Senders())
    {
      var owners := world(p).Senders();
      forall k | 0 <= k < |owners|
        ensures OneTold(run + more, owners[k], p)
      {
        StillTold(run, more, owners[k], p);
      }
    }
    if AllSent(more, peer, world(peer).Senders(), world(peer).answers) {
      NowTold(run, more, peer, world(peer).Senders(), world(peer).answers);
    }
  }

  /** Every unlocked identity's message was acknowledged. */
  ghost predicate EveryoneAcked(identities: seq<Identity>, world: string -> Outcome) {
    forall i :: 0 <= i < |identities| && !identities[i].locked ==> Acked(world(identities[i].nodeId))
  }

  /** The unlocked identities among the first `n` whose message was not acknowledged. */
  function Refusals(identities: seq<Identity>, world: string -> Outcome, n: nat): nat
    requires n <= |identities|
  {
    if n == 0 then 0
    else
      var id := identities[n - 1];
      Refusals(identities, world, n - 1) + if !id.locked && !Acked(world(id.nodeId)) then 1 else 0
  }

  lemma {:induction false} NoRefusals(identities: seq<Identity>, world: string -> Outcome, n: nat)
    requires n <= |identities|
    ensures Refusals(identities, world, n) == 0 <==> EveryoneAcked(identities[..n], world)
    ensures identities[..|identities|] == identities
  {
    if n > 0 {
      NoRefusals(identities, world, n - 1);
      var before, last := identities[..n - 1], identities[n - 1];
      assert identities[..n] == before + [last];
      assert EveryoneAcked(identities[..n], world) <==>
             EveryoneAcked(before, world) && (last.locked || Acked(world(last.nodeId)));
    }
  }

  /** The queue after a round with this many refusals, completed or broken off. */
  function QueueAfter(queue: map<string, Entry>, peer: string, refusals: nat, cutoff: int, complete: bool)
    : map<string, Entry>
    requires peer in queue
  {
    if refusals > 0 then queue[peer := Entry(cutoff, queue[peer].retries + refusals)]
    else if complete then queue - {peer}
    else queue
  }

  lemma OneMoreRefusal(queue: map<string, Entry>, peer: string, n: nat, cutoff: int)
    requires peer in queue
    ensures var q := QueueAfter(queue, peer, n, cutoff, false);
            q[peer := Entry(cutoff, q[peer].retries + 1)] == QueueAfter(queue, peer, n + 1, cutoff, false)
  {
    var q := QueueAfter(queue, peer, n, cutoff, false);
    assert q[peer := Entry(cutoff, q[peer].retries + 1)].Keys == queue.Keys;
  }

  lemma {:induction false} RunAppend(st: Store, marks: set<Doc>, run: seq<Delivery>, more: seq<Delivery>)
    requires ValidRun(st, marks, run) && ValidRun(st, AfterRun(st, marks, run), more)
    ensures ValidRun(st, marks, run + more)
    ensures AfterRun(st, marks, run + more) == AfterRun(st, AfterRun(st, marks, run), more)
    decreases |run|
  {
    if run == [] {
      assert run + more == more;
    } else {
      RunAppend(st, Deliver(st, marks, run[0]), run[1..], more);
      assert (run + more)[1..] == run[1..] + more;
    }
  }

  lemma RunSnoc(st: Store, marks: set<Doc>, run: seq<Delivery>, dl: Delivery)
    requires ValidRun(st, marks, run) && Valid(st, AfterRun(st, marks, run), dl)
    ensures ValidRun(st, marks, run + [dl])
    ensures AfterRun(st, marks, run + [dl]) == Deliver(st, AfterRun(st, marks, run), dl)
  {
    assert [dl][1..] == [];
    RunAppend(st, marks, run, [dl]);
  }
}
