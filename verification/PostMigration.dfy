/**
 The post-migration job that adds the amounts paid for activities to the totals
 of their agreements (core/payment/src/post_migrations.rs): one pass over the
 joined rows, ordered by agreement id, stands in for a grouped SQL update.
 */
module PostMigration {
  import opened Common

  /** Agreements are keyed by id and owner. */
  datatype Key = Key(id: string, owner: string)

  /** A decimal stored as text; unreadable text counts as zero. */
  datatype Amount = Number(n: real) | Unreadable {
    function Value(): real {
      if Number? then n else 0.0
    }
  }

  datatype Agreement = Agreement(role: string, paid: Amount) {
    /** The agreement with `sum` added to its total. */
    function Credited(sum: real): Agreement {
      Agreement(role, Number(sum + paid.Value()))
    }
  }

  /** A row of the join: an activity with its agreement's id, owner, role and total. */
  datatype Row = Row(id: string, owner: string, role: string, agreementPaid: Amount, activityPaid: Amount) {
    function Of(): Key {
      Key(id, owner)
    }
  }

  /** The rows come from joining activities with `agreements`. */
  predicate Joined(agreements: map<Key, Agreement>, rows: seq<Row>) {
    forall i :: 0 <= i < |rows| ==>
      && rows[i].Of() in agreements
      && agreements[rows[i].Of()] == Agreement(rows[i].role, rows[i].agreementPaid)
  }

  /** Row `i` is the last of its run of equal ids. */
  predicate GroupEnd(rows: seq<Row>, i: nat)
    requires i < |rows|
  {
    i + 1 == |rows| || rows[i + 1].id != rows[i].id
  }

  /** Ordered by agreement id: once a run of equal ids has ended, its id does not come again. */
  predicate Grouped(rows: seq<Row>) {
    forall e, j :: 0 <= e < j < |rows| && GroupEnd(rows, e) ==> rows[j].id != rows[e].id
  }

  /** `le` orders the ids: no two of them come before each other. */
  ghost predicate Orders(le: (string, string) -> bool) {
    forall a, b :: le(a, b) && le(b, a) ==> a == b
  }

  /** Rows sorted by id under any such order are grouped. */
  lemma SortedIsGrouped(rows: seq<Row>, le: (string, string) -> bool)
    requires Orders(le)
    requires forall i, j :: 0 <= i < j < |rows| ==> le(rows[i].id, rows[j].id)
    ensures Grouped(rows)
  {
    forall e, j | 0 <= e < j < |rows| && GroupEnd(rows, e)
      ensures rows[j].id != rows[e].id
    {
      assert le(rows[e].id, rows[e + 1].id);
      assert e + 1 == j || le(rows[e + 1].id, rows[j].id);
    }
  }

  lemma {:induction false} FindEnd(rows: seq<Row>, i: nat) returns (e: nat)
    requires i < |rows|
    ensures i <= e < |rows| && GroupEnd(rows, e)
    ensures forall j :: i <= j <= e ==> rows[j].id == rows[i].id
    decreases |rows| - i
  {
    if GroupEnd(rows, i) {
      e := i;
    } else {
      e := FindEnd(rows, i + 1);
    }
  }

  /** A choice of rows: of an id, of an agreement, or of an id's given owners. */
  datatype Pick = ById(id: string) | ByKey(key: Key) | ByOwners(id: string, owners: set<string>) {
    predicate Has(r: Row) {
      match this
      case ById(id) => r.id == id
      case ByKey(key) => r.Of() == key
      case ByOwners(id, owners) => r.id == id && r.owner in owners
    }
  }

  /** The activity amounts of the chosen rows among the first `n`. */
  function SumIf(rows: seq<Row>, n: nat, p: Pick): real
    requires n <= |rows|
  {
    PickedSum(Amounts(rows), Picks(rows, p), n)
  }

  function Amounts(rows: seq<Row>): seq<real> {
    seq(|rows|, i requires 0 <= i < |rows| => rows[i].activityPaid.Value())
  }

  function Picks(rows: seq<Row>, p: Pick): seq<bool> {
    seq(|rows|, i requires 0 <= i < |rows| => p.Has(rows[i]))
  }

  function SumById(rows: seq<Row>, id: string): real {
    SumIf(rows, |rows|, ById(id))
  }

  /** What is paid for the activities of one agreement. */
  function SumByKey(rows: seq<Row>, k: Key): real {
    SumIf(rows, |rows|, ByKey(k))
  }

  // ------------------------------------------------------------------------
  // The pass
  // ------------------------------------------------------------------------

  /** The sum the pass carries into row `n`: of the rows before it in its group. */
  function Running(rows: seq<Row>, n: nat): real
    requires n <= |rows|
  {
    if n == 0 || GroupEnd(rows, n - 1) then 0.0 else Running(rows, n - 1) + rows[n - 1].activityPaid.Value()
  }

  /** The table once the groups ending among the first `n` rows have been written. */
  function After(agreements: map<Key, Agreement>, rows: seq<Row>, n: nat): (t: map<Key, Agreement>)
    requires Joined(agreements, rows) && n <= |rows|
    ensures t.Keys == agreements.Keys
  {
    if n == 0 then agreements
    else
      var t, r := After(agreements, rows, n - 1), rows[n - 1];
      if GroupEnd(rows, n - 1)
      then t[r.Of() := agreements[r.Of()].Credited(Running(rows, n - 1) + r.activityPaid.Value())]
      else t
  }

  /** The agreements written for the first `n` rows, in order. */
  function Written(rows: seq<Row>, n: nat): seq<Key>
    requires n <= |rows|
  {
    if n == 0 then []
    else Written(rows, n - 1) + if GroupEnd(rows, n - 1) then [rows[n - 1].Of()] else []
  }

  /** The id of row `n`, empty past the end. */
  function IdAt(rows: seq<Row>, n: nat): string {
    if n < |rows| then rows[n].id else ""
  }

  /** `UPDATE … WHERE id AND owner AND role` finds a row only if all three match. */
  predicate Matches(table: map<Key, Agreement>, k: Key, role: string) {
    k in table && table[k].role == role
  }

  function Update(table: map<Key, Agreement>, k: Key, role: string, paid: Amount): map<Key, Agreement> {
    if Matches(table, k, role) then table[k := Agreement(role, paid)] else table
  }

  /**
   One row: adds its amount; at the end of its group writes the total and starts
   over.  `wrote` is the agreement the update changed, if any.
   */
  method ScanRow(rows: seq<Row>, idx: nat, table0: map<Key, Agreement>, sum0: real, id0: string)
    returns (table: map<Key, Agreement>, sum: real, id: string, wrote: seq<Key>)
    requires idx < |rows| && id0 == rows[idx].id
    ensures id == IdAt(rows, idx + 1)
    ensures if GroupEnd(rows, idx)
            then
              && table == Update(table0, rows[idx].Of(), rows[idx].role,
                                 Number(sum0 + rows[idx].activityPaid.Value() + rows[idx].agreementPaid.Value()))
              && sum == 0.0
              && wrote == if Matches(table0, rows[idx].Of(), rows[idx].role) then [rows[idx].Of()] else []
            else table == table0 && sum == sum0 + rows[idx].activityPaid.Value() && wrote == []
  {
    table, id, wrote := table0, id0, [];
    var row := rows[idx];
    sum := sum0 + row.activityPaid.Value();
    var write := if idx + 1 < |rows| then rows[idx + 1].id != id else true;
    if write {
      sum := sum + row.agreementPaid.Value();
      if Matches(table, Key(id, row.owner), row.role) {
        wrote := [Key(id, row.owner)];
      }
      table := Update(table, Key(id, row.owner), row.role, Number(sum));
      sum := 0.0;
      id := if idx + 1 < |rows| then rows[idx + 1].id else "";
    }
  }

  /** `writes` lists the agreements changed, one entry per update that found its row. */
  method Scan(agreements: map<Key, Agreement>, rows: seq<Row>)
    returns (table: map<Key, Agreement>, writes: seq<Key>)
    requires Joined(agreements, rows)
    ensures table == After(agreements, rows, |rows|)
    ensures writes == Written(rows, |rows|)
  {
    table, writes := agreements, [];
    if rows == [] {
      return;
    }
    var idx := 0;
    var sum, id := 0.0, rows[0].id;
    while idx < |rows|
      invariant 0 <= idx <= |rows|
      invariant id == IdAt(rows, idx) && sum == Running(rows, idx)
      invariant table == After(agreements, rows, idx) && writes == Written(rows, idx)
    {
      PassStep(agreements, rows, idx);
      var wrote;
      table, sum, id, wrote := ScanRow(rows, idx, table, sum, id);
      writes := writes + wrote;
      idx := idx + 1;
    }
  }

  /** One row of the pass: its group goes on, or is written, and its update finds the agreement. */
  lemma PassStep(agreements: map<Key, Agreement>, rows: seq<Row>, n: nat)
    requires Joined(agreements, rows) && n < |rows|
    ensures var t, r, sum := After(agreements, rows, n), rows[n], Running(rows, n);
            && Matches(t, r.Of(), r.role)
            && After(agreements, rows, n + 1) ==
               if GroupEnd(rows, n)
               then Update(t, r.Of(), r.role, Number(sum + r.activityPaid.Value() + r.agreementPaid.Value()))
               else t
  {
    RoleKept(agreements, rows, n, rows[n].Of());
  }

  lemma {:induction false} RoleKept(agreements: map<Key, Agreement>, rows: seq<Row>, n: nat, k: Key)
    requires Joined(agreements, rows) && n <= |rows| && k in agreements
    ensures After(agreements, rows, n)[k].role == agreements[k].role
  {
    if n > 0 {
      RoleKept(agreements, rows, n - 1, k);
    }
  }

  /** Nothing with the id of a group comes before the group. */
  lemma NewGroup(rows: seq<Row>, i: nat)
    requires Grouped(rows) && 0 < i < |rows| && rows[i].id != rows[i - 1].id
    ensures SumIf(rows, i, ById(rows[i].id)) == 0.0
  {
    forall j | 0 <= j < i
      ensures rows[j].id != rows[i].id
    {
      var e := FindEnd(rows, j);
      if e >= i {
        assert false;
      }
    }
    PickedNone(Amounts(rows), Picks(rows, ById(rows[i].id)), i);
  }

  // ------------------------------------------------------------------------
  // What the pass computes
  // ------------------------------------------------------------------------

  /** The agreement of the last row of some group among the first `n` rows. */
  ghost predicate Ends(rows: seq<Row>, n: nat, k: Key)
    requires n <= |rows|
  {
    exists e :: 0 <= e < n && GroupEnd(rows, e) && rows[e].Of() == k
  }

  lemma SumNext(rows: seq<Row>, n: nat, p: Pick)
    requires n < |rows|
    ensures SumIf(rows, n + 1, p) == SumIf(rows, n, p) + if p.Has(rows[n]) then rows[n].activityPaid.Value() else 0.0
  {
  }

  /** The sum carried into a row is that of the rows before it with the same id. */
  lemma {:induction false} RunningIsSum(rows: seq<Row>, n: nat)
    requires Grouped(rows) && n < |rows|
    ensures Running(rows, n) == SumIf(rows, n, ById(rows[n].id))
  {
    if n > 0 {
      if GroupEnd(rows, n - 1) {
        NewGroup(rows, n);
      } else {
        RunningIsSum(rows, n - 1);
        SumNext(rows, n - 1, ById(rows[n].id));
      }
    }
  }

  lemma NothingAfter(rows: seq<Row>, m: nat, p: Pick)
    requires m <= |rows| && forall i :: m <= i < |rows| ==> !p.Has(rows[i])
    ensures SumIf(rows, |rows|, p) == SumIf(rows, m, p)
  {
    PickedFrom(Amounts(rows), Picks(rows, p), m, |rows|);
  }

  /** A group's end sees all of its rows. */
  lemma EndSeesAll(rows: seq<Row>, e: nat)
    requires Grouped(rows) && e < |rows| && GroupEnd(rows, e)
    ensures Running(rows, e) + rows[e].activityPaid.Value() == SumById(rows, rows[e].id)
  {
    RunningIsSum(rows, e);
    SumNext(rows, e, ById(rows[e].id));
    NothingAfter(rows, e + 1, ById(rows[e].id));
  }

  /** The agreements written are those that end a group. */
  lemma {:induction false} WrittenEnds(rows: seq<Row>, n: nat, k: Key)
    requires n <= |rows|
    ensures k in Written(rows, n) <==> Ends(rows, n, k)
  {
    if n > 0 {
      WrittenEnds(rows, n - 1, k);
      if GroupEnd(rows, n - 1) && rows[n - 1].Of() == k {
        assert Ends(rows, n, k);
      } else {
        assert Ends(rows, n, k) <==> Ends(rows, n - 1, k);
      }
    }
  }

  predicate IdsDiffer(ks: seq<Key>) {
    forall i, j :: 0 <= i < j < |ks| ==> ks[i].id != ks[j].id
  }

  lemma IdsDifferSnoc(ks: seq<Key>, k: Key)
    requires IdsDiffer(ks) && forall i :: 0 <= i < |ks| ==> ks[i].id != k.id
    ensures IdsDiffer(ks + [k])
  {
  }

  /** No agreement is written twice, nor two agreements of one id. */
  lemma {:induction false} WrittenOnce(rows: seq<Row>, n: nat)
    requires Grouped(rows) && n <= |rows|
    ensures IdsDiffer(Written(rows, n))
  {
    if n > 0 {
      WrittenOnce(rows, n - 1);
      if GroupEnd(rows, n - 1) {
        WrittenBefore(rows, n - 1);
        IdsDifferSnoc(Written(rows, n - 1), rows[n - 1].Of());
      } else {
        Alone(Written(rows, n - 1));
      }
    }
  }

  /** What was written before a row has other ids. */
  lemma WrittenBefore(rows: seq<Row>, n: nat)
    requires Grouped(rows) && n < |rows|
    ensures forall i :: 0 <= i < |Written(rows, n)| ==> Written(rows, n)[i].id != rows[n].id
  {
    forall i | 0 <= i < |Written(rows, n)|
      ensures Written(rows, n)[i].id != rows[n].id
    {
      WrittenEnds(rows, n, Written(rows, n)[i]);
      var e :| 0 <= e < n && GroupEnd(rows, e) && rows[e].Of() == Written(rows, n)[i];
      EndsDiffer(rows, e, n);
    }
  }

  /** The pass writes each agreement that ends a group, with the sum of the whole group, and no other. */
  lemma {:induction false} PassWrites(agreements: map<Key, Agreement>, rows: seq<Row>, n: nat, k: Key)
    requires Joined(agreements, rows) && Grouped(rows) && n <= |rows| && k in agreements
    ensures After(agreements, rows, n)[k] ==
            if Ends(rows, n, k)
            then agreements[k].Credited(SumById(rows, k.id))
            else agreements[k]
  {
    if n > 0 {
      var e := n - 1;
      PassWrites(agreements, rows, e, k);
      if GroupEnd(rows, e) && rows[e].Of() == k {
        EndSeesAll(rows, e);
        assert Ends(rows, n, k);
      } else {
        assert Ends(rows, n, k) <==> Ends(rows, e, k);
      }
    }
  }

  /** Unreadable text counts as nothing, in a total and in an activity. */
  lemma UnreadableIsNothing(role: string, sum: real, rows: seq<Row>, n: nat, p: Pick)
    ensures Agreement(role, Unreadable).Credited(sum) == Agreement(role, Number(sum))
    ensures n < |rows| && rows[n].activityPaid.Unreadable? ==> SumIf(rows, n + 1, p) == SumIf(rows, n, p)
  {
    if n < |rows| {
      SumNext(rows, n, p);
    }
  }

  /** The totals are those of the grouped update: the old total plus the agreement's own activities. */
  ghost predicate SumsPerAgreement(agreements: map<Key, Agreement>, rows: seq<Row>, table: map<Key, Agreement>)
    requires table.Keys == agreements.Keys
  {
    forall k :: k in agreements ==> table[k].paid.Value() == agreements[k].paid.Value() + SumByKey(rows, k)
  }

  /** Agreements passed over, because their id's last row belongs to another owner, had nothing to add. */
  ghost predicate PassedOverAreZero(agreements: map<Key, Agreement>, rows: seq<Row>) {
    forall k :: k in agreements && !Ends(rows, |rows|, k) ==> SumByKey(rows, k) == 0.0
  }

  /** The activity amounts of an id's rows that belong to the given owners. */
  function SumOwners(rows: seq<Row>, id: string, owners: set<string>): real {
    SumIf(rows, |rows|, ByOwners(id, owners))
  }

  lemma {:induction false} ZeroOwners(rows: seq<Row>, id: string, owners: set<string>)
    requires forall o :: o in owners ==> SumByKey(rows, Key(id, o)) == 0.0
    ensures SumOwners(rows, id, owners) == 0.0
  {
    if owners == {} {
      PickedNone(Amounts(rows), Picks(rows, ByOwners(id, owners)), |rows|);
    } else {
      var o :| o in owners;
      ZeroOwners(rows, id, owners - {o});
      PickedSplit(Amounts(rows), Picks(rows, ByOwners(id, owners - {o})), Picks(rows, ByKey(Key(id, o))),
                  Picks(rows, ByOwners(id, owners)), |rows|);
    }
  }

  /** When everyone else's sum is zero, the group's sum is the agreement's own. */
  lemma GroupSumIsOwn(agreements: map<Key, Agreement>, rows: seq<Row>, k: Key)
    requires Joined(agreements, rows)
    requires forall o :: Key(k.id, o) in agreements && o != k.owner ==> SumByKey(rows, Key(k.id, o)) == 0.0
    ensures SumById(rows, k.id) == SumByKey(rows, k)
  {
    var owners := set key | key in agreements && key.id == k.id && key.owner != k.owner :: key.owner;
    ZeroOwners(rows, k.id, owners);
    forall i | 0 <= i < |rows| && rows[i].id == k.id
      ensures rows[i].owner == k.owner || rows[i].owner in owners
    {
      assert rows[i].Of() in agreements;
    }
    PickedSplit(Amounts(rows), Picks(rows, ByOwners(k.id, owners)), Picks(rows, ByKey(k)),
                Picks(rows, ById(k.id)), |rows|);
  }

  lemma EndsDiffer(rows: seq<Row>, d: nat, e: nat)
    requires Grouped(rows) && d < e < |rows| && GroupEnd(rows, d)
    ensures rows[d].id != rows[e].id
  {
  }

  /**
   The pass equals the grouped update exactly when every agreement it passes
   over has activities that sum to zero.
   */
  lemma PassEqualsGroupBy(agreements: map<Key, Agreement>, rows: seq<Row>)
    requires Joined(agreements, rows) && Grouped(rows)
    ensures SumsPerAgreement(agreements, rows, After(agreements, rows, |rows|))
            <==> PassedOverAreZero(agreements, rows)
  {
    var table := After(agreements, rows, |rows|);
    forall k | k in agreements
      ensures !Ends(rows, |rows|, k) ==>
                (table[k].paid.Value() == agreements[k].paid.Value() + SumByKey(rows, k) <==> SumByKey(rows, k) == 0.0)
      ensures Ends(rows, |rows|, k) && PassedOverAreZero(agreements, rows) ==>
                table[k].paid.Value() == agreements[k].paid.Value() + SumByKey(rows, k)
    {
      PassWrites(agreements, rows, |rows|, k);
      if Ends(rows, |rows|, k) && PassedOverAreZero(agreements, rows) {
        forall o | Key(k.id, o) in agreements && o != k.owner
          ensures SumByKey(rows, Key(k.id, o)) == 0.0
        {
          OtherOwnerPassedOver(rows, k, Key(k.id, o));
        }
        GroupSumIsOwn(agreements, rows, k);
      }
    }
  }

  lemma OtherOwnerPassedOver(rows: seq<Row>, k: Key, other: Key)
    requires Grouped(rows) && Ends(rows, |rows|, k) && other.id == k.id && other.owner != k.owner
    ensures !Ends(rows, |rows|, other)
  {
    var e :| 0 <= e < |rows| && GroupEnd(rows, e) && rows[e].Of() == k;
    forall d | 0 <= d < |rows| && GroupEnd(rows, d)
      ensures rows[d].Of() != other
    {
      OneEndPerId(rows, d, e);
    }
  }

  lemma OneEndPerId(rows: seq<Row>, d: nat, e: nat)
    requires Grouped(rows) && d < |rows| && e < |rows| && GroupEnd(rows, d) && GroupEnd(rows, e)
    ensures rows[d].id == rows[e].id ==> d == e
  {
    if d < e {
      EndsDiffer(rows, d, e);
    } else if e < d {
      EndsDiffer(rows, e, d);
    }
  }

  /** An agreement id determines its owner, and with it the role. */
  predicate OneOwner(rows: seq<Row>) {
    forall i, j :: 0 <= i < |rows| && 0 <= j < |rows| && rows[i].id == rows[j].id ==> rows[i].owner == rows[j].owner
  }

  predicate HasRow(rows: seq<Row>, k: Key) {
    exists i :: 0 <= i < |rows| && rows[i].Of() == k
  }

  lemma OneOwnerEnds(rows: seq<Row>, k: Key)
    requires Grouped(rows) && OneOwner(rows)
    ensures Ends(rows, |rows|, k) <==> HasRow(rows, k)
    ensures HasRow(rows, k) ==> SumById(rows, k.id) == SumByKey(rows, k)
  {
    if HasRow(rows, k) {
      var i :| 0 <= i < |rows| && rows[i].Of() == k;
      var e := FindEnd(rows, i);
      assert rows[e].Of() == k;
      assert Picks(rows, ById(k.id)) == Picks(rows, ByKey(k));
    }
  }

  /** With one owner per agreement id, the pass writes exactly the agreements with activities, each of them once. */
  lemma OneOwnerWrites(rows: seq<Row>)
    requires Grouped(rows) && OneOwner(rows)
    ensures var ws := Written(rows, |rows|);
            && IdsDiffer(ws)
            && (forall k :: k in ws <==> HasRow(rows, k))
  {
    WrittenOnce(rows, |rows|);
    forall k
      ensures k in Written(rows, |rows|) <==> HasRow(rows, k)
    {
      WrittenEnds(rows, |rows|, k);
      OneOwnerEnds(rows, k);
    }
  }

  /**
   With one owner per agreement id: every agreement with activities gets its old
   total plus what was paid for them, and all others stay as they are.
   */
  lemma OneOwnerPass(agreements: map<Key, Agreement>, rows: seq<Row>, k: Key)
    requires Joined(agreements, rows) && Grouped(rows) && OneOwner(rows) && k in agreements
    ensures After(agreements, rows, |rows|)[k] ==
            if HasRow(rows, k)
            then agreements[k].Credited(SumByKey(rows, k))
            else agreements[k]
  {
    PassWrites(agreements, rows, |rows|, k);
    OneOwnerEnds(rows, k);
  }

  /** A node that is requestor and provider of one agreement: the pass credits both sums to one of them. */
  lemma TwoOwnersCredited()
    ensures var a, b := Key("agreement", "alice"), Key("agreement", "bob");
            var agreements := map[a := Agreement("R", Number(0.0)), b := Agreement("P", Number(0.0))];
            var rows := [OneUnit(a, "R"), OneUnit(b, "P")];
            && Joined(agreements, rows) && Grouped(rows)
            && !SumsPerAgreement(agreements, rows, After(agreements, rows, |rows|))
  {
    var a, b := Key("agreement", "alice"), Key("agreement", "bob");
    var agreements := map[a := Agreement("R", Number(0.0)), b := Agreement("P", Number(0.0))];
    var rows := [OneUnit(a, "R"), OneUnit(b, "P")];
    PassEqualsGroupBy(agreements, rows);
    assert !Ends(rows, 2, a);
    SumNext(rows, 0, ByKey(a));
    SumNext(rows, 1, ByKey(a));
    assert SumByKey(rows, a) == 1.0;
  }

  /** An activity of the agreement with one unit paid for it. */
  function OneUnit(k: Key, role: string): Row {
    Row(k.id, k.owner, role, Number(0.0), Number(1.0))
  }

  // ------------------------------------------------------------------------
  // The job
  // ------------------------------------------------------------------------

  datatype Job = NoRecord | Pending | Finished

  datatype Database = Database(job: Job, agreements: map<Key, Agreement>)

  /** Runs the pass if the job is still to do, and marks it done. */
  method ProcessJobs(db: Database, rows: seq<Row>) returns (r: Database)
    requires Joined(db.agreements, rows)
    ensures !r.job.Pending?
    ensures r == if db.job.Pending? then Database(Finished, After(db.agreements, rows, |rows|)) else db
  {
    r := db;
    if db.job.Pending? {
      var table, writes := Scan(db.agreements, rows);
      r := Database(Finished, table);
    }
  }

  /** Corollary: running the job again, on whatever the join lists then, changes nothing more. */
  method ProcessTwice(db: Database, rows: seq<Row>, again: seq<Row>) returns (once: Database, twice: Database)
    requires Joined(db.agreements, rows)
    requires db.job.Pending? ==> Joined(After(db.agreements, rows, |rows|), again)
    requires !db.job.Pending? ==> Joined(db.agreements, again)
    ensures once == twice
    ensures db.job.Pending? ==> once.agreements == After(db.agreements, rows, |rows|)
  {
    once := ProcessJobs(db, rows);
    twice := ProcessJobs(once, again);
  }
}
