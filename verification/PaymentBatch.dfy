/**
 Sending the payments of a batch order (core/payment/src/batch.rs): items with a
 deposit are paid one by one, the others grouped by payee; a payment is scheduled
 with the driver first and its items are marked with its id afterwards.
 */
module PaymentBatch {
  import opened Common

  /** Primary key of an order's item. */
  datatype ItemKey = ItemKey(owner: string, order: string, payee: string, allocation: string)

  /** A deposit as stored: text that may or may not be readable. */
  datatype Deposit = Deposit(text: string, readable: bool)

  /** An item as the query for unsent items returns it. */
  datatype Item = Item(key: ItemKey, platform: string, payer: string, deposit: Option<Deposit>, amount: real)

  datatype GroupKey = GroupKey(order: string, platform: string, owner: string, payer: string, payee: string)

  datatype Dest = Dest(payer: string, payee: string, platform: string)

  /** What a payment is made for: one deposit item, or a group of the others. */
  datatype Source = OfDeposit(key: ItemKey) | OfGroup(group: GroupKey)

  datatype Payment = Payment(
    id: string, amount: real, dest: Dest, deposit: Option<Deposit>, source: Source, covers: set<ItemKey>)

  function GroupOf(it: Item): GroupKey {
    GroupKey(it.key.order, it.platform, it.key.owner, it.payer, it.key.payee)
  }

  function SourceOf(it: Item): Source {
    if it.deposit.Some? then OfDeposit(it.key) else OfGroup(GroupOf(it))
  }

  function DestOf(it: Item): Dest {
    Dest(it.payer, it.key.payee, it.platform)
  }

  // ------------------------------------------------------------------------
  // The stored items
  // ------------------------------------------------------------------------

  datatype Row = Row(amount: real, paymentId: Option<string>, paid: bool)

  /** What the query joins an item with: its order and its allocation's deposit. */
  datatype Joins = Joins(
    orders: map<(string, string), (string, string)>, deposits: map<(string, string), Option<Deposit>>)

  /** The item is in the order, joins, and has neither a payment nor been paid. */
  predicate IsUnsent(rows: map<ItemKey, Row>, joins: Joins, owner: string, order: string, k: ItemKey) {
    && k in rows && k.owner == owner && k.order == order
    && rows[k].paymentId.None? && !rows[k].paid
    && (owner, order) in joins.orders && (owner, k.allocation) in joins.deposits
  }

  predicate NoDuplicates(items: seq<Item>) {
    forall i, j :: 0 <= i < j < |items| ==> items[i].key != items[j].key
  }

  /** The query's answer, in any order. */
  ghost predicate Lists(items: seq<Item>, rows: map<ItemKey, Row>, joins: Joins, owner: string, order: string) {
    && NoDuplicates(items)
    && (forall i :: 0 <= i < |items| ==>
          var it := items[i];
          && IsUnsent(rows, joins, owner, order, it.key)
          && (it.payer, it.platform) == joins.orders[(owner, order)]
          && it.deposit == joins.deposits[(owner, it.key.allocation)]
          && it.amount == rows[it.key].amount)
    && (forall k :: IsUnsent(rows, joins, owner, order, k) ==> exists i :: 0 <= i < |items| && items[i].key == k)
  }

  /**
   Of the order's items that join, exactly those neither paid nor put into a
   payment are listed, with their own amount, their order's payer and platform and
   their allocation's deposit.
   */
  lemma ListedAreUnsent(items: seq<Item>, rows: map<ItemKey, Row>, joins: Joins,
                        owner: string, order: string, k: ItemKey)
    requires Lists(items, rows, joins, owner, order)
    ensures (exists i :: 0 <= i < |items| && items[i].key == k) <==>
            && k in rows && !rows[k].paid && rows[k].paymentId == None && k.owner == owner && k.order == order
            && (k.owner, k.order) in joins.orders && (k.owner, k.allocation) in joins.deposits
    ensures forall i :: 0 <= i < |items| && items[i].key == k ==>
              && items[i].amount == rows[k].amount
              && items[i].payer == joins.orders[(k.owner, k.order)].0
              && items[i].platform == joins.orders[(k.owner, k.order)].1
              && items[i].deposit == joins.deposits[(k.owner, k.allocation)]
  {
    assert IsUnsent(rows, joins, owner, order, k) <==>
           && k in rows && !rows[k].paid && rows[k].paymentId == None && k.owner == owner && k.order == order
           && (k.owner, k.order) in joins.orders && (k.owner, k.allocation) in joins.deposits;
  }

  // ------------------------------------------------------------------------
  // Sums
  // ------------------------------------------------------------------------

  /** A choice of items: of a source, for a destination, or for a destination from given sources. */
  datatype Pick = From(source: Source) | To(dest: Dest) | ToFrom(dest: Dest, sources: set<Source>) {
    predicate Has(it: Item) {
      match this
      case From(s) => SourceOf(it) == s
      case To(d) => DestOf(it) == d
      case ToFrom(d, ss) => DestOf(it) == d && SourceOf(it) in ss
    }
  }

  /** The amounts of the chosen items among the first `n`. */
  function SumIf(items: seq<Item>, n: nat, p: Pick): real
    requires n <= |items|
  {
    PickedSum(Amounts(items), Picks(items, p), n)
  }

  function Amounts(items: seq<Item>): seq<real> {
    seq(|items|, i requires 0 <= i < |items| => items[i].amount)
  }

  function Picks(items: seq<Item>, p: Pick): seq<bool> {
    seq(|items|, i requires 0 <= i < |items| => p.Has(items[i]))
  }

  lemma SumOne(items: seq<Item>, i: nat, p: Pick)
    requires i < |items| && forall j :: 0 <= j < |items| ==> (p.Has(items[j]) <==> j == i)
    ensures SumIf(items, |items|, p) == items[i].amount
  {
    PickedNone(Amounts(items), Picks(items, p), i);
    PickedFrom(Amounts(items), Picks(items, p), i + 1, |items|);
  }

  /** What the payments send to one destination. */
  function Paid(payments: seq<Payment>, d: Dest): real {
    if payments == [] then 0.0
    else
      var p := payments[|payments| - 1];
      Paid(payments[..|payments| - 1], d) + if p.dest == d then p.amount else 0.0
  }

  // ------------------------------------------------------------------------
  // The journal of a run
  // ------------------------------------------------------------------------

  /** The items a payment for `s` is made for. */
  function KeysFrom(items: seq<Item>, s: Source): set<ItemKey> {
    set i | 0 <= i < |items| && SourceOf(items[i]) == s :: items[i].key
  }

  /** The payment pays exactly the items of its source, to where they are due. */
  ghost predicate Proper(items: seq<Item>, p: Payment) {
    && p.amount == SumIf(items, |items|, From(p.source))
    && p.covers == KeysFrom(items, p.source) && p.covers != {}
    && forall i :: 0 <= i < |items| && SourceOf(items[i]) == p.source ==>
         p.dest == DestOf(items[i]) && p.deposit == items[i].deposit
  }

  /** Every payment is proper, and no two are made for the same source. */
  ghost predicate Journal(items: seq<Item>, payments: seq<Payment>) {
    && (forall j :: 0 <= j < |payments| ==> Proper(items, payments[j]))
    && (forall j, k :: 0 <= j < k < |payments| ==> payments[j].source != payments[k].source)
  }

  ghost predicate PaysFor(payments: seq<Payment>, s: Source) {
    exists j :: 0 <= j < |payments| && payments[j].source == s
  }

  ghost predicate PaysAll(items: seq<Item>, payments: seq<Payment>) {
    forall i :: 0 <= i < |items| ==> PaysFor(payments, SourceOf(items[i]))
  }

  function Sources(payments: seq<Payment>): set<Source> {
    set j | 0 <= j < |payments| :: payments[j].source
  }

  lemma {:induction false} PaidBySources(items: seq<Item>, payments: seq<Payment>, d: Dest)
    requires Journal(items, payments)
    ensures Paid(payments, d) == SumIf(items, |items|, ToFrom(d, Sources(payments)))
  {
    if payments == [] {
      PickedNone(Amounts(items), Picks(items, ToFrom(d, Sources(payments))), |items|);
    } else {
      var before, p := payments[..|payments| - 1], payments[|payments| - 1];
      PaidBySources(items, before, d);
      assert Sources(payments) == Sources(before) + {p.source};
      assert p.source !in Sources(before);
      var q := ToFrom(d, {p.source});
      PickedSplit(Amounts(items), Picks(items, ToFrom(d, Sources(before))), Picks(items, q),
                  Picks(items, ToFrom(d, Sources(payments))), |items|);
      SumOfPayment(items, p, d);
    }
  }

  lemma SumOfPayment(items: seq<Item>, p: Payment, d: Dest)
    requires Proper(items, p)
    ensures SumIf(items, |items|, ToFrom(d, {p.source})) == if p.dest == d then p.amount else 0.0
  {
    if p.dest == d {
      assert Picks(items, ToFrom(d, {p.source})) == Picks(items, From(p.source));
    } else {
      PickedNone(Amounts(items), Picks(items, ToFrom(d, {p.source})), |items|);
    }
  }

  /** No money is lost or made up: each payee is sent exactly what the unsent items say. */
  lemma MoneyConserved(items: seq<Item>, payments: seq<Payment>, d: Dest)
    requires Journal(items, payments) && PaysAll(items, payments)
    ensures Paid(payments, d) == SumIf(items, |items|, To(d))
  {
    PaidBySources(items, payments, d);
    forall i | 0 <= i < |items|
      ensures ToFrom(d, Sources(payments)).Has(items[i]) <==> To(d).Has(items[i])
    {
      assert PaysFor(payments, SourceOf(items[i]));
    }
    assert Picks(items, ToFrom(d, Sources(payments))) == Picks(items, To(d));
  }

  lemma CoverMeansSource(items: seq<Item>, p: Payment, i: nat)
    requires NoDuplicates(items) && Proper(items, p) && i < |items|
    ensures items[i].key in p.covers <==> SourceOf(items[i]) == p.source
  {
    if items[i].key in p.covers {
      var j :| 0 <= j < |items| && SourceOf(items[j]) == p.source && items[j].key == items[i].key;
      assert i == j;
    }
  }

  /** Each item is in one payment, and in one only. */
  lemma PaidExactlyOnce(items: seq<Item>, payments: seq<Payment>, i: nat)
    requires NoDuplicates(items) && Journal(items, payments) && PaysAll(items, payments) && i < |items|
    ensures exists j :: 0 <= j < |payments| && items[i].key in payments[j].covers
    ensures forall j, k :: 0 <= j < k < |payments| ==>
              !(items[i].key in payments[j].covers && items[i].key in payments[k].covers)
  {
    var s := SourceOf(items[i]);
    assert PaysFor(payments, s);
    var j :| 0 <= j < |payments| && payments[j].source == s;
    forall k | 0 <= k < |payments|
      ensures items[i].key in payments[k].covers <==> payments[k].source == s
    {
      CoverMeansSource(items, payments[k], i);
    }
    assert items[i].key in payments[j].covers;
  }

  /** Each item is paid from its payer to its payee on its platform, out of its deposit if it has one. */
  lemma PaidWhereDue(items: seq<Item>, payments: seq<Payment>, i: nat, j: nat)
    requires NoDuplicates(items) && Journal(items, payments) && i < |items| && j < |payments|
    requires items[i].key in payments[j].covers
    ensures var it, p := items[i], payments[j];
            && p.dest.payer == it.payer && p.dest.payee == it.key.payee && p.dest.platform == it.platform
            && p.deposit == it.deposit
  {
    CoverMeansSource(items, payments[j], i);
  }

  /** Two items are paid together exactly when neither has a deposit and they agree in everything a payment needs. */
  lemma PaidTogether(items: seq<Item>, payments: seq<Payment>, i: nat, j: nat)
    requires NoDuplicates(items) && Journal(items, payments) && PaysAll(items, payments)
    requires i < |items| && j < |items| && i != j
    ensures var a, b := items[i], items[j];
            (exists k :: 0 <= k < |payments| && a.key in payments[k].covers && b.key in payments[k].covers) <==>
            && a.deposit.None? && b.deposit.None?
            && a.key.order == b.key.order && a.key.owner == b.key.owner && a.key.payee == b.key.payee
            && a.platform == b.platform && a.payer == b.payer
  {
    var a, b := items[i], items[j];
    assert a.key != b.key;
    forall k | 0 <= k < |payments|
      ensures a.key in payments[k].covers <==> SourceOf(a) == payments[k].source
      ensures b.key in payments[k].covers <==> SourceOf(b) == payments[k].source
    {
      CoverMeansSource(items, payments[k], i);
      CoverMeansSource(items, payments[k], j);
    }
    assert PaysFor(payments, SourceOf(a));
  }

  // ------------------------------------------------------------------------
  // Marking
  // ------------------------------------------------------------------------

  /** A row is as it was, or carries the id of a payment that covers it. */
  ghost predicate MarkedBy(was: Row, row: Row, payments: seq<Payment>, k: ItemKey) {
    row == was ||
    exists j :: 0 <= j < |payments| && k in payments[j].covers && row == was.(paymentId := Some(payments[j].id))
  }

  /** Every change to the store is a mark of a payment already scheduled. */
  ghost predicate Follows(was: map<ItemKey, Row>, rows: map<ItemKey, Row>, payments: seq<Payment>) {
    rows.Keys == was.Keys && forall k :: k in rows ==> MarkedBy(was[k], rows[k], payments, k)
  }

  /** All items of the payment carry its id. */
  ghost predicate AllMarked(rows: map<ItemKey, Row>, p: Payment) {
    forall k :: k in p.covers && k in rows ==> rows[k].paymentId == Some(p.id)
  }

  ghost predicate FirstMarked(rows: map<ItemKey, Row>, payments: seq<Payment>, n: nat)
    requires n <= |payments|
  {
    forall j :: 0 <= j < n ==> AllMarked(rows, payments[j])
  }

  /** Items of `covers` may have got the id, all others are untouched. */
  ghost predicate MarkedWith(before: map<ItemKey, Row>, after: map<ItemKey, Row>, covers: set<ItemKey>, id: string) {
    && after.Keys == before.Keys
    && forall k :: k in after ==>
         after[k] == before[k] || (k in covers && after[k] == before[k].(paymentId := Some(id)))
  }

  /** A new payment for a new source takes nothing from the earlier ones. */
  lemma NextPayment(items: seq<Item>, was: map<ItemKey, Row>, before: map<ItemKey, Row>, after: map<ItemKey, Row>,
                    payments: seq<Payment>, p: Payment)
    requires NoDuplicates(items) && Journal(items, payments) && Proper(items, p) && !PaysFor(payments, p.source)
    requires Follows(was, before, payments) && FirstMarked(before, payments, |payments|)
    requires MarkedWith(before, after, p.covers, p.id)
    ensures Journal(items, payments + [p]) && Follows(was, after, payments + [p])
    ensures FirstMarked(after, payments + [p], |payments|)
    ensures AllMarked(after, p) ==> FirstMarked(after, payments + [p], |payments| + 1)
  {
    var all := payments + [p];
    forall k | k in after
      ensures MarkedBy(was[k], after[k], all, k)
    {
      assert MarkedBy(was[k], before[k], payments, k);
      if after[k] == before[k] {
        if before[k] != was[k] {
          var j :| 0 <= j < |payments| && k in payments[j].covers
                   && before[k] == was[k].(paymentId := Some(payments[j].id));
          assert all[j] == payments[j];
        }
      } else {
        assert all[|payments|] == p;
      }
    }
    forall j | 0 <= j < |payments|
      ensures AllMarked(after, all[j])
    {
      CoversDisjoint(items, payments[j], p);
      assert AllMarked(before, payments[j]);
    }
  }

  lemma CoversDisjoint(items: seq<Item>, p: Payment, q: Payment)
    requires NoDuplicates(items) && Proper(items, p) && Proper(items, q) && p.source != q.source
    ensures p.covers !! q.covers
  {
    forall k | k in p.covers
      ensures k !in q.covers
    {
      var i :| 0 <= i < |items| && SourceOf(items[i]) == p.source && items[i].key == k;
      CoverMeansSource(items, q, i);
    }
  }

  // ------------------------------------------------------------------------
  // Grouping
  // ------------------------------------------------------------------------

  /** The items of one group among the first `n`, in order. */
  function Select(items: seq<Item>, n: nat, g: GroupKey): seq<Item>
    requires n <= |items|
  {
    if n == 0 then []
    else
      var it := items[n - 1];
      if it.deposit.None? && GroupOf(it) == g then Select(items, n - 1, g) + [it] else Select(items, n - 1, g)
  }

  /** The items with a deposit among the first `n`, in order. */
  function WithDeposit(items: seq<Item>, n: nat): seq<Item>
    requires n <= |items|
  {
    if n == 0 then []
    else if items[n - 1].deposit.Some? then WithDeposit(items, n - 1) + [items[n - 1]]
    else WithDeposit(items, n - 1)
  }

  function Total(its: seq<Item>): real {
    if its == [] then 0.0 else Total(its[..|its| - 1]) + its[|its| - 1].amount
  }

  function KeySet(its: seq<Item>): set<ItemKey> {
    set i | 0 <= i < |its| :: its[i].key
  }

  lemma {:induction false} SelectTotal(items: seq<Item>, n: nat, g: GroupKey)
    requires n <= |items|
    ensures Total(Select(items, n, g)) == SumIf(items, n, From(OfGroup(g)))
  {
    if n > 0 {
      SelectTotal(items, n - 1, g);
      var before, now := Select(items, n - 1, g), Select(items, n, g);
      assert now == before || now[..|now| - 1] == before;
    }
  }

  /** `its` holds exactly the items `i < n` with source `s`. */
  lemma {:induction false} SelectMembers(items: seq<Item>, n: nat, g: GroupKey)
    requires n <= |items|
    ensures var its := Select(items, n, g);
            && (forall j :: 0 <= j < |its| ==> its[j] in items && SourceOf(its[j]) == OfGroup(g))
            && (forall i :: 0 <= i < n && SourceOf(items[i]) == OfGroup(g) ==> items[i] in its)
  {
    if n > 0 {
      SelectMembers(items, n - 1, g);
    }
  }

  lemma {:induction false} DepositMembers(items: seq<Item>, n: nat)
    requires n <= |items| && NoDuplicates(items)
    ensures var its := WithDeposit(items, n);
            && (forall j :: 0 <= j < |its| ==> its[j].deposit.Some? && exists i :: 0 <= i < n && items[i] == its[j])
            && (forall i :: 0 <= i < n && items[i].deposit.Some? ==> items[i] in its)
            && NoDuplicates(its)
  {
    if n > 0 {
      DepositMembers(items, n - 1);
    }
  }

  lemma {:induction false} KeySetOfSelect(items: seq<Item>, n: nat, g: GroupKey)
    requires n <= |items|
    ensures KeySet(Select(items, n, g)) == set i | 0 <= i < n && SourceOf(items[i]) == OfGroup(g) :: items[i].key
  {
    if n > 0 {
      KeySetOfSelect(items, n - 1, g);
      if SourceOf(items[n - 1]) == OfGroup(g) {
        KeySetSnoc(Select(items, n - 1, g), items[n - 1]);
      }
    }
  }

  lemma KeySetSnoc(its: seq<Item>, it: Item)
    ensures KeySet(its + [it]) == KeySet(its) + {it.key}
  {
    var all := its + [it];
    assert all[|its|] == it && forall i :: 0 <= i < |its| ==> all[i] == its[i];
  }

  function GroupPayment(items: seq<Item>, g: GroupKey, id: string): Payment {
    var its := Select(items, |items|, g);
    Payment(id, Total(its), Dest(g.payer, g.payee, g.platform), None, OfGroup(g), KeySet(its))
  }

  /** The group's payment is proper: its amount is the sum of its items. */
  lemma GroupPaymentProper(items: seq<Item>, g: GroupKey, id: string)
    requires Select(items, |items|, g) != []
    ensures Proper(items, GroupPayment(items, g, id))
  {
    var its := Select(items, |items|, g);
    SelectTotal(items, |items|, g);
    KeySetOfSelect(items, |items|, g);
    assert its[0].key in KeySet(its);
  }

  lemma DepositPaymentProper(items: seq<Item>, it: Item, id: string)
    requires NoDuplicates(items) && it in items && it.deposit.Some?
    ensures Proper(items, Payment(id, it.amount, DestOf(it), it.deposit, OfDeposit(it.key), {it.key}))
  {
    var i :| 0 <= i < |items| && items[i] == it;
    SumOne(items, i, From(OfDeposit(it.key)));
    assert items[i].key in KeysFrom(items, OfDeposit(it.key));
  }

  // ------------------------------------------------------------------------
  // Sending
  // ------------------------------------------------------------------------

  class ItemStore {
    var rows: map<ItemKey, Row>

    /** Sets the payment id of the item's row, if there is one. */
    method ItemSend(k: ItemKey, id: string)
      modifies this
      ensures rows == if k in old(rows) then old(rows)[k := old(rows)[k].(paymentId := Some(id))] else old(rows)
    {
      if k in rows {
        rows := rows[k := rows[k].(paymentId := Some(id))];
      }
    }
  }

  ghost predicate MarkRefused(its: seq<Item>, mark: ItemKey -> bool) {
    exists i :: 0 <= i < |its| && !mark(its[i].key)
  }

  ghost predicate DepositUnreadable(its: seq<Item>) {
    exists i :: 0 <= i < |its| && its[i].deposit.Some? && !its[i].deposit.value.readable
  }

  /** The payments are what the driver scheduled, one request after the other. */
  ghost predicate Scheduled(payments: seq<Payment>, schedule: nat -> Option<string>) {
    forall j :: 0 <= j < |payments| ==> schedule(j) == Some(payments[j].id)
  }

  /** The only reasons to break off: an unreadable deposit, the driver's refusal, or a mark that fails. */
  ghost predicate BrokenOff(items: seq<Item>, payments: seq<Payment>,
                            schedule: nat -> Option<string>, mark: ItemKey -> bool) {
    DepositUnreadable(items) || schedule(|payments|).None? || MarkRefused(items, mark)
  }

  lemma RefusedInPart(items: seq<Item>, its: seq<Item>, mark: ItemKey -> bool)
    requires forall i :: 0 <= i < |its| ==> its[i] in items
    ensures MarkRefused(its, mark) ==> MarkRefused(items, mark)
  {
  }

  /** Marks the items one by one; `mark(k)` is whether the database takes the mark. */
  method MarkItems(store: ItemStore, its: seq<Item>, id: string, mark: ItemKey -> bool) returns (ok: bool)
    modifies store
    ensures MarkedWith(old(store.rows), store.rows, KeySet(its), id)
    ensures ok ==> forall k :: k in KeySet(its) && k in store.rows ==> store.rows[k].paymentId == Some(id)
    ensures !ok ==> MarkRefused(its, mark)
  {
    for i := 0 to |its|
      invariant MarkedWith(old(store.rows), store.rows, KeySet(its), id)
      invariant forall j :: 0 <= j < i && its[j].key in store.rows ==> store.rows[its[j].key].paymentId == Some(id)
    {
      if !mark(its[i].key) {
        return false;
      }
      assert its[i].key in KeySet(its);
      store.ItemSend(its[i].key, id);
    }
    ok := true;
  }

  lemma KeySetOfOne(it: Item)
    ensures KeySet([it]) == {it.key}
  {
    assert [it][0].key in KeySet([it]);
  }

  /** How many payments are certainly marked: all of them, or all but the last. */
  function Settled(payments: seq<Payment>, ok: bool): nat {
    if ok || payments == [] then |payments| else |payments| - 1
  }

  /** What holds of every run, finished or broken off at any point. */
  ghost predicate SoundRun(items: seq<Item>, was: map<ItemKey, Row>, rows: map<ItemKey, Row>,
                           payments: seq<Payment>, ok: bool)
  {
    Journal(items, payments) && Follows(was, rows, payments) && FirstMarked(rows, payments, Settled(payments, ok))
  }

  ghost predicate DepositsPaid(items: seq<Item>, payments: seq<Payment>) {
    forall i :: 0 <= i < |items| && items[i].deposit.Some? ==> PaysFor(payments, SourceOf(items[i]))
  }

  /** The groups are the items without a deposit, by group key. */
  ghost predicate Partition(items: seq<Item>, n: nat, groups: map<GroupKey, seq<Item>>)
    requires n <= |items|
  {
    && (forall g :: g in groups ==> groups[g] == Select(items, n, g) != [])
    && (forall g :: g !in groups ==> Select(items, n, g) == [])
  }

  lemma PartitionNext(items: seq<Item>, n: nat, groups: map<GroupKey, seq<Item>>)
    requires n < |items| && Partition(items, n, groups)
    ensures var it, g := items[n], GroupOf(items[n]);
            if it.deposit.Some? then Partition(items, n + 1, groups)
            else Partition(items, n + 1, groups[g := (if g in groups then groups[g] else []) + [it]])
  {
  }

  lemma GroupedItem(items: seq<Item>, groups: map<GroupKey, seq<Item>>, i: nat)
    requires Partition(items, |items|, groups) && i < |items| && items[i].deposit.None?
    ensures GroupOf(items[i]) in groups
  {
    SelectMembers(items, |items|, GroupOf(items[i]));
  }

  /** The payment for one deposit item, then its mark. */
  method SendDeposit(store: ItemStore, ghost items: seq<Item>, ghost was: map<ItemKey, Row>, before: seq<Payment>,
                     it: Item, schedule: nat -> Option<string>, mark: ItemKey -> bool)
    returns (ok: bool, payments: seq<Payment>)
    requires NoDuplicates(items) && it in items && it.deposit.Some?
    requires SoundRun(items, was, store.rows, before, true) && Scheduled(before, schedule)
    requires !PaysFor(before, OfDeposit(it.key))
    modifies store
    ensures SoundRun(items, was, store.rows, payments, ok) && Scheduled(payments, schedule)
    ensures || payments == before
            || (|payments| == |before| + 1 && before <= payments && payments[|before|].source == OfDeposit(it.key))
    ensures if ok then |payments| == |before| + 1 else BrokenOff(items, payments, schedule, mark)
    ensures !it.deposit.value.readable ==> !ok && payments == before && store.rows == old(store.rows)
  {
    if !it.deposit.value.readable {
      return false, before;
    }
    var id := schedule(|before|);
    if id.None? {
      return false, before;
    }
    var p := Payment(id.value, it.amount, DestOf(it), it.deposit, OfDeposit(it.key), {it.key});
    DepositPaymentProper(items, it, id.value);
    KeySetOfOne(it);
    RefusedInPart(items, [it], mark);
    ghost var rows := store.rows;
    ok := MarkItems(store, [it], id.value, mark);
    NextPayment(items, was, rows, store.rows, before, p);
    payments := before + [p];
  }

  /** `schedule(n)` is the driver's answer to the n-th request: the payment's id, or a failure. */
  method SendDepositPayments(store: ItemStore, ghost items: seq<Item>, its: seq<Item>,
                             schedule: nat -> Option<string>, mark: ItemKey -> bool)
    returns (ok: bool, payments: seq<Payment>)
    requires NoDuplicates(items) && its == WithDeposit(items, |items|)
    modifies store
    ensures SoundRun(items, old(store.rows), store.rows, payments, ok) && Scheduled(payments, schedule)
    ensures forall j :: 0 <= j < |payments| ==> payments[j].source.OfDeposit?
    ensures if ok then DepositsPaid(items, payments) else BrokenOff(items, payments, schedule, mark)
    ensures ok ==> !DepositUnreadable(items)
  {
    payments := [];
    for n := 0 to |its|
      invariant SoundRun(items, old(store.rows), store.rows, payments, true) && Scheduled(payments, schedule)
      invariant |payments| == n && PaidInOrder(payments, its)
      invariant ReadableUpTo(its, n)
    {
      NextDeposit(items, payments, its);
      ok, payments := SendDeposit(store, items, old(store.rows), payments, its[n], schedule, mark);
      if !ok {
        return;
      }
    }
    AllDepositsPaid(items, payments, its);
    AllReadable(items, its);
    ok := true;
  }

  ghost predicate PaidInOrder(payments: seq<Payment>, its: seq<Item>) {
    |payments| <= |its| && forall j :: 0 <= j < |payments| ==> payments[j].source == OfDeposit(its[j].key)
  }

  ghost predicate ReadableUpTo(its: seq<Item>, n: nat) {
    n <= |its| && forall j :: 0 <= j < n ==> its[j].deposit.Some? && its[j].deposit.value.readable
  }

  lemma AllReadable(items: seq<Item>, its: seq<Item>)
    requires NoDuplicates(items) && its == WithDeposit(items, |items|)
    requires ReadableUpTo(its, |its|)
    ensures !DepositUnreadable(items)
  {
    DepositMembers(items, |items|);
  }

  lemma NextDeposit(items: seq<Item>, payments: seq<Payment>, its: seq<Item>)
    requires NoDuplicates(items) && its == WithDeposit(items, |items|)
    requires PaidInOrder(payments, its) && |payments| < |its|
    ensures var it := its[|payments|];
            it in items && it.deposit.Some? && !PaysFor(payments, OfDeposit(it.key))
  {
    DepositMembers(items, |items|);
  }

  lemma AllDepositsPaid(items: seq<Item>, payments: seq<Payment>, its: seq<Item>)
    requires NoDuplicates(items) && its == WithDeposit(items, |items|)
    requires PaidInOrder(payments, its) && |payments| == |its|
    ensures DepositsPaid(items, payments)
  {
    DepositMembers(items, |items|);
    forall i | 0 <= i < |items| && items[i].deposit.Some?
      ensures PaysFor(payments, SourceOf(items[i]))
    {
      var j :| 0 <= j < |its| && its[j] == items[i];
      assert payments[j].source == SourceOf(items[i]);
    }
  }

  /** Splits the items into groups and deposit items. */
  method GroupItems(items: seq<Item>) returns (groups: map<GroupKey, seq<Item>>, deposits: seq<Item>)
    ensures deposits == WithDeposit(items, |items|)
    ensures Partition(items, |items|, groups)
  {
    groups, deposits := map[], [];
    for n := 0 to |items|
      invariant deposits == WithDeposit(items, n) && Partition(items, n, groups)
    {
      var it := items[n];
      PartitionNext(items, n, groups);
      if it.deposit.None? {
        var g := GroupOf(it);
        groups := groups[g := (if g in groups then groups[g] else []) + [it]];
      } else {
        deposits := deposits + [it];
      }
    }
  }

  method SumAmounts(its: seq<Item>) returns (total: real)
    ensures total == Total(its)
  {
    total := 0.0;
    for i := 0 to |its|
      invariant total == Total(its[..i])
    {
      assert its[..i + 1][..i] == its[..i];
      total := total + its[i].amount;
    }
    assert its[..|its|] == its;
  }

  /** One payment for a whole group, then the marks of its items. */
  method SendGroup(store: ItemStore, ghost items: seq<Item>, ghost was: map<ItemKey, Row>, before: seq<Payment>,
                   g: GroupKey, its: seq<Item>, schedule: nat -> Option<string>, mark: ItemKey -> bool)
    returns (ok: bool, payments: seq<Payment>)
    requires NoDuplicates(items) && its == Select(items, |items|, g) != []
    requires SoundRun(items, was, store.rows, before, true) && Scheduled(before, schedule)
    requires !PaysFor(before, OfGroup(g))
    modifies store
    ensures SoundRun(items, was, store.rows, payments, ok) && Scheduled(payments, schedule)
    ensures !ok ==> BrokenOff(items, payments, schedule, mark)
    ensures ok ==> forall s :: PaysFor(payments, s) <==> PaysFor(before, s) || s == OfGroup(g)
  {
    var amount := SumAmounts(its);
    var id := schedule(|before|);
    if id.None? {
      return false, before;
    }
    var p := Payment(id.value, amount, Dest(g.payer, g.payee, g.platform), None, OfGroup(g), KeySet(its));
    ghost var rows := store.rows;
    GroupRefused(items, g, mark);
    ok := MarkItems(store, its, id.value, mark);
    NextGroupPayment(items, was, rows, store.rows, before, g, id.value, ok);
    PaysForSnoc(before, p);
    payments := before + [p];
  }

  lemma GroupRefused(items: seq<Item>, g: GroupKey, mark: ItemKey -> bool)
    ensures MarkRefused(Select(items, |items|, g), mark) ==> MarkRefused(items, mark)
  {
    SelectMembers(items, |items|, g);
    RefusedInPart(items, Select(items, |items|, g), mark);
  }

  /** The run goes on soundly with a group's payment. */
  lemma NextGroupPayment(items: seq<Item>, was: map<ItemKey, Row>, before: map<ItemKey, Row>,
                         after: map<ItemKey, Row>, payments: seq<Payment>, g: GroupKey, id: string, ok: bool)
    requires NoDuplicates(items) && Select(items, |items|, g) != []
    requires SoundRun(items, was, before, payments, true) && !PaysFor(payments, OfGroup(g))
    requires MarkedWith(before, after, KeySet(Select(items, |items|, g)), id)
    requires ok ==> forall k :: k in KeySet(Select(items, |items|, g)) && k in after ==> after[k].paymentId == Some(id)
    ensures SoundRun(items, was, after, payments + [GroupPayment(items, g, id)], ok)
  {
    GroupPaymentProper(items, g, id);
    NextPayment(items, was, before, after, payments, GroupPayment(items, g, id));
  }

  /** Sends everything the order has to send; the groups are taken in any order. */
  method SendBatchPayments(store: ItemStore, items: seq<Item>, schedule: nat -> Option<string>, mark: ItemKey -> bool)
    returns (ok: bool, payments: seq<Payment>)
    requires NoDuplicates(items)
    modifies store
    ensures SoundRun(items, old(store.rows), store.rows, payments, ok) && Scheduled(payments, schedule)
    ensures if ok then PaysAll(items, payments) else BrokenOff(items, payments, schedule, mark)
    ensures ok ==> !DepositUnreadable(items)
  {
    var groups, deposits := GroupItems(items);
    ok, payments := SendDepositPayments(store, items, deposits, schedule, mark);
    if !ok {
      return;
    }
    ghost var was := old(store.rows);
    var left := groups.Keys;
    while left != {}
      invariant left <= groups.Keys
      invariant SoundRun(items, was, store.rows, payments, true) && Scheduled(payments, schedule)
      invariant DepositsPaid(items, payments) && GroupsPaid(groups.Keys, left, payments)
      decreases |left|
    {
      var g :| g in left;
      ok, payments := SendGroup(store, items, was, payments, g, groups[g], schedule, mark);
      if !ok {
        return;
      }
      left := left - {g};
    }
    forall i | 0 <= i < |items| && items[i].deposit.None?
      ensures PaysFor(payments, SourceOf(items[i]))
    {
      GroupedItem(items, groups, i);
    }
    ok := true;
  }

  /** Exactly the groups not left any more have their payment. */
  ghost predicate GroupsPaid(groups: set<GroupKey>, left: set<GroupKey>, payments: seq<Payment>) {
    forall g :: g in groups ==> (PaysFor(payments, OfGroup(g)) <==> g !in left)
  }

  lemma PaysForSnoc(payments: seq<Payment>, p: Payment)
    ensures forall s :: PaysFor(payments + [p], s) <==> PaysFor(payments, s) || s == p.source
  {
    forall s
      ensures PaysFor(payments + [p], s) <==> PaysFor(payments, s) || s == p.source
    {
      if PaysFor(payments, s) {
        var j :| 0 <= j < |payments| && payments[j].source == s;
        assert (payments + [p])[j].source == s;
      }
      if s == p.source {
        assert (payments + [p])[|payments|].source == s;
      }
    }
  }

  /** After a run, finished or not, exactly the unmarked items are still to be sent. */
  lemma RetryTakesUnmarked(items: seq<Item>, was: map<ItemKey, Row>, rows: map<ItemKey, Row>, payments: seq<Payment>,
                           ok: bool, joins: Joins, owner: string, order: string, k: ItemKey)
    requires SoundRun(items, was, rows, payments, ok)
    ensures IsUnsent(rows, joins, owner, order, k) <==> IsUnsent(was, joins, owner, order, k) && rows[k] == was[k]
  {
    if k in rows {
      assert MarkedBy(was[k], rows[k], payments, k);
    }
  }

  /** After a finished run nothing is left, so a second run schedules nothing. */
  lemma NothingLeft(items: seq<Item>, was: map<ItemKey, Row>, rows: map<ItemKey, Row>, payments: seq<Payment>,
                    joins: Joins, owner: string, order: string)
    requires Lists(items, was, joins, owner, order)
    requires SoundRun(items, was, rows, payments, true) && PaysAll(items, payments)
    ensures forall k :: !IsUnsent(rows, joins, owner, order, k)
    ensures Lists([], rows, joins, owner, order) && forall ps: seq<Payment> :: Journal([], ps) ==> ps == []
  {
    forall k
      ensures !IsUnsent(rows, joins, owner, order, k)
    {
      RetryTakesUnmarked(items, was, rows, payments, true, joins, owner, order, k);
      if IsUnsent(was, joins, owner, order, k) {
        var i :| 0 <= i < |items| && items[i].key == k;
        PaidExactlyOnce(items, payments, i);
        var j :| 0 <= j < |payments| && k in payments[j].covers;
        assert AllMarked(rows, payments[j]);
      }
    }
    forall ps: seq<Payment> | ps != []
      ensures !Journal([], ps)
    {
      assert KeysFrom([], ps[0].source) == {};
    }
  }
}
