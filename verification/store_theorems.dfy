/** What the order store keeps over every run of interleaved, failing transactions. */
module StoreTheorems {
  import opened Domain
  import opened Queries
  import opened Transactions

  /** A committed order reads back exactly as it was inserted, its items in their original sequence. */
  lemma CommittedReadsBack(s: Db, id: nat)
    requires Inv(s) && id in s.ledger
    ensures GetOrder(s.committed, s.ledger[id].order.orderUID) == Some(s.ledger[id].order)
    ensures RowObject(s.committed, id) == s.ledger[id].order
  {
    hide OrdersValues, ItemsValues, PaymentsValues, DeliveriesValues;
    var r := s.ledger[id];
    RetrieveRoundTrip(s.committed, id, r.itemIds, r.order, r.now);
    RowRoundTrip(s.committed, id, r.itemIds, r.order, r.now);
  }

  /** The order committed under a uid, if there is one. */
  ghost predicate CommittedAs(s: Db, o: Order) {
    exists id :: id in s.ledger && s.ledger[id].order == o
  }

  lemma UidOf(s: Db, id: nat)
    requires Inv(s) && id in s.ledger
    ensures id in s.committed.orders && s.committed.orders[id].orderUid == s.ledger[id].order.orderUID
  {
    hide ItemsValues, PaymentsValues, DeliveriesValues, HoldsItems;
    assert HoldsSingles(s.committed, id, s.ledger[id].order, s.ledger[id].now);
  }

  /** The row that GetOrder found. */
  lemma FoundRow(s: Db, uid: string, o: Order) returns (id: nat)
    requires Inv(s) && GetOrder(s.committed, uid) == Some(o)
    ensures id in s.ledger && id in Matching(s.committed, uid) && s.committed.orders[id].orderUid == uid
    ensures RowObject(s.committed, id) == o
  {
    hide RowObject, RowsDone, Apart, IdsDrawn, Holds, UniqueUids;
    id :| id in Matching(s.committed, uid) && RowObject(s.committed, id) == o;
  }

  /** GetOrder finds an order iff exactly that order was committed under that uid. */
  lemma GetOrderExact(s: Db, uid: string, o: Order)
    requires Inv(s)
    ensures GetOrder(s.committed, uid) == Some(o) <==> CommittedAs(s, o) && o.orderUID == uid
  {
    hide Inv, GetOrder, RowObject, Matching;
    if CommittedAs(s, o) && o.orderUID == uid {
      var id :| id in s.ledger && s.ledger[id].order == o;
      CommittedReadsBack(s, id);
    }
    if GetOrder(s.committed, uid) == Some(o) {
      var id := FoundRow(s, uid, o);
      CommittedReadsBack(s, id);
      UidOf(s, id);
    }
  }

  lemma NotFoundExact(s: Db, uid: string)
    requires Inv(s)
    ensures GetOrder(s.committed, uid) == None <==> forall id :: id in s.ledger ==> s.ledger[id].order.orderUID != uid
  {
    forall id | id in s.ledger && s.ledger[id].order.orderUID == uid ensures GetOrder(s.committed, uid).Some? {
      CommittedReadsBack(s, id);
    }
    if GetOrder(s.committed, uid).Some? {
      var o := GetOrder(s.committed, uid).value;
      GetOrderExact(s, uid, o);
      var id :| id in s.ledger && s.ledger[id].order == o;
    }
  }

  // ----- Append only -----

  ghost predicate Extends(s: Db, s': Db) {
    && (forall id :: id in s.ledger ==> id in s'.ledger && s'.ledger[id] == s.ledger[id])
    && (forall t :: t in s.begun ==> t in s'.begun && s'.begun[t] == s.begun[t])
    && (forall t :: t in s.reports ==> t in s'.reports && s'.reports[t] == s.reports[t])
  }

  /** Who began what, and what became of it. */
  ghost predicate Accounted(s: Db) {
    && (forall t :: t in s.open ==> t !in s.reports && t in s.begun && s.begun[t] == s.open[t].order)
    && (forall t :: t in s.begun ==> t in s.open || t in s.reports)
    && (forall t :: t in s.reports ==> t in s.begun)
    && (forall id :: id in s.ledger ==>
          && s.ledger[id].tx in s.reports
          && (s.reports[s.ledger[id].tx] == Stored || s.reports[s.ledger[id].tx] == Other)
          && s.ledger[id].order == s.begun[s.ledger[id].tx])
  }

  ghost predicate StoredBy(s: Db, t: nat) {
    exists id :: id in s.ledger && s.ledger[id].tx == t
  }

  /** An order with the same uid was committed by another transaction. */
  ghost predicate Preceded(s: Db, t: nat) {
    && t in s.begun
    && exists id :: id in s.ledger && s.ledger[id].order.orderUID == s.begun[t].orderUID && s.ledger[id].tx != t
  }

  /** Reports tell the truth about the tables. */
  ghost predicate Truthful(s: Db) {
    && (forall t :: t in s.reports && s.reports[t] == Stored ==> StoredBy(s, t))
    && (forall t :: t in s.reports && s.reports[t] == AlreadyExists ==> Preceded(s, t))
  }

  ghost predicate Whole(s: Db) {
    Inv(s) && Accounted(s) && Truthful(s)
  }

  lemma PublishExtends(s: Db, t: nat, r: Report)
    requires Inv(s) && Accounted(s) && t in s.open && s.open[t].done == 3 + |s.open[t].order.items|
    ensures Extends(s, Close(Publish(s, t, s.open[t]), t, r))
    ensures StoredBy(Close(Publish(s, t, s.open[t]), t, r), t)
  {
    hide Inv, Accounted, Merge;
    OrderIdFresh(s, t);
    OpenUnreported(s, t);
    var s' := Close(Publish(s, t, s.open[t]), t, r);
    assert s.open[t].orderId in s'.ledger && s'.ledger[s.open[t].orderId].tx == t;
  }

  lemma OpenUnreported(s: Db, t: nat)
    requires Accounted(s) && t in s.open
    ensures t !in s.reports
  {
  }

  lemma OrderIdFresh(s: Db, t: nat)
    requires Inv(s) && t in s.open && s.open[t].done > 0
    ensures s.open[t].orderId !in s.ledger
  {
    hide RowsDone, Apart, UidTaken, Holds;
    assert IdsDrawn(s, s.open[t]);
  }

  lemma BeginExtends(s: Db, t: nat, o: Order, now: int)
    requires Accounted(s) && Enabled(s, Begin(t, o, now))
    ensures Extends(s, Apply(s, Begin(t, o, now)))
    ensures Accounted(Apply(s, Begin(t, o, now)))
  {
  }

  lemma CloseExtends(s: Db, t: nat, r: Report, orderSeq: nat)
    requires Accounted(s) && t in s.open
    ensures Extends(s, Close(s.(orderSeq := orderSeq), t, r))
    ensures Accounted(Close(s.(orderSeq := orderSeq), t, r))
  {
  }

  /** A transaction that moves on keeps its order. */
  lemma AdvanceExtends(s: Db, s': Db, t: nat)
    requires Accounted(s) && t in s.open && s'.open.Keys == s.open.Keys
    requires forall u :: u in s.open ==> s'.open[u].order == s.open[u].order
    requires s'.ledger == s.ledger && s'.begun == s.begun && s'.reports == s.reports
    ensures Extends(s, s') && Accounted(s')
  {
  }

  lemma PublishAccounted(s: Db, t: nat, r: Report)
    requires Accounted(s) && t in s.open && (r == Stored || r == Other)
    ensures Accounted(Close(Publish(s, t, s.open[t]), t, r))
  {
    hide Merge;
  }

  /** Every step extends the record; only a commit that takes effect touches the tables. */
  lemma StepExtends(s: Db, a: Action)
    requires Inv(s) && Accounted(s) && Enabled(s, a)
    ensures Extends(s, Apply(s, a)) && Accounted(Apply(s, a))
    ensures !a.Commit? && !(a.CommitError? && a.applied) ==>
              Apply(s, a).committed == s.committed && Apply(s, a).ledger == s.ledger
  {
    hide Inv, UidTaken, UidLocked, Accounted, Extends, Merge;
    match a
    case Begin(t, o, now) => BeginExtends(s, t, o, now);
    case RejectDuplicate(t) => CloseExtends(s, t, AlreadyExists, s.orderSeq + 1);
    case Fail(t, r) => CloseExtends(s, t, r, s.orderSeq);
    case Commit(t) => PublishExtends(s, t, Stored); PublishAccounted(s, t, Stored);
    case CommitError(t, applied) =>
      if applied {
        PublishExtends(s, t, Other);
        PublishAccounted(s, t, Other);
      } else {
        CloseExtends(s, t, Other, s.orderSeq);
      }
    case BurnIds(_, _) => BurnExtends(s, a);
    case _ => StatementExtends(s, a);
  }

  lemma StatementExtends(s: Db, a: Action)
    requires Accounted(s) && Enabled(s, a)
    requires a.InsertOrder? || a.InsertDelivery? || a.InsertPayment? || a.InsertItem?
    ensures Extends(s, Apply(s, a)) && Accounted(Apply(s, a))
  {
    hide UidTaken, UidLocked, Accounted, Extends, OrdersValues, PaymentsValues, DeliveriesValues, ItemsValues;
    AdvanceExtends(s, Apply(s, a), a.t);
  }

  lemma BurnExtends(s: Db, a: Action)
    requires Accounted(s) && a.BurnIds?
    ensures Extends(s, Apply(s, a)) && Accounted(Apply(s, a))
  {
  }

  lemma TruthExtends(s: Db, s': Db, t: nat)
    requires Extends(s, s')
    ensures StoredBy(s, t) ==> StoredBy(s', t)
    ensures Preceded(s, t) ==> Preceded(s', t)
  {
    if StoredBy(s, t) {
      var id :| id in s.ledger && s.ledger[id].tx == t;
      assert id in s'.ledger && s'.ledger[id].tx == t;
    }
    if Preceded(s, t) {
      var id :| id in s.ledger && s.ledger[id].order.orderUID == s.begun[t].orderUID && s.ledger[id].tx != t;
      assert id in s'.ledger && s'.ledger[id] == s.ledger[id];
    }
  }

  /** A rejected duplicate finds its uid committed by another transaction. */
  lemma DuplicatePreceded(s: Db, t: nat)
    requires Inv(s) && Accounted(s) && t in s.open && UidTaken(s.committed, s.open[t].order.orderUID)
    ensures Preceded(s, t)
  {
    hide RowsDone, Apart, Holds;
    var id :| id in s.committed.orders && s.committed.orders[id].orderUid == s.open[t].order.orderUID;
    assert id in s.ledger;
    UidOf(s, id);
  }

  lemma TruthfulStep(s: Db, a: Action)
    requires Whole(s) && Enabled(s, a)
    ensures Truthful(Apply(s, a))
  {
    hide Inv, UidTaken, UidLocked, Merge, StoredBy, Preceded, Accounted, Extends;
    var s' := Apply(s, a);
    StepExtends(s, a);
    match a {
      case RejectDuplicate(t) => DuplicatePreceded(s, t);
      case Commit(t) => PublishExtends(s, t, Stored);
      case _ =>
    }
    forall t | t in s'.reports ensures
      && (s'.reports[t] == Stored ==> StoredBy(s', t))
      && (s'.reports[t] == AlreadyExists ==> Preceded(s', t))
    {
      TruthExtends(s, s', t);
    }
  }

  lemma WholeStep(s: Db, a: Action)
    requires Whole(s) && Enabled(s, a)
    ensures Whole(Apply(s, a)) && Extends(s, Apply(s, a))
  {
    hide Inv, Accounted, Truthful, Extends, Enabled, Apply;
    StepKeeps(s, a);
    TruthfulStep(s, a);
    StepExtends(s, a);
  }

  lemma {:induction false} WholeRun(s: Db, actions: seq<Action>)
    requires Whole(s) && Runs(s, actions)
    ensures Whole(After(s, actions)) && Extends(s, After(s, actions))
  {
    hide Inv, Accounted, Truthful, Enabled, Apply;
    if actions != [] {
      var init := actions[..|actions| - 1];
      WholeRun(s, init);
      WholeStep(After(s, init), actions[|actions| - 1]);
    }
  }

  lemma EmptyWhole()
    ensures Whole(EMPTY)
  {
  }

  // ----- The main theorems -----

  /**
   Exactly-once storage. Whatever transactions run, fail, retry or redeliver afterwards, a uid that
   has once been committed keeps reading back as the order first committed under it.
   */
  lemma FirstCommitStays(s: Db, actions: seq<Action>, o: Order)
    requires Whole(s) && Runs(s, actions) && GetOrder(s.committed, o.orderUID) == Some(o)
    ensures GetOrder(After(s, actions).committed, o.orderUID) == Some(o)
  {
    hide Inv, Runs, GetOrder, Accounted, Truthful;
    WholeRun(s, actions);
    GetOrderExact(s, o.orderUID, o);
    var id :| id in s.ledger && s.ledger[id].order == o;
    assert After(s, actions).ledger[id].order == o;
    GetOrderExact(After(s, actions), o.orderUID, o);
  }

  /**
   Reports are exact, over every run from the empty database: Stored means the order reads back;
   AlreadyExists means another transaction's order holds the uid and this one added nothing;
   ConnectionFailed means this transaction added nothing.
   */
  lemma ReportsAreExact(actions: seq<Action>, t: nat)
    requires Runs(EMPTY, actions) && t in After(EMPTY, actions).reports
    ensures
      var s := After(EMPTY, actions);
      && t in s.begun
      && (s.reports[t] == Stored ==> GetOrder(s.committed, s.begun[t].orderUID) == Some(s.begun[t]))
      && (s.reports[t] == AlreadyExists ==> !StoredBy(s, t) && Preceded(s, t))
      && (s.reports[t] == ConnectionFailed ==> !StoredBy(s, t))
  {
    hide Inv, Runs, GetOrder, Preceded;
    EmptyWhole();
    WholeRun(EMPTY, actions);
    var s := After(EMPTY, actions);
    if s.reports[t] == Stored {
      var id :| id in s.ledger && s.ledger[id].tx == t;
      assert CommittedAs(s, s.begun[t]);
      GetOrderExact(s, s.begun[t].orderUID, s.begun[t]);
    }
  }

  /** The unique constraint holds in every reachable state. */
  lemma UidsAreUnique(actions: seq<Action>)
    requires Runs(EMPTY, actions)
    ensures UniqueUids(After(EMPTY, actions).committed)
  {
    hide Runs, After, RowsDone, Apart, IdsDrawn, Holds, UniqueUids;
    EmptyWhole();
    WholeRun(EMPTY, actions);
  }

  /**
   Atomicity and the schema: in every reachable state each committed orders row has its one delivery,
   its one payment and precisely its own items.
   */
  lemma CommittedOrdersAreWhole(actions: seq<Action>)
    requires Runs(EMPTY, actions)
    ensures
      var s := After(EMPTY, actions);
      && s.committed.orders.Keys == s.committed.deliveries.Keys == s.committed.payments.Keys == s.ledger.Keys
      && (forall i :: i in s.committed.items ==> s.committed.items[i].orderId in s.committed.orders)
      && forall id :: id in s.ledger ==>
           && RowObject(s.committed, id) == s.ledger[id].order
           && GetOrder(s.committed, s.ledger[id].order.orderUID) == Some(s.ledger[id].order)
  {
    hide Runs, GetOrder, RowsDone, Apart, IdsDrawn, Holds, UniqueUids;
    EmptyWhole();
    WholeRun(EMPTY, actions);
    var s := After(EMPTY, actions);
    forall id | id in s.ledger
      ensures RowObject(s.committed, id) == s.ledger[id].order
      ensures GetOrder(s.committed, s.ledger[id].order.orderUID) == Some(s.ledger[id].order)
    {
      CommittedReadsBack(s, id);
    }
  }

  // ----- The latest orders -----

  /** ORDER BY updated_at DESC LIMIT n: ties may come in any order. */
  ghost predicate LatestRows(t: Tables, ids: seq<nat>, limit: nat) {
    && (forall i, j :: 0 <= i < j < |ids| ==> ids[i] != ids[j])
    && (forall i :: 0 <= i < |ids| ==> ids[i] in t.orders && ids[i] in t.deliveries && ids[i] in t.payments)
    && (forall i, j :: 0 <= i < j < |ids| ==> t.orders[ids[j]].updatedAt <= t.orders[ids[i]].updatedAt)
    && |ids| <= limit
    && (|ids| < limit ==> forall id :: id in t.orders && id in t.deliveries && id in t.payments ==> id in ids)
    && forall id, i :: id in t.orders && id in t.deliveries && id in t.payments && id !in ids && 0 <= i < |ids| ==>
         t.orders[id].updatedAt <= t.orders[ids[i]].updatedAt
  }

  ghost function Objects(t: Tables, ids: seq<nat>): seq<Order>
    requires forall i :: 0 <= i < |ids| ==> ids[i] in t.orders && ids[i] in t.deliveries && ids[i] in t.payments
  {
    seq(|ids|, i requires 0 <= i < |ids| => RowObject(t, ids[i]))
  }

  /** The rows handed to Preload are committed orders under distinct uids. */
  lemma LatestAreCommitted(s: Db, ids: seq<nat>, limit: nat)
    requires Inv(s) && LatestRows(s.committed, ids, limit)
    ensures
      var rows := Objects(s.committed, ids);
      && (forall i :: 0 <= i < |rows| ==> GetOrder(s.committed, rows[i].orderUID) == Some(rows[i]))
      && (forall i, j :: 0 <= i < j < |rows| ==> rows[i].orderUID != rows[j].orderUID)
  {
    hide GetOrder, RowObject, RowsDone, Apart, IdsDrawn, Holds;
    var rows := Objects(s.committed, ids);
    forall i | 0 <= i < |rows|
      ensures ids[i] in s.ledger && rows[i] == s.ledger[ids[i]].order
      ensures GetOrder(s.committed, rows[i].orderUID) == Some(rows[i])
      ensures s.committed.orders[ids[i]].orderUid == rows[i].orderUID
    {
      CommittedReadsBack(s, ids[i]);
      UidOf(s, ids[i]);
    }
    forall i, j | 0 <= i < j < |rows| ensures rows[i].orderUID != rows[j].orderUID {
      assert ids[i] != ids[j];
    }
  }

  lemma {:induction false} DistinctCount(ids: seq<nat>, all: set<nat>)
    requires forall i, j :: 0 <= i < j < |ids| ==> ids[i] != ids[j]
    requires forall i :: 0 <= i < |ids| ==> ids[i] in all
    ensures |ids| <= |all|
    ensures (forall id :: id in all ==> id in ids) ==> |ids| == |all|
  {
    if ids == [] {
      if forall id :: id in all ==> id in ids { assert all == {}; }
    } else {
      var n := |ids| - 1;
      DistinctCount(ids[..n], all - {ids[n]});
      assert ids == ids[..n] + [ids[n]];
      assert |all - {ids[n]}| == |all| - 1;
      if forall id :: id in all ==> id in ids {
        assert forall id :: id in all - {ids[n]} ==> id in ids[..n];
      }
    }
  }

  lemma StampOf(s: Db, id: nat)
    requires Inv(s) && id in s.ledger
    ensures id in s.committed.orders && id in s.committed.deliveries && id in s.committed.payments
    ensures s.committed.orders[id].updatedAt == s.ledger[id].now
  {
    hide ItemsValues, PaymentsValues, DeliveriesValues, HoldsItems;
    assert HoldsSingles(s.committed, id, s.ledger[id].order, s.ledger[id].now);
  }

  /**
   The latest orders, said by the time each was inserted: they are listed newest first, as many as the limit
   allows, and none left out is newer than one listed.
   */
  lemma LatestAreNewest(s: Db, ids: seq<nat>, limit: nat)
    requires Inv(s) && LatestRows(s.committed, ids, limit)
    ensures forall i :: 0 <= i < |ids| ==> ids[i] in s.ledger
    ensures forall i, j :: 0 <= i < j < |ids| ==> ids[i] != ids[j] && s.ledger[ids[j]].now <= s.ledger[ids[i]].now
    ensures forall id, i :: id in s.ledger && id !in ids && 0 <= i < |ids| ==> s.ledger[id].now <= s.ledger[ids[i]].now
    ensures |ids| == if |s.ledger| < limit then |s.ledger| else limit
  {
    hide RowsDone, Apart, IdsDrawn, Holds, UniqueUids;
    forall id | id in s.ledger
      ensures id in s.committed.orders && id in s.committed.deliveries && id in s.committed.payments
      ensures s.committed.orders[id].updatedAt == s.ledger[id].now
    {
      StampOf(s, id);
    }
    assert s.committed.orders.Keys == s.ledger.Keys;
    DistinctCount(ids, s.ledger.Keys);
  }
}
