/**
 The database under internal/store/store.go as a step system: any number of Insert transactions,
 their statements interleaved in any order, sharing the two id sequences. Any statement may fail, and
 a commit may fail before or after it took effect.
 */
module Transactions {
  import opened Domain
  import opened Queries

  /** What DBStore.Insert reports. A raw commit error is Other: it is not mapped to ConnectionFailed. */
  datatype Report = Stored | AlreadyExists | ConnectionFailed | Other

  /** An open transaction: how many of its 3+n statements are done, and its uncommitted rows. */
  datatype Tx = Tx(order: Order, now: int, done: nat, orderId: nat, itemIds: seq<nat>, rows: Tables)

  /** What a commit put into the tables, kept for the record. */
  datatype Receipt = Receipt(order: Order, itemIds: seq<nat>, now: int, tx: nat)

  datatype Db = Db(
    committed: Tables,
    open: map<nat, Tx>,
    orderSeq: nat,
    itemSeq: nat,
    ledger: map<nat, Receipt>,
    begun: map<nat, Order>,
    reports: map<nat, Report>)

  datatype Action =
    | Begin(t: nat, order: Order, now: int)
    | InsertOrder(t: nat)
    | RejectDuplicate(t: nat)
    | InsertDelivery(t: nat)
    | InsertPayment(t: nat)
    | InsertItem(t: nat)
    | Fail(t: nat, report: Report)
    | Commit(t: nat)
    | CommitError(t: nat, applied: bool)
    | BurnIds(orders: nat, items: nat)

  function Merge(a: Tables, b: Tables): Tables {
    Tables(a.orders + b.orders, a.deliveries + b.deliveries, a.payments + b.payments, a.items + b.items)
  }

  predicate UidTaken(t: Tables, uid: string) {
    exists id :: id in t.orders && t.orders[id].orderUid == uid
  }

  /** The unique index makes an insert wait for another open transaction that holds the same uid. */
  predicate UidLocked(s: Db, t: nat, uid: string) {
    exists u :: u in s.open && u != t && s.open[u].done > 0 && s.open[u].order.orderUID == uid
  }

  predicate Enabled(s: Db, a: Action) {
    match a
    case Begin(t, _, _) => t !in s.open && t !in s.reports
    case InsertOrder(t) =>
      && t in s.open && s.open[t].done == 0
      && !UidLocked(s, t, s.open[t].order.orderUID) && !UidTaken(s.committed, s.open[t].order.orderUID)
    case RejectDuplicate(t) =>
      && t in s.open && s.open[t].done == 0
      && !UidLocked(s, t, s.open[t].order.orderUID) && UidTaken(s.committed, s.open[t].order.orderUID)
    case InsertDelivery(t) => t in s.open && s.open[t].done == 1
    case InsertPayment(t) => t in s.open && s.open[t].done == 2
    case InsertItem(t) => t in s.open && 3 <= s.open[t].done < 3 + |s.open[t].order.items|
    case Fail(t, r) => t in s.open && (r == ConnectionFailed || r == Other)
    case Commit(t) => t in s.open && s.open[t].done == 3 + |s.open[t].order.items|
    case CommitError(t, _) => t in s.open && s.open[t].done == 3 + |s.open[t].order.items|
    case BurnIds(_, _) => true
  }

  function Close(s: Db, t: nat, r: Report): Db {
    s.(open := s.open - {t}, reports := s.reports[t := r])
  }

  function Publish(s: Db, t: nat, tx: Tx): Db {
    s.(committed := Merge(s.committed, tx.rows),
       ledger := s.ledger[tx.orderId := Receipt(tx.order, tx.itemIds, tx.now, t)])
  }

  function Apply(s: Db, a: Action): Db {
    match a
    case Begin(t, o, now) => s.(open := s.open[t := Tx(o, now, 0, 0, [], NO_ROWS)], begun := s.begun[t := o])
    case InsertOrder(t) =>
      if t !in s.open then s else
        var tx := s.open[t];
        var id := s.orderSeq;
        s.(orderSeq := id + 1,
           open := s.open[t := tx.(done := 1, orderId := id,
                                   rows := tx.rows.(orders := tx.rows.orders[id := OrdersValues(tx.order, tx.now)]))])
    case RejectDuplicate(t) => Close(s.(orderSeq := s.orderSeq + 1), t, AlreadyExists)
    case InsertDelivery(t) =>
      if t !in s.open then s else
        var tx := s.open[t];
        s.(open := s.open[t := tx.(done := 2,
             rows := tx.rows.(deliveries := tx.rows.deliveries[tx.orderId := DeliveriesValues(tx.order.delivery)]))])
    case InsertPayment(t) =>
      if t !in s.open then s else
        var tx := s.open[t];
        s.(open := s.open[t := tx.(done := 3,
             rows := tx.rows.(payments := tx.rows.payments[tx.orderId := PaymentsValues(tx.order.payment)]))])
    case InsertItem(t) =>
      if t !in s.open || s.open[t].done < 3 || s.open[t].done - 3 >= |s.open[t].order.items| then s else
        var tx := s.open[t];
        var id := s.itemSeq;
        s.(itemSeq := id + 1,
           open := s.open[t := tx.(done := tx.done + 1, itemIds := tx.itemIds + [id],
             rows := tx.rows.(items := tx.rows.items[id := ItemsValues(tx.orderId, tx.order.items[tx.done - 3])]))])
    case Fail(t, r) => Close(s, t, r)
    case Commit(t) => if t !in s.open then s else Close(Publish(s, t, s.open[t]), t, Stored)
    case CommitError(t, applied) =>
      if t !in s.open then s else Close(if applied then Publish(s, t, s.open[t]) else s, t, Other)
    case BurnIds(n, m) => s.(orderSeq := s.orderSeq + n, itemSeq := s.itemSeq + m)
  }

  ghost predicate Runs(s: Db, actions: seq<Action>) {
    actions == [] ||
    (Runs(s, actions[..|actions| - 1])
     && Enabled(After(s, actions[..|actions| - 1]), actions[|actions| - 1]))
  }

  function After(s: Db, actions: seq<Action>): Db {
    if actions == [] then s else Apply(After(s, actions[..|actions| - 1]), actions[|actions| - 1])
  }

  const EMPTY := Db(NO_ROWS, map[], 0, 0, map[], map[], map[])

  // ----- The invariant -----

  /** The committed tables are exactly the receipts' rows, and uids are unique. */
  ghost predicate Sound(t: Tables, ledger: map<nat, Receipt>) {
    && UniqueUids(t)
    && t.orders.Keys == t.deliveries.Keys == t.payments.Keys == ledger.Keys
    && (forall i :: i in t.items ==> t.items[i].orderId in t.orders)
    && forall id :: id in ledger ==> Holds(t, id, ledger[id].itemIds, ledger[id].order, ledger[id].now)
  }

  /** The rows a transaction put into the three tables that hold one row an order. */
  ghost predicate SingleRows(tx: Tx) {
    && tx.rows.orders == (if tx.done >= 1 then map[tx.orderId := OrdersValues(tx.order, tx.now)] else map[])
    && tx.rows.deliveries == (if tx.done >= 2 then map[tx.orderId := DeliveriesValues(tx.order.delivery)] else map[])
    && tx.rows.payments == (if tx.done >= 3 then map[tx.orderId := PaymentsValues(tx.order.payment)] else map[])
  }

  /** The item rows so far: one for each item of a prefix, under increasing ids. */
  ghost predicate ItemRows(tx: Tx) {
    && |tx.itemIds| == (if tx.done >= 3 then tx.done - 3 else 0) <= |tx.order.items|
    && Increasing(tx.itemIds)
    && (forall i :: i in tx.rows.items <==> i in tx.itemIds)
    && forall k :: 0 <= k < |tx.itemIds| ==>
         && tx.itemIds[k] in tx.rows.items
         && tx.rows.items[tx.itemIds[k]] == ItemsValues(tx.orderId, tx.order.items[k])
  }

  /** A transaction's uncommitted rows are those of the statements it has done. */
  ghost predicate RowsDone(tx: Tx) {
    SingleRows(tx) && ItemRows(tx)
  }

  /** The ids a transaction drew are below the sequences and not in the tables. */
  ghost predicate IdsDrawn(s: Db, tx: Tx) {
    && (tx.done > 0 ==>
          && tx.orderId < s.orderSeq && tx.orderId !in s.committed.orders
          && !UidTaken(s.committed, tx.order.orderUID))
    && forall i :: i in tx.itemIds ==> i < s.itemSeq && i !in s.committed.items
  }

  ghost predicate Apart(a: Tx, b: Tx) {
    && (a.done > 0 && b.done > 0 ==> a.orderId != b.orderId && a.order.orderUID != b.order.orderUID)
    && forall i :: i in a.itemIds ==> i !in b.itemIds
  }

  ghost predicate Inv(s: Db) {
    && Sound(s.committed, s.ledger)
    && (forall id :: id in s.committed.orders ==> id < s.orderSeq)
    && (forall i :: i in s.committed.items ==> i < s.itemSeq)
    && (forall t :: t in s.open ==> RowsDone(s.open[t]) && IdsDrawn(s, s.open[t]))
    && forall t, u :: t in s.open && u in s.open && t != u ==> Apart(s.open[t], s.open[u])
  }

  // ----- Each step keeps it -----

  /** One transaction moves on, drawing ids perhaps; the tables and the others stay as they are. */
  lemma Advance(s: Db, t: nat, tx: Tx, orderSeq: nat, itemSeq: nat)
    requires Inv(s) && s.orderSeq <= orderSeq && s.itemSeq <= itemSeq
    requires
      var s' := s.(open := s.open[t := tx], orderSeq := orderSeq, itemSeq := itemSeq);
      RowsDone(tx) && IdsDrawn(s', tx)
    requires forall u :: u in s.open && u != t ==> Apart(tx, s.open[u])
    ensures Inv(s.(open := s.open[t := tx], orderSeq := orderSeq, itemSeq := itemSeq))
  {
    hide Sound, RowsDone, UidTaken;
    var s' := s.(open := s.open[t := tx], orderSeq := orderSeq, itemSeq := itemSeq);
    forall u | u in s'.open ensures RowsDone(s'.open[u]) && IdsDrawn(s', s'.open[u]) {
      if u != t { assert IdsDrawn(s, s.open[u]); }
    }
    forall u, v | u in s'.open && v in s'.open && u != v ensures Apart(s'.open[u], s'.open[v]) {
      if u != t && v != t { assert Apart(s.open[u], s.open[v]); }
    }
  }

  /** A transaction goes; whatever it had not committed goes with it. */
  lemma Leave(s: Db, t: nat, r: Report, orderSeq: nat, itemSeq: nat)
    requires Inv(s) && s.orderSeq <= orderSeq && s.itemSeq <= itemSeq
    ensures Inv(Close(s.(orderSeq := orderSeq, itemSeq := itemSeq), t, r))
  {
    hide Sound, RowsDone, UidTaken, Apart;
    var s' := Close(s.(orderSeq := orderSeq, itemSeq := itemSeq), t, r);
    forall u | u in s'.open ensures RowsDone(s'.open[u]) && IdsDrawn(s', s'.open[u]) {
      assert IdsDrawn(s, s.open[u]);
    }
  }

  lemma StepOrder(s: Db, t: nat)
    requires Inv(s) && Enabled(s, InsertOrder(t))
    ensures Inv(Apply(s, InsertOrder(t)))
  {
    hide Sound, OrdersValues, ItemsValues, Increasing;
    var s' := Apply(s, InsertOrder(t));
    forall u | u in s.open && u != t ensures Apart(s'.open[t], s.open[u]) {
      assert Apart(s.open[t], s.open[u]) && IdsDrawn(s, s.open[u]);
    }
    assert RowsDone(s.open[t]);
    Advance(s, t, s'.open[t], s'.orderSeq, s'.itemSeq);
  }

  lemma ItemsSame(tx: Tx, tx': Tx)
    requires ItemRows(tx) && tx.done < 3 && tx'.done <= 3
    requires tx'.order == tx.order && tx'.orderId == tx.orderId
    requires tx'.itemIds == tx.itemIds && tx'.rows.items == tx.rows.items
    ensures ItemRows(tx')
  {
  }

  lemma StepDelivery(s: Db, t: nat)
    requires Inv(s) && Enabled(s, InsertDelivery(t))
    ensures Inv(Apply(s, InsertDelivery(t)))
  {
    hide Sound, DeliveriesValues, OrdersValues, ItemRows, UidTaken;
    var s' := Apply(s, InsertDelivery(t));
    assert RowsDone(s.open[t]) && IdsDrawn(s, s.open[t]);
    ItemsSame(s.open[t], s'.open[t]);
    Advance(s, t, s'.open[t], s'.orderSeq, s'.itemSeq);
  }

  lemma StepPayment(s: Db, t: nat)
    requires Inv(s) && Enabled(s, InsertPayment(t))
    ensures Inv(Apply(s, InsertPayment(t)))
  {
    hide Sound, PaymentsValues, DeliveriesValues, OrdersValues, ItemRows, UidTaken;
    var s' := Apply(s, InsertPayment(t));
    assert RowsDone(s.open[t]) && IdsDrawn(s, s.open[t]);
    ItemsSame(s.open[t], s'.open[t]);
    Advance(s, t, s'.open[t], s'.orderSeq, s'.itemSeq);
  }

  lemma ItemRowsDone(tx: Tx, id: nat)
    requires RowsDone(tx) && 3 <= tx.done < 3 + |tx.order.items|
    requires forall i :: i in tx.itemIds ==> i < id
    ensures
      var row := ItemsValues(tx.orderId, tx.order.items[tx.done - 3]);
      RowsDone(tx.(done := tx.done + 1, itemIds := tx.itemIds + [id],
                   rows := tx.rows.(items := tx.rows.items[id := row])))
  {
    hide ItemsValues, SingleRows;
    var row := ItemsValues(tx.orderId, tx.order.items[tx.done - 3]);
    var tx' := tx.(done := tx.done + 1, itemIds := tx.itemIds + [id],
                   rows := tx.rows.(items := tx.rows.items[id := row]));
    assert forall k :: 0 <= k < |tx.itemIds| ==> tx.itemIds[k] in tx.itemIds && tx'.itemIds[k] == tx.itemIds[k];
    SinglesSame(tx, tx');
  }

  lemma SinglesSame(tx: Tx, tx': Tx)
    requires SingleRows(tx) && tx.done >= 3 && tx'.done >= 3
    requires tx'.order == tx.order && tx'.orderId == tx.orderId && tx'.now == tx.now
    requires tx'.rows == tx.rows.(items := tx'.rows.items)
    ensures SingleRows(tx')
  {
  }

  lemma StepItem(s: Db, t: nat)
    requires Inv(s) && Enabled(s, InsertItem(t))
    ensures Inv(Apply(s, InsertItem(t)))
  {
    hide Sound, ItemsValues, RowsDone;
    var s' := Apply(s, InsertItem(t));
    var tx := s.open[t];
    assert RowsDone(tx) && IdsDrawn(s, tx);
    ItemRowsDone(tx, s.itemSeq);
    forall u | u in s.open && u != t ensures Apart(s'.open[t], s.open[u]) {
      assert Apart(s.open[t], s.open[u]) && IdsDrawn(s, s.open[u]);
    }
    Advance(s, t, s'.open[t], s'.orderSeq, s'.itemSeq);
  }

  /** A finished transaction's item rows carry its order id, one id per item. */
  lemma OwnItems(tx: Tx, i: nat)
    requires RowsDone(tx) && i in tx.rows.items
    ensures i in tx.itemIds && tx.rows.items[i].orderId == tx.orderId
  {
    var k :| 0 <= k < |tx.itemIds| && tx.itemIds[k] == i;
  }

  /** Publishing one order leaves the item rows of another as they were. */
  lemma OtherItemsKept(t: Tables, tx: Tx, id: nat)
    requires RowsDone(tx) && id != tx.orderId
    requires forall i :: i in tx.itemIds ==> i !in t.items
    ensures ItemIds(Merge(t, tx.rows), id) == ItemIds(t, id)
    ensures forall i :: i in t.items ==> i in Merge(t, tx.rows).items && Merge(t, tx.rows).items[i] == t.items[i]
  {
    hide ItemsValues, OrdersValues, PaymentsValues, DeliveriesValues;
    forall i | i in tx.rows.items ensures tx.rows.items[i].orderId != id && i !in t.items {
      OwnItems(tx, i);
    }
  }

  lemma PublishKeeps(t: Tables, tx: Tx, id: nat, r: Receipt)
    requires Holds(t, id, r.itemIds, r.order, r.now)
    requires RowsDone(tx) && id != tx.orderId
    requires forall i :: i in tx.itemIds ==> i !in t.items
    ensures Holds(Merge(t, tx.rows), id, r.itemIds, r.order, r.now)
  {
    hide ItemsValues, OrdersValues, PaymentsValues, DeliveriesValues;
    OtherItemsKept(t, tx, id);
  }

  /** The new order's items are the only ones with its order id. */
  lemma NewItemIds(t: Tables, tx: Tx, i: nat)
    requires forall i :: i in t.items ==> t.items[i].orderId != tx.orderId
    requires i in ItemIds(Merge(t, tx.rows), tx.orderId)
    ensures i in tx.rows.items
  {
  }

  lemma PublishAddsItems(t: Tables, tx: Tx)
    requires ItemRows(tx) && tx.done == 3 + |tx.order.items|
    requires forall i :: i in t.items ==> t.items[i].orderId != tx.orderId
    ensures HoldsItems(Merge(t, tx.rows), tx.orderId, tx.itemIds, tx.order.items)
  {
    hide ItemsValues, ItemIds, Increasing;
    var t' := Merge(t, tx.rows);
    forall i | i in ItemIds(t', tx.orderId) ensures i in tx.itemIds {
      NewItemIds(t, tx, i);
    }
  }

  lemma PublishAdds(t: Tables, tx: Tx)
    requires RowsDone(tx) && tx.done == 3 + |tx.order.items|
    requires forall i :: i in t.items ==> t.items[i].orderId != tx.orderId
    ensures Holds(Merge(t, tx.rows), tx.orderId, tx.itemIds, tx.order, tx.now)
  {
    hide OrdersValues, PaymentsValues, DeliveriesValues, ItemRows, HoldsItems;
    PublishAddsItems(t, tx);
  }

  lemma PublishUnique(s: Db, t: nat, tx: Tx)
    requires UniqueUids(s.committed) && RowsDone(tx) && tx.done >= 1
    requires !UidTaken(s.committed, tx.order.orderUID)
    ensures UniqueUids(Publish(s, t, tx).committed)
  {
    hide ItemRows, PaymentsValues, DeliveriesValues;
    var t' := Publish(s, t, tx).committed;
    forall i, j | i in t'.orders && j in t'.orders && t'.orders[i].orderUid == t'.orders[j].orderUid ensures i == j {
      assert i == tx.orderId || (i in s.committed.orders && t'.orders[i] == s.committed.orders[i]);
      assert j == tx.orderId || (j in s.committed.orders && t'.orders[j] == s.committed.orders[j]);
    }
  }

  lemma PublishKeys(t: Tables, tx: Tx)
    requires RowsDone(tx) && tx.done >= 3
    ensures
      var t' := Merge(t, tx.rows);
      && t'.orders.Keys == t.orders.Keys + {tx.orderId}
      && t'.deliveries.Keys == t.deliveries.Keys + {tx.orderId}
      && t'.payments.Keys == t.payments.Keys + {tx.orderId}
      && (forall i :: i in t.items && i !in tx.rows.items ==> t'.items[i] == t.items[i])
  {
    hide ItemRows, OrdersValues, PaymentsValues, DeliveriesValues;
    KeysPlus(t.orders, tx.rows.orders, tx.orderId);
    KeysPlus(t.deliveries, tx.rows.deliveries, tx.orderId);
    KeysPlus(t.payments, tx.rows.payments, tx.orderId);
  }

  lemma KeysPlus<V>(m: map<nat, V>, n: map<nat, V>, id: nat)
    requires n.Keys == {id}
    ensures (m + n).Keys == m.Keys + {id}
  {
  }

  lemma PublishReferences(t: Tables, tx: Tx)
    requires RowsDone(tx) && tx.done >= 3
    requires forall i :: i in t.items ==> t.items[i].orderId in t.orders
    ensures forall i :: i in Merge(t, tx.rows).items ==> Merge(t, tx.rows).items[i].orderId in Merge(t, tx.rows).orders
  {
    hide ItemsValues, OrdersValues, PaymentsValues, DeliveriesValues, RowsDone;
    PublishKeys(t, tx);
    var t' := Merge(t, tx.rows);
    forall i | i in t'.items ensures t'.items[i].orderId in t'.orders {
      if i in tx.rows.items { OwnItems(tx, i); }
    }
  }

  /** Publishing a finished transaction keeps the tables sound. */
  lemma PublishSound(s: Db, t: nat, tx: Tx)
    requires Sound(s.committed, s.ledger) && RowsDone(tx) && IdsDrawn(s, tx)
    requires tx.done == 3 + |tx.order.items|
    ensures Sound(Publish(s, t, tx).committed, Publish(s, t, tx).ledger)
  {
    hide Holds, RowsDone, UniqueUids, UidTaken, Merge;
    var tables, s' := s.committed, Publish(s, t, tx);
    var t' := s'.committed;
    PublishUnique(s, t, tx);
    PublishKeys(tables, tx);
    PublishReferences(tables, tx);
    PublishAdds(tables, tx);
    forall id | id in s'.ledger
      ensures Holds(t', id, s'.ledger[id].itemIds, s'.ledger[id].order, s'.ledger[id].now)
    {
      if id != tx.orderId { PublishKeeps(tables, tx, id, s.ledger[id]); }
    }
  }

  /** After publishing, the ids and uid of another transaction are still not in the tables. */
  lemma PublishApart(s: Db, t: nat, tx: Tx, other: Tx)
    requires RowsDone(tx) && tx.done >= 1 && IdsDrawn(s, other) && Apart(tx, other)
    ensures IdsDrawn(Publish(s, t, tx), other)
  {
    hide ItemsValues, PaymentsValues, DeliveriesValues;
    var s' := Publish(s, t, tx);
    if other.done > 0 {
      forall id | id in s'.committed.orders ensures s'.committed.orders[id].orderUid != other.order.orderUID {
        if id != tx.orderId { assert s'.committed.orders[id] == s.committed.orders[id]; }
      }
    }
  }

  lemma StepPublish(s: Db, t: nat, r: Report)
    requires Inv(s) && t in s.open && s.open[t].done == 3 + |s.open[t].order.items|
    ensures Inv(Close(Publish(s, t, s.open[t]), t, r))
  {
    hide Sound, RowsDone, UidTaken, IdsDrawn, Apart, Merge;
    var tx := s.open[t];
    var s' := Close(Publish(s, t, tx), t, r);
    PublishSound(s, t, tx);
    PublishBounds(s, t, tx);
    forall u | u in s'.open ensures IdsDrawn(s', s'.open[u]) {
      assert Apart(tx, s.open[u]) && IdsDrawn(s, s.open[u]);
      PublishApart(s, t, tx, s.open[u]);
      DrawnSame(Publish(s, t, tx), s', s.open[u]);
    }
  }

  lemma DrawnSame(s: Db, s': Db, tx: Tx)
    requires IdsDrawn(s, tx) && s.committed == s'.committed && s.orderSeq == s'.orderSeq && s.itemSeq == s'.itemSeq
    ensures IdsDrawn(s', tx)
  {
  }

  lemma PublishBounds(s: Db, t: nat, tx: Tx)
    requires RowsDone(tx) && IdsDrawn(s, tx) && tx.done >= 1
    requires forall id :: id in s.committed.orders ==> id < s.orderSeq
    requires forall i :: i in s.committed.items ==> i < s.itemSeq
    ensures forall id :: id in Publish(s, t, tx).committed.orders ==> id < s.orderSeq
    ensures forall i :: i in Publish(s, t, tx).committed.items ==> i < s.itemSeq
  {
    hide ItemsValues, OrdersValues, PaymentsValues, DeliveriesValues;
  }

  /** The record of orders begun plays no part in the invariant. */
  lemma InvSame(s: Db, s': Db)
    requires Inv(s) && s' == s.(begun := s'.begun)
    ensures Inv(s')
  {
    hide Sound, RowsDone, Apart;
    forall t | t in s'.open ensures IdsDrawn(s', s'.open[t]) {
      assert IdsDrawn(s, s.open[t]);
      DrawnSame(s, s', s.open[t]);
    }
  }

  lemma StepBegin(s: Db, t: nat, o: Order, now: int)
    requires Inv(s) && Enabled(s, Begin(t, o, now))
    ensures Inv(Apply(s, Begin(t, o, now)))
  {
    hide Sound, UidTaken, UidLocked;
    var tx := Tx(o, now, 0, 0, [], NO_ROWS);
    Advance(s, t, tx, s.orderSeq, s.itemSeq);
    InvSame(s.(open := s.open[t := tx]), Apply(s, Begin(t, o, now)));
  }

  lemma StepBurn(s: Db, n: nat, m: nat)
    requires Inv(s)
    ensures Inv(Apply(s, BurnIds(n, m)))
  {
    hide Sound, UidTaken, RowsDone, Apart;
    var s' := Apply(s, BurnIds(n, m));
    forall u | u in s.open ensures IdsDrawn(s', s.open[u]) {
      assert IdsDrawn(s, s.open[u]);
    }
  }

  lemma StepKeeps(s: Db, a: Action)
    requires Inv(s) && Enabled(s, a)
    ensures Inv(Apply(s, a))
  {
    hide Inv, UidTaken, UidLocked;
    match a
    case Begin(t, o, now) => StepBegin(s, t, o, now);
    case BurnIds(n, m) => StepBurn(s, n, m);
    case InsertOrder(t) => StepOrder(s, t);
    case RejectDuplicate(t) => Leave(s, t, AlreadyExists, s.orderSeq + 1, s.itemSeq);
    case InsertDelivery(t) => StepDelivery(s, t);
    case InsertPayment(t) => StepPayment(s, t);
    case InsertItem(t) => StepItem(s, t);
    case Fail(t, r) => Leave(s, t, r, s.orderSeq, s.itemSeq);
    case Commit(t) => StepPublish(s, t, Stored);
    case CommitError(t, applied) =>
      if applied { StepPublish(s, t, Other); } else { Leave(s, t, Other, s.orderSeq, s.itemSeq); }
  }

  lemma {:induction false} RunKeeps(s: Db, actions: seq<Action>)
    requires Inv(s) && Runs(s, actions)
    ensures Inv(After(s, actions))
  {
    if actions != [] {
      RunKeeps(s, actions[..|actions| - 1]);
      StepKeeps(After(s, actions[..|actions| - 1]), actions[|actions| - 1]);
    }
  }
}
