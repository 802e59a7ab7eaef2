/**
 The four tables of sql/001_initial_schema.sql and the statements of internal/store/queries.go: how
 an order is shredded into rows, and how the retrieve query puts it together again.
 */
module Queries {
  import opened Domain

  datatype OrderRow = OrderRow(
    orderUid: string, trackNumber: string, entry: string, locale: string,
    internalSignature: string, customerId: string, deliveryService: string,
    shardKey: string, smId: int, dateCreated: int, oofShard: string, updatedAt: int)

  datatype DeliveryRow = DeliveryRow(
    name: string, phone: string, zip: string, city: string,
    address: string, region: string, email: string)

  datatype PaymentRow = PaymentRow(
    transaction: string, requestId: string, currency: string, provider: string, amount: int,
    paymentDt: int, bank: string, deliveryCost: int, goodsTotal: int, customFee: int)

  datatype ItemRow = ItemRow(
    orderId: nat, chrtId: int, trackNumber: string, price: int, rid: string, name: string,
    sale: int, size: string, totalPrice: int, nmId: int, brand: string, status: int)

  /** Tables by primary key; deliveries and payments are keyed by the order they belong to. */
  datatype Tables = Tables(
    orders: map<nat, OrderRow>,
    deliveries: map<nat, DeliveryRow>,
    payments: map<nat, PaymentRow>,
    items: map<nat, ItemRow>)

  const NO_ROWS := Tables(map[], map[], map[], map[])

  // ----- Shredding: the parameters of the INSERT statements, in their order -----

  function OrdersValues(o: Order, now: int): OrderRow {
    OrderRow(o.orderUID, o.trackNumber, o.entry, o.locale, o.internalSignature, o.customerID,
             o.deliveryService, o.shardKey, o.smID, o.dateCreated, o.oofShard, now)
  }

  function DeliveriesValues(d: Delivery): DeliveryRow {
    DeliveryRow(d.name, d.phone, d.zip, d.city, d.address, d.region, d.email)
  }

  function PaymentsValues(p: Payment): PaymentRow {
    PaymentRow(p.transaction, p.requestID, p.currency, p.provider, p.amount,
               p.paymentDt, p.bank, p.deliveryCost, p.goodsTotal, p.customFee)
  }

  function ItemsValues(orderId: nat, i: Item): ItemRow {
    ItemRow(orderId, i.chrtID, i.trackNumber, i.price, i.rid, i.name,
            i.sale, i.size, i.totalPrice, i.nmID, i.brand, i.status)
  }

  // ----- Reassembly: the JSON objects built by the retrieve queries -----

  function ItemObject(r: ItemRow): Item {
    Item(r.chrtId, r.trackNumber, r.price, r.rid, r.name, r.sale, r.size, r.totalPrice, r.nmId, r.brand, r.status)
  }

  function DeliveryObject(r: DeliveryRow): Delivery {
    Delivery(r.name, r.phone, r.zip, r.city, r.address, r.region, r.email)
  }

  function PaymentObject(r: PaymentRow): Payment {
    Payment(r.transaction, r.requestId, r.currency, r.provider, r.amount,
            r.paymentDt, r.bank, r.deliveryCost, r.goodsTotal, r.customFee)
  }

  function OrderObject(o: OrderRow, d: DeliveryRow, p: PaymentRow, items: seq<Item>): Order {
    Order(o.orderUid, o.trackNumber, o.entry, DeliveryObject(d), PaymentObject(p), items,
          o.locale, o.internalSignature, o.customerId, o.deliveryService, o.shardKey,
          o.smId, o.dateCreated, o.oofShard)
  }

  /** The greatest member of a set of ids. */
  ghost function Greatest(s: set<nat>): (m: nat)
    requires s != {}
    ensures m in s && forall x :: x in s ==> x <= m
    decreases s
  {
    var x :| x in s;
    assert s == (s - {x}) + {x};
    if s - {x} == {} then x else
      var m := Greatest(s - {x});
      if m < x then x else m
  }

  /** ORDER BY id: the members of a set of ids in increasing order. */
  ghost function Ascending(s: set<nat>): seq<nat>
    decreases s
  {
    if s == {} then [] else Ascending(s - {Greatest(s)}) + [Greatest(s)]
  }

  /** The ids of an order's items: the group of order_id in the items subquery. */
  ghost function ItemIds(t: Tables, orderId: nat): set<nat> {
    set i | i in t.items && t.items[i].orderId == orderId
  }

  ghost function Aggregate(t: Tables, ids: seq<nat>): seq<Item>
    requires forall i :: i in ids ==> i in t.items
  {
    if ids == [] then [] else Aggregate(t, ids[..|ids| - 1]) + [ItemObject(t.items[ids[|ids| - 1]])]
  }

  lemma {:induction false} AscendingMembers(s: set<nat>)
    ensures forall i :: i in Ascending(s) <==> i in s
    decreases s
  {
    if s != {} {
      AscendingMembers(s - {Greatest(s)});
    }
  }

  /** json_agg over the group, ordered by id; an order without items yields the empty array. */
  ghost function ItemsJSON(t: Tables, orderId: nat): seq<Item> {
    AscendingMembers(ItemIds(t, orderId));
    Aggregate(t, Ascending(ItemIds(t, orderId)))
  }

  /** The rows of orders that both inner joins and the WHERE clause let through. */
  ghost function Matching(t: Tables, uid: string): set<nat> {
    set id | id in t.orders && id in t.deliveries && id in t.payments && t.orders[id].orderUid == uid
  }

  ghost function RowObject(t: Tables, id: nat): Order
    requires id in t.orders && id in t.deliveries && id in t.payments
  {
    OrderObject(t.orders[id], t.deliveries[id], t.payments[id], ItemsJSON(t, id))
  }

  /** GetOrder: the first row of the retrieve query, or none. */
  ghost function GetOrder(t: Tables, uid: string): Option<Order> {
    if Matching(t, uid) == {} then None else
      var id :| id in Matching(t, uid);
      Some(RowObject(t, id))
  }

  // ----- The round trip -----

  ghost predicate Increasing(ids: seq<nat>) {
    forall i, j :: 0 <= i < j < |ids| ==> ids[i] < ids[j]
  }

  /** An increasing sequence is the only increasing enumeration of its members. */
  lemma {:induction false} AscendingUnique(ids: seq<nat>, s: set<nat>)
    requires Increasing(ids) && forall i :: i in ids <==> i in s
    ensures Ascending(s) == ids
    decreases ids
  {
    if ids == [] {
      assert s == {};
    } else {
      var n := |ids| - 1;
      assert ids[n] in ids;
      var g := Greatest(s);
      assert g in ids;
      assert ids == ids[..n] + [ids[n]];
      assert g == ids[n];
      forall i ensures i in ids[..n] <==> i in s - {g} {
        if i in s - {g} { assert i in ids; }
      }
      AscendingUnique(ids[..n], s - {g});
    }
  }

  /** One row in each of the three tables that hold one row an order. */
  ghost predicate HoldsSingles(t: Tables, id: nat, o: Order, now: int) {
    && id in t.orders && t.orders[id] == OrdersValues(o, now)
    && id in t.deliveries && t.deliveries[id] == DeliveriesValues(o.delivery)
    && id in t.payments && t.payments[id] == PaymentsValues(o.payment)
  }

  /** Exactly one item row per item, under increasing ids. */
  ghost predicate HoldsItems(t: Tables, id: nat, itemIds: seq<nat>, items: seq<Item>) {
    && |itemIds| == |items| && Increasing(itemIds)
    && (forall k :: 0 <= k < |itemIds| ==>
          itemIds[k] in t.items && t.items[itemIds[k]] == ItemsValues(id, items[k]))
    && (forall i :: i in ItemIds(t, id) ==> i in itemIds)
  }

  /** The rows that hold an order. */
  ghost predicate Holds(t: Tables, id: nat, itemIds: seq<nat>, o: Order, now: int) {
    HoldsSingles(t, id, o, now) && HoldsItems(t, id, itemIds, o.items)
  }

  lemma {:induction false} AggregateIs(t: Tables, ids: seq<nat>, items: seq<Item>, orderId: nat)
    requires |ids| == |items|
    requires forall k :: 0 <= k < |ids| ==> ids[k] in t.items && t.items[ids[k]] == ItemsValues(orderId, items[k])
    ensures Aggregate(t, ids) == items
    decreases |ids|
  {
    if ids != [] {
      var n := |ids| - 1;
      AggregateIs(t, ids[..n], items[..n], orderId);
      assert items == items[..n] + [items[n]];
    }
  }

  /** Reassembling the rows of an order gives back the order, items in their original sequence. */
  lemma RowRoundTrip(t: Tables, id: nat, itemIds: seq<nat>, o: Order, now: int)
    requires Holds(t, id, itemIds, o, now)
    ensures RowObject(t, id) == o
  {
    forall i ensures i in itemIds <==> i in ItemIds(t, id) {
    }
    AscendingUnique(itemIds, ItemIds(t, id));
    AscendingMembers(ItemIds(t, id));
    AggregateIs(t, itemIds, o.items, id);
  }

  /** UNIQUE (order_uid). */
  ghost predicate UniqueUids(t: Tables) {
    forall i, j :: i in t.orders && j in t.orders && t.orders[i].orderUid == t.orders[j].orderUid ==> i == j
  }

  /** The retrieve query returns exactly the order whose rows are held under its uid. */
  lemma RetrieveRoundTrip(t: Tables, id: nat, itemIds: seq<nat>, o: Order, now: int)
    requires UniqueUids(t) && Holds(t, id, itemIds, o, now)
    ensures GetOrder(t, o.orderUID) == Some(o)
  {
    RowRoundTrip(t, id, itemIds, o, now);
    assert id in Matching(t, o.orderUID);
    assert forall j :: j in Matching(t, o.orderUID) ==> j == id;
  }
}
