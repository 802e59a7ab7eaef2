/**
 What the deep-size calculator returns in plain numbers: for each kind of value, for the value of its own
 test, and for the orders that the cache measures, as a 64-bit platform lays them out.
 */
module SizeofValues {
  import opened Domain
  import opened Sums
  import opened Sizeof
  import opened SizeofLaws

  lemma {:induction false} Concat(us: seq<Value>, vs: seq<Value>)
    ensures LocalHeapAll(us + vs) == LocalHeapAll(us) + LocalHeapAll(vs)
    ensures PointeesAll(us + vs) == PointeesAll(us) + PointeesAll(vs)
  {
    hide LocalHeap, Pointees;
    if vs == [] {
      assert us + vs == us;
    } else {
      var n := |vs| - 1;
      assert (us + vs)[..|us| + n] == us + vs[..n];
      Concat(us, vs[..n]);
    }
  }

  lemma One(v: Value)
    ensures LocalHeapAll([v]) == LocalHeap(v) && PointeesAll([v]) == Pointees(v)
  {
    hide LocalHeap, Pointees;
    assert [v][..0] == [];
  }

  lemma Two(u: Value, v: Value)
    ensures LocalHeapAll([u, v]) == LocalHeap(u) + LocalHeap(v)
    ensures PointeesAll([u, v]) == Pointees(u) + Pointees(v)
  {
    hide LocalHeap, Pointees, LocalHeapAll, PointeesAll;
    One(u);
    One(v);
    Concat([u], [v]);
    assert [u, v] == [u] + [v];
  }

  lemma Four(t: Value, u: Value, v: Value, w: Value)
    ensures LocalHeapAll([t, u, v, w]) == LocalHeap(t) + LocalHeap(u) + LocalHeap(v) + LocalHeap(w)
    ensures PointeesAll([t, u, v, w]) == Pointees(t) + Pointees(u) + Pointees(v) + Pointees(w)
  {
    hide LocalHeap, Pointees, LocalHeapAll, PointeesAll;
    Two(t, u);
    Two(v, w);
    Concat([t, u], [v, w]);
    assert [t, u, v, w] == [t, u] + [v, w];
  }

  /** Nothing is reachable from no address. */
  lemma NothingReached(h: Heap)
    ensures Reach(h, {}) == {}
  {
  }

  /** A value that points nowhere. */
  lemma PlainSize(h: Heap, v: Value)
    requires Pointees(v) == {}
    ensures DeepSize(h, v) == TypeSize(v) + LocalHeap(v)
  {
    hide Reach;
    NothingReached(h);
  }

  lemma EntryIs(e: Entry)
    ensures LocalHeap(Map(false, [e])) == Cost(e.key) + Cost(e.val)
    ensures Pointees(Map(false, [e])) == Pointees(e.key) + Pointees(e.val)
  {
    var es := [e];
    assert es[..0] == [] && EntriesCost(es) == EntriesCost(es[..0]) + CostOfEntry(e);
    assert EntryPointees(es) == EntryPointees(es[..0]) + PointeesOfPair(e);
    assert LocalHeap(Map(false, es)) == EntriesCost(es) && Pointees(Map(false, es)) == EntryPointees(es);
  }

  lemma StructIs(width: nat, fields: seq<Value>)
    ensures LocalHeap(Struct(width, fields)) == LocalHeapAll(fields)
    ensures Pointees(Struct(width, fields)) == PointeesAll(fields)
  {
    hide LocalHeapAll, PointeesAll;
  }

  lemma SliceIs(width: nat, capacity: nat, elems: seq<Value>)
    ensures LocalHeap(Slice(false, width, capacity, elems)) == capacity * width + LocalHeapAll(elems)
    ensures Pointees(Slice(false, width, capacity, elems)) == PointeesAll(elems)
  {
    hide LocalHeapAll, PointeesAll;
  }

  // ----- Kind by kind -----

  /** Values without parts: their width, and the bytes of a string; nil costs only its header. */
  lemma SimpleSizes(h: Heap, n: nat, w: nat, c: nat)
    ensures DeepSize(h, Invalid) == 0
    ensures DeepSize(h, Leaf(w)) == w
    ensures DeepSize(h, Str(n)) == 16 + n
    ensures DeepSize(h, Pointer(Nil)) == 8
    ensures DeepSize(h, Slice(true, w, c, [])) == 24
    ensures DeepSize(h, Map(true, [])) == 8
  {
    hide DeepSize;
    PlainSize(h, Invalid);
    PlainSize(h, Leaf(w));
    PlainSize(h, Str(n));
    PlainSize(h, Pointer(Nil));
    PlainSize(h, Slice(true, w, c, []));
    PlainSize(h, Map(true, []));
  }

  /** A slice counts its whole capacity, and with a struct the bytes of the strings inside. */
  lemma CompoundSizes(h: Heap, n: nat, w: nat, c: nat)
    ensures DeepSize(h, Slice(false, w, c, [])) == 24 + c * w
    ensures DeepSize(h, Slice(false, 16, c, [Str(n)])) == 24 + c * 16 + n
    ensures DeepSize(h, Struct(w, [Leaf(8), Str(n)])) == w + n
  {
    hide DeepSize, LocalHeapAll, PointeesAll;
    One(Str(n));
    Two(Leaf(8), Str(n));
    Nothing();
    SliceIs(w, c, []);
    SliceIs(16, c, [Str(n)]);
    StructIs(w, [Leaf(8), Str(n)]);
    PlainSize(h, Slice(false, w, c, []));
    PlainSize(h, Slice(false, 16, c, [Str(n)]));
    PlainSize(h, Struct(w, [Leaf(8), Str(n)]));
  }

  lemma Nothing()
    ensures LocalHeapAll([]) == 0 && PointeesAll([]) == {}
  {
  }

  /** A map counts its header and every key and value whole. */
  lemma MapSize(h: Heap, m: nat, n: nat)
    ensures DeepSize(h, Map(false, [Entry(Str(m), Str(n))])) == 8 + (16 + m) + (16 + n)
    ensures DeepSize(h, Map(false, [Entry(Str(m), Invalid)])) == 8 + (16 + m)
  {
    hide DeepSize;
    EntryIs(Entry(Str(m), Str(n)));
    EntryIs(Entry(Str(m), Invalid));
    PlainSize(h, Map(false, [Entry(Str(m), Str(n))]));
    PlainSize(h, Map(false, [Entry(Str(m), Invalid)]));
  }

  /** A value that points to one cell, a string, once or more often. */
  lemma SizeWithCell(h: Heap, v: Value, a: nat, n: nat)
    requires a in h && h[a] == Str(n) && Pointees(v) == {a}
    ensures DeepSize(h, v) == TypeSize(v) + LocalHeap(v) + 16 + n
  {
    ReachesSelf(h, a);
    forall b | b in Reach(h, {a}) ensures b == a {
      var p :| IsPath(h, p) && p[0] in {a} && p[|p| - 1] == b;
      PathStaysInside(h, {a}, p, |p| - 1);
    }
    assert Reach(h, {a}) == {a};
    OneCell(h, a, n);
  }

  lemma OneCell(h: Heap, a: nat, n: nat)
    requires a in h && h[a] == Str(n)
    ensures SumOver({a}, CellCost(h)) == 16 + n
  {
    SumRemove({a}, CellCost(h), a);
    assert {a} - {a} == {};
    assert Cost(Str(n)) == 16 + n;
  }

  /** A shared cell counts once wherever it is pointed to from: a struct, a slice, a map. */
  lemma SharedSizes(h: Heap, a: nat, n: nat, w: nat, c: nat)
    requires a in h && h[a] == Str(n)
    ensures DeepSize(h, Pointer(At(a))) == 8 + 16 + n
    ensures DeepSize(h, Struct(w, [Pointer(At(a)), Pointer(At(a))])) == w + 16 + n
    ensures DeepSize(h, Slice(false, 8, c, [Pointer(At(a)), Pointer(At(a))])) == 24 + c * 8 + 16 + n
    ensures DeepSize(h, Map(false, [Entry(Pointer(At(a)), Pointer(At(a)))])) == 8 + 8 + 8 + 16 + n
  {
    hide DeepSize, LocalHeapAll, PointeesAll;
    var p := Pointer(At(a));
    Two(p, p);
    StructIs(w, [p, p]);
    SliceIs(8, c, [p, p]);
    EntryIs(Entry(p, p));
    SizeWithCell(h, p, a, n);
    SizeWithCell(h, Struct(w, [p, p]), a, n);
    SizeWithCell(h, Slice(false, 8, c, [p, p]), a, n);
    SizeWithCell(h, Map(false, [Entry(p, p)]), a, n);
  }

  /** A cell that points to itself is counted once and the walk ends. */
  lemma CycleSize(h: Heap, a: nat, w: nat)
    requires WellFormed(h) && a in h && h[a] == Struct(w, [Pointer(At(a))])
    ensures DeepSize(h, Pointer(At(a))) == 8 + w
  {
    hide Reach, LocalHeapAll, PointeesAll, WellFormed, DeepSize;
    One(Pointer(At(a)));
    StructIs(w, [Pointer(At(a))]);
    PointerSize(h, a);
    OnlyItself(h, a);
    assert Reach(h, {a}) - {a} == {};
  }

  lemma OnlyItself(h: Heap, a: nat)
    requires a in h && Pointees(h[a]) == {a}
    ensures forall b :: b in Reach(h, {a}) ==> b == a
  {
    hide Pointees;
    forall b | b in Reach(h, {a}) ensures b == a {
      var p :| IsPath(h, p) && p[0] in {a} && p[|p| - 1] == b;
      PathStaysInside(h, {a}, p, |p| - 1);
    }
  }

  /** The expectation of the calculator's own test. */
  lemma FatherTest(h: Heap)
    ensures
      var arthur, dutch := Struct(24, [Str(13), Leaf(1)]), Struct(24, [Str(19), Leaf(1)]);
      var nested, big := Struct(32, [Str(14), Str(10)]), Slice(false, 24, 3, [arthur, dutch] + [arthur]);
      DeepSize(h, Struct(80, [Str(12), Leaf(8), nested, big])) == 233
  {
    hide DeepSize, LocalHeapAll, PointeesAll;
    var arthur, dutch := Struct(24, [Str(13), Leaf(1)]), Struct(24, [Str(19), Leaf(1)]);
    var nested, big := Struct(32, [Str(14), Str(10)]), Slice(false, 24, 3, [arthur, dutch] + [arthur]);
    Two(Str(14), Str(10));
    Two(Str(13), Leaf(1));
    Two(Str(19), Leaf(1));
    StructIs(24, [Str(13), Leaf(1)]);
    StructIs(24, [Str(19), Leaf(1)]);
    StructIs(32, [Str(14), Str(10)]);
    Two(arthur, dutch);
    One(arthur);
    Concat([arthur, dutch], [arthur]);
    SliceIs(24, 3, [arthur, dutch] + [arthur]);
    Four(Str(12), Leaf(8), nested, big);
    StructIs(80, [Str(12), Leaf(8), nested, big]);
    PlainSize(h, Struct(80, [Str(12), Leaf(8), nested, big]));
  }

  // ----- Orders -----

  function Text(s: string): Value {
    Str(|s|)
  }

  const INT := Leaf(8)

  /** A time.Time: two words and a pointer to its zone, nil for UTC. */
  function TimeValue(zone: Target): Value {
    Struct(24, [INT, INT, Pointer(zone)])
  }

  function DeliveryValue(d: Delivery): Value {
    Struct(112, [Text(d.name), Text(d.phone), Text(d.zip), Text(d.city)]
                + [Text(d.address), Text(d.region)] + [Text(d.email)])
  }

  function PaymentValue(p: Payment): Value {
    Struct(120, [Text(p.transaction), Text(p.requestID), Text(p.currency), Text(p.provider)]
                + [INT, INT, Text(p.bank), INT] + [INT, INT])
  }

  function ItemValue(i: Item): Value {
    Struct(128, [INT, Text(i.trackNumber), INT, Text(i.rid)] + [Text(i.name), INT, Text(i.size), INT]
                + [INT, Text(i.brand)] + [INT])
  }

  function ItemValues(items: seq<Item>): seq<Value> {
    seq(|items|, i requires 0 <= i < |items| => ItemValue(items[i]))
  }

  /** The Go value of an order whose item slice has this capacity. */
  function OrderValue(o: Order, capacity: nat, zone: Target): Value {
    Struct(432, [Text(o.orderUID), Text(o.trackNumber), Text(o.entry), DeliveryValue(o.delivery)]
                + [PaymentValue(o.payment), Slice(false, 128, capacity, ItemValues(o.items)), Text(o.locale),
                   Text(o.internalSignature)]
                + [Text(o.customerID), Text(o.deliveryService), Text(o.shardKey), INT]
                + [TimeValue(zone), Text(o.oofShard)])
  }

  function DeliveryText(d: Delivery): nat {
    |d.name| + |d.phone| + |d.zip| + |d.city| + |d.address| + |d.region| + |d.email|
  }

  function PaymentText(p: Payment): nat {
    |p.transaction| + |p.requestID| + |p.currency| + |p.provider| + |p.bank|
  }

  function ItemText(i: Item): nat {
    |i.trackNumber| + |i.rid| + |i.name| + |i.size| + |i.brand|
  }

  function ItemsText(items: seq<Item>): nat {
    if items == [] then 0 else ItemsText(items[..|items| - 1]) + ItemText(items[|items| - 1])
  }

  /** The lengths of all strings of an order. */
  function OrderText(o: Order): nat {
    |o.orderUID| + |o.trackNumber| + |o.entry| + DeliveryText(o.delivery) + PaymentText(o.payment) + ItemsText(o.items)
    + |o.locale| + |o.internalSignature| + |o.customerID| + |o.deliveryService| + |o.shardKey| + |o.oofShard|
  }

  lemma Leaves(s: string)
    ensures LocalHeap(Text(s)) == |s| && LocalHeap(INT) == 0
    ensures Pointees(Text(s)) == {} && Pointees(INT) == {}
  {
  }

  lemma TextsAndInts()
    ensures forall s :: LocalHeap(Text(s)) == |s| && Pointees(Text(s)) == {}
    ensures LocalHeap(INT) == 0 && Pointees(INT) == {}
  {
    hide LocalHeap, Pointees, Text;
    Leaves("");
    forall s ensures LocalHeap(Text(s)) == |s| && Pointees(Text(s)) == {} { Leaves(s); }
  }

  lemma DeliverySize(d: Delivery)
    ensures LocalHeap(DeliveryValue(d)) == DeliveryText(d) && Pointees(DeliveryValue(d)) == {}
  {
    hide LocalHeap, Pointees, LocalHeapAll, PointeesAll, Text;
    var first, second := [Text(d.name), Text(d.phone), Text(d.zip), Text(d.city)], [Text(d.address), Text(d.region)];
    TextsAndInts();
    Four(Text(d.name), Text(d.phone), Text(d.zip), Text(d.city));
    Two(Text(d.address), Text(d.region));
    One(Text(d.email));
    Concat(first, second);
    Concat(first + second, [Text(d.email)]);
    StructIs(112, first + second + [Text(d.email)]);
  }

  lemma PaymentSize(p: Payment)
    ensures LocalHeap(PaymentValue(p)) == PaymentText(p) && Pointees(PaymentValue(p)) == {}
  {
    hide LocalHeap, Pointees, LocalHeapAll, PointeesAll, Text;
    var first := [Text(p.transaction), Text(p.requestID), Text(p.currency), Text(p.provider)];
    var second, third := [INT, INT, Text(p.bank), INT], [INT, INT];
    TextsAndInts();
    Four(Text(p.transaction), Text(p.requestID), Text(p.currency), Text(p.provider));
    Four(INT, INT, Text(p.bank), INT);
    Two(INT, INT);
    Concat(first, second);
    Concat(first + second, third);
    StructIs(120, first + second + third);
  }

  lemma ItemSize(i: Item)
    ensures LocalHeap(ItemValue(i)) == ItemText(i) && Pointees(ItemValue(i)) == {}
  {
    hide LocalHeap, Pointees, LocalHeapAll, PointeesAll, Text;
    var first, second := [INT, Text(i.trackNumber), INT, Text(i.rid)], [Text(i.name), INT, Text(i.size), INT];
    var third := [INT, Text(i.brand)];
    TextsAndInts();
    Four(INT, Text(i.trackNumber), INT, Text(i.rid));
    Four(Text(i.name), INT, Text(i.size), INT);
    Two(INT, Text(i.brand));
    One(INT);
    Concat(first, second);
    Concat(first + second, third);
    Concat(first + second + third, [INT]);
    StructIs(128, first + second + third + [INT]);
  }

  lemma {:induction false} ItemsSize(items: seq<Item>)
    ensures LocalHeapAll(ItemValues(items)) == ItemsText(items) && PointeesAll(ItemValues(items)) == {}
  {
    hide LocalHeap, Pointees, ItemValue, ItemText;
    if items != [] {
      var n := |items| - 1;
      ItemsSize(items[..n]);
      ItemSize(items[n]);
      assert ItemValues(items)[..n] == ItemValues(items[..n]);
    }
  }

  lemma TimeSize(zone: Target)
    ensures LocalHeap(TimeValue(zone)) == 0
    ensures Pointees(TimeValue(zone)) == if zone.At? then {zone.address} else {}
  {
    Two(INT, INT);
    One(Pointer(zone));
    Concat([INT, INT], [Pointer(zone)]);
    assert [INT, INT, Pointer(zone)] == [INT, INT] + [Pointer(zone)];
  }

  lemma OrderHeap(o: Order, capacity: nat, zone: Target)
    ensures LocalHeap(OrderValue(o, capacity, zone)) == OrderText(o) + capacity * 128
    ensures Pointees(OrderValue(o, capacity, zone)) == if zone.At? then {zone.address} else {}
  {
    hide LocalHeap, Pointees, LocalHeapAll, PointeesAll, Text;
    hide DeliveryValue, PaymentValue, TimeValue, ItemValues, DeliveryText, PaymentText, ItemsText;
    var delivery, payment := DeliveryValue(o.delivery), PaymentValue(o.payment);
    var items, time := Slice(false, 128, capacity, ItemValues(o.items)), TimeValue(zone);
    var first := [Text(o.orderUID), Text(o.trackNumber), Text(o.entry), delivery];
    var second := [payment, items, Text(o.locale), Text(o.internalSignature)];
    var third := [Text(o.customerID), Text(o.deliveryService), Text(o.shardKey), INT];
    var fourth := [time, Text(o.oofShard)];
    TextsAndInts();
    DeliverySize(o.delivery);
    PaymentSize(o.payment);
    ItemsSize(o.items);
    SliceIs(128, capacity, ItemValues(o.items));
    TimeSize(zone);
    Four(Text(o.orderUID), Text(o.trackNumber), Text(o.entry), delivery);
    Four(payment, items, Text(o.locale), Text(o.internalSignature));
    Four(Text(o.customerID), Text(o.deliveryService), Text(o.shardKey), INT);
    Two(time, Text(o.oofShard));
    Concat(first, second);
    Concat(first + second, third);
    Concat(first + second + third, fourth);
    StructIs(432, first + second + third + fourth);
  }

  /** What the cells of a time zone add: nothing for UTC. */
  ghost function ZoneSize(h: Heap, a: nat, zone: Target): nat {
    if zone.At? then SumOver(Reach(h, {zone.address}) - {a}, CellCost(h)) else 0
  }

  /**
   The deep size of a pointer to an order: the pointer, the struct, the bytes of all its strings, the whole
   capacity of its item slice, and the cells of its time zone, if it has one.
   */
  lemma OrderSize(h: Heap, a: nat, o: Order, capacity: nat, zone: Target)
    requires WellFormed(h) && a in h && h[a] == OrderValue(o, capacity, zone)
    ensures DeepSize(h, Pointer(At(a))) == 8 + 432 + OrderText(o) + capacity * 128 + ZoneSize(h, a, zone)
    ensures zone == Nil ==> DeepSize(h, Pointer(At(a))) == 440 + OrderText(o) + capacity * 128
  {
    hide LocalHeap, Pointees, Reach, OrderText;
    OrderHeap(o, capacity, zone);
    PointerSize(h, a);
    NothingReached(h);
    Widths(o, capacity, zone, a);
  }

  lemma Widths(o: Order, capacity: nat, zone: Target, a: nat)
    ensures TypeSize(Pointer(At(a))) == 8 && TypeSize(OrderValue(o, capacity, zone)) == 432
  {
  }

  /** What the cache measures: SizeOf of a pointer to an order. */
  method MeasureOrder(h: Heap, a: nat, o: Order, capacity: nat) returns (size: nat)
    requires WellFormed(h) && a in h && h[a] == OrderValue(o, capacity, Nil)
    ensures size == 8 + 432 + OrderText(o) + capacity * 128
  {
    OrderSize(h, a, o, capacity, Nil);
    PointerIs(a);
    size := SizeOf(h, Pointer(At(a)));
  }

  lemma PointerIs(a: nat)
    ensures Pointees(Pointer(At(a))) == {a}
  {
  }
}
