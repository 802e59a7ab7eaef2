/**
 The deep-size calculator of internal/pkg/sizeof/calculator.go: a depth-first walk over a Go value
 and everything it points to, with one visited set shared by the whole walk.
 */
module Sizeof {
  import opened Sums

  /**
   A Go value as reflection shows it. A value is a finite tree; sharing and cycles arise only
   through Pointer, whose target is the address of a heap cell. Leaf stands for every kind without a
   case in sizeOfHeapData: numbers, booleans, arrays, interfaces, channels and functions.
   */
  datatype Value =
    | Invalid
    | Leaf(width: nat)
    | Str(length: nat)
    | Pointer(target: Target)
    | Slice(isNil: bool, elemWidth: nat, capacity: nat, elems: seq<Value>)
    | Struct(width: nat, fields: seq<Value>)
    | Map(isNil: bool, entries: seq<Entry>)

  datatype Target = Nil | At(address: nat)

  /** A map entry; val is Invalid when the lookup of the key fails, as it does for a NaN key. */
  datatype Entry = Entry(key: Value, val: Value)

  /** The cells that pointers can reach, by address. */
  type Heap = map<nat, Value>

  /** Type().Size(): the inline width of a value on a 64-bit platform. */
  function TypeSize(v: Value): nat {
    match v
    case Invalid => 0
    case Leaf(w) => w
    case Str(_) => 16
    case Pointer(_) => 8
    case Slice(_, _, _, _) => 24
    case Struct(w, _) => w
    case Map(_, _) => 8
  }

  // ----- The meaning of a deep size -----

  /** The bytes a value holds outside its inline width, without following any pointer. */
  ghost function LocalHeap(v: Value): nat
    decreases v, 0
  {
    match v
    case Str(n) => n
    case Slice(isNil, w, c, elems) => if isNil then 0 else c * w + LocalHeapAll(elems)
    case Struct(_, fields) => LocalHeapAll(fields)
    case Map(isNil, entries) => if isNil then 0 else EntriesCost(entries)
    case _ => 0
  }

  ghost function LocalHeapAll(vs: seq<Value>): nat
    decreases vs, 0
  {
    if vs == [] then 0 else LocalHeapAll(vs[..|vs| - 1]) + LocalHeap(vs[|vs| - 1])
  }

  ghost function EntriesCost(es: seq<Entry>): nat
    decreases es, 0
  {
    if es == [] then 0 else EntriesCost(es[..|es| - 1]) + CostOfEntry(es[|es| - 1])
  }

  ghost function CostOfEntry(e: Entry): nat
    decreases e, 0
  {
    Cost(e.key) + Cost(e.val)
  }

  /** The size of one whole value or cell, pointers not followed. */
  ghost function Cost(v: Value): nat
    decreases v, 1
  {
    TypeSize(v) + LocalHeap(v)
  }

  /** The addresses a value points to directly. */
  ghost function Pointees(v: Value): set<nat>
    decreases v, 0
  {
    match v
    case Pointer(At(a)) => {a}
    case Slice(isNil, _, _, elems) => if isNil then {} else PointeesAll(elems)
    case Struct(_, fields) => PointeesAll(fields)
    case Map(isNil, entries) => if isNil then {} else EntryPointees(entries)
    case _ => {}
  }

  ghost function PointeesAll(vs: seq<Value>): set<nat>
    decreases vs, 0
  {
    if vs == [] then {} else PointeesAll(vs[..|vs| - 1]) + Pointees(vs[|vs| - 1])
  }

  ghost function EntryPointees(es: seq<Entry>): set<nat>
    decreases es, 0
  {
    if es == [] then {} else
      EntryPointees(es[..|es| - 1]) + PointeesOfPair(es[|es| - 1])
  }

  ghost function PointeesOfPair(e: Entry): set<nat>
    decreases e, 0
  {
    Pointees(e.key) + Pointees(e.val)
  }

  /** No pointer in the heap dangles. */
  ghost predicate WellFormed(h: Heap) {
    forall a :: a in h ==> Pointees(h[a]) <= h.Keys
  }

  /** A chain of pointers in h. */
  ghost predicate IsPath(h: Heap, p: seq<nat>) {
    && p != []
    && (forall i :: 0 <= i < |p| ==> p[i] in h)
    && forall i :: 0 <= i < |p| - 1 ==> p[i + 1] in Pointees(h[p[i]])
  }

  ghost predicate Reaches(h: Heap, from: set<nat>, a: nat) {
    exists p :: IsPath(h, p) && p[0] in from && p[|p| - 1] == a
  }

  /** The cells reachable from a set of addresses. */
  ghost function Reach(h: Heap, from: set<nat>): set<nat> {
    set a | a in h && Reaches(h, from, a)
  }

  ghost function CellCost(h: Heap): nat -> nat {
    (a: nat) => if a in h then Cost(h[a]) else 0
  }

  /** What SizeOf promises: the root itself, and every reachable cell exactly once. */
  ghost function DeepSize(h: Heap, root: Value): nat {
    Cost(root) + SumOver(Reach(h, Pointees(root)), CellCost(h))
  }

  // ----- The traversal -----

  /** The visited map shared by one call of SizeOf; only true is ever stored in it. */
  class Visited {
    var marked: set<nat>

    constructor ()
      ensures marked == {}
    {
      marked := {};
    }
  }

  /**
   What one traversal step has done: it marked everything in from, whatever it newly marked is
   reachable from there, and the new cells point only to marked ones.
   */
  ghost predicate Explored(h: Heap, from: set<nat>, before: set<nat>, after: set<nat>) {
    && before <= after <= h.Keys
    && from <= after
    && forall a :: a in after - before ==> Pointees(h[a]) <= after && Reaches(h, from, a)
  }

  lemma ReachesFrom(h: Heap, small: set<nat>, large: set<nat>, a: nat)
    requires small <= large && Reaches(h, small, a)
    ensures Reaches(h, large, a)
  {
    var p :| IsPath(h, p) && p[0] in small && p[|p| - 1] == a;
    assert p[0] in large;
  }

  lemma ReachesSelf(h: Heap, a: nat)
    requires a in h
    ensures Reaches(h, {a}, a)
  {
    var p := [a];
    assert IsPath(h, p) && p[0] in {a} && p[|p| - 1] == a;
  }

  lemma ReachesThrough(h: Heap, a: nat, b: nat)
    requires a in h && Reaches(h, Pointees(h[a]), b)
    ensures Reaches(h, {a}, b)
  {
    var p :| IsPath(h, p) && p[0] in Pointees(h[a]) && p[|p| - 1] == b;
    var q := [a] + p;
    assert forall i :: 0 <= i < |q| - 1 ==> q[i + 1] in Pointees(h[q[i]]) by {
      forall i | 0 <= i < |q| - 1 ensures q[i + 1] in Pointees(h[q[i]]) {
        if i > 0 { assert q[i] == p[i - 1] && q[i + 1] == p[i]; }
      }
    }
    assert IsPath(h, q) && q[0] in {a} && q[|q| - 1] == b;
  }

  /** Exploring two parts one after the other explores both. */
  lemma ExploredThen(h: Heap, from: set<nat>, part: set<nat>, s0: set<nat>, s1: set<nat>, s2: set<nat>)
    requires Explored(h, from, s0, s1) && Explored(h, part, s1, s2)
    ensures Explored(h, from + part, s0, s2)
    ensures SumOver(s2 - s0, CellCost(h)) == SumOver(s1 - s0, CellCost(h)) + SumOver(s2 - s1, CellCost(h))
  {
    SumDisjoint(s1 - s0, s2 - s1, CellCost(h));
    assert (s1 - s0) + (s2 - s1) == s2 - s0;
    forall a | a in s2 - s0 ensures Pointees(h[a]) <= s2 && Reaches(h, from + part, a) {
      if a in s1 {
        assert a in s1 - s0;
        ReachesFrom(h, from, from + part, a);
      } else {
        assert a in s2 - s1;
        ReachesFrom(h, part, from + part, a);
      }
    }
  }

  /** Marking a cell and then exploring its contents explores the cell. */
  lemma ExploredCell(h: Heap, a: nat, before: set<nat>, after: set<nat>)
    requires a in h && a !in before
    requires Explored(h, Pointees(h[a]), before + {a}, after)
    ensures Explored(h, {a}, before, after)
    ensures SumOver(after - before, CellCost(h)) == Cost(h[a]) + SumOver(after - (before + {a}), CellCost(h))
  {
    forall b | b in after - before ensures Pointees(h[b]) <= after && Reaches(h, {a}, b) {
      if b == a {
        ReachesSelf(h, a);
      } else {
        assert b in after - (before + {a});
        ReachesThrough(h, a, b);
      }
    }
    SumRemove(after - before, CellCost(h), a);
    assert after - before - {a} == after - (before + {a});
  }

  lemma {:induction false} PathStaysInside(h: Heap, s: set<nat>, p: seq<nat>, k: nat)
    requires IsPath(h, p) && p[0] in s && k < |p|
    requires forall a :: a in s && a in h ==> Pointees(h[a]) <= s
    ensures p[k] in s
  {
    if k > 0 {
      PathStaysInside(h, s, p, k - 1);
      assert p[k - 1 + 1] in Pointees(h[p[k - 1]]);
    }
  }

  /** A walk that starts with nothing marked ends with exactly the reachable cells marked. */
  lemma ExploredAll(h: Heap, from: set<nat>, after: set<nat>)
    requires Explored(h, from, {}, after)
    ensures after == Reach(h, from)
  {
    forall a | a in after ensures a in Reach(h, from) {
      assert a in after - {};
    }
    forall a | a in Reach(h, from) ensures a in after {
      var p :| IsPath(h, p) && p[0] in from && p[|p| - 1] == a;
      assert forall b :: b in after ==> b in after - {};
      PathStaysInside(h, after, p, |p| - 1);
    }
  }

  lemma {:induction false} PointeesOfMember(vs: seq<Value>, i: nat)
    requires i < |vs|
    ensures Pointees(vs[i]) <= PointeesAll(vs)
  {
    if i < |vs| - 1 {
      PointeesOfMember(vs[..|vs| - 1], i);
    }
  }

  lemma {:induction false} PointeesOfEntry(es: seq<Entry>, i: nat)
    requires i < |es|
    ensures PointeesOfPair(es[i]) <= EntryPointees(es)
  {
    if i < |es| - 1 {
      PointeesOfEntry(es[..|es| - 1], i);
    }
  }

  ghost function EntryCost(es: seq<Entry>): nat -> nat {
    (i: nat) => if i < |es| then CostOfEntry(es[i]) else 0
  }

  /** The cost of a map's entries may be summed in any order of its keys. */
  lemma {:induction false} EntriesInAnyOrder(es: seq<Entry>)
    ensures EntriesCost(es) == SumOver(Indices(|es|), EntryCost(es))
  {
    if es != [] {
      var n := |es| - 1;
      var init := es[..n];
      EntriesInAnyOrder(init);
      SumSame(Indices(n), EntryCost(init), EntryCost(es));
      SumAdd(Indices(n), EntryCost(es), n);
    }
  }

  /** The pointers of a map's entries are those of its keys and values, whatever the order. */
  lemma {:induction false} EntryPointeesCovered(es: seq<Entry>, s: set<nat>)
    requires forall i :: 0 <= i < |es| ==> PointeesOfPair(es[i]) <= s
    ensures EntryPointees(es) <= s
  {
    if es != [] {
      EntryPointeesCovered(es[..|es| - 1], s);
    }
  }

  /** sizeOf: an addressable value (address At) counts on its first visit only. */
  method SizeOfValue(h: Heap, v: Value, address: Target, visited: Visited) returns (size: nat)
    requires WellFormed(h) && visited.marked <= h.Keys && Pointees(v) <= h.Keys
    requires address.At? ==> address.address in h && h[address.address] == v
    modifies visited
    ensures address.Nil? ==> Explored(h, Pointees(v), old(visited.marked), visited.marked)
    ensures address.Nil? ==>
              size == Cost(v) + SumOver(visited.marked - old(visited.marked), CellCost(h))
    ensures address.At? ==> Explored(h, {address.address}, old(visited.marked), visited.marked)
    ensures address.At? ==> size == SumOver(visited.marked - old(visited.marked), CellCost(h))
    decreases h.Keys - visited.marked, if address.At? then 0 else 1, v, 2
  {
    if v.Invalid? && address.Nil? {
      assert visited.marked - old(visited.marked) == {};
      return 0;
    }
    if address.At? {
      if address.address in visited.marked {
        assert visited.marked - old(visited.marked) == {};
        return 0;
      }
      visited.marked := visited.marked + {address.address};
    }
    ghost var marked := visited.marked;
    var heapData := SizeOfHeapData(h, v, visited);
    size := TypeSize(v) + heapData;
    if address.At? {
      assert marked == old(visited.marked) + {address.address};
      ExploredCell(h, address.address, old(visited.marked), visited.marked);
    }
  }

  /** sizeOfHeapData: what is not stored inline with the value. */
  method SizeOfHeapData(h: Heap, v: Value, visited: Visited) returns (size: nat)
    requires WellFormed(h) && visited.marked <= h.Keys && Pointees(v) <= h.Keys
    modifies visited
    ensures Explored(h, Pointees(v), old(visited.marked), visited.marked)
    ensures size == LocalHeap(v) + SumOver(visited.marked - old(visited.marked), CellCost(h))
    decreases h.Keys - visited.marked, 1, v, 1
  {
    assert visited.marked - visited.marked == {};
    match v {
      case Pointer(At(a)) =>
        size := SizeOfValue(h, h[a], At(a), visited);
      case Str(n) =>
        size := n;
      case Slice(isNil, width, capacity, elems) =>
        if !isNil {
          size := SizeOfAll(h, elems, v, visited);
          size := capacity * width + size;
        } else {
          size := 0;
        }
      case Struct(_, fields) =>
        size := SizeOfAll(h, fields, v, visited);
      case Map(isNil, entries) =>
        if !isNil {
          size := SizeOfEntries(h, entries, v, visited);
        } else {
          size := 0;
        }
      case _ =>
        size := 0;
    }
  }

  /** The loop over slice elements or struct fields. */
  method SizeOfAll(h: Heap, vs: seq<Value>, ghost parent: Value, visited: Visited) returns (size: nat)
    requires WellFormed(h) && visited.marked <= h.Keys && PointeesAll(vs) <= h.Keys
    requires (parent.Slice? && vs == parent.elems) || (parent.Struct? && vs == parent.fields)
    modifies visited
    ensures Explored(h, PointeesAll(vs), old(visited.marked), visited.marked)
    ensures size == LocalHeapAll(vs) + SumOver(visited.marked - old(visited.marked), CellCost(h))
    decreases h.Keys - visited.marked, 1, parent, 0
  {
    size := 0;
    var i := 0;
    assert visited.marked - visited.marked == {};
    while i < |vs|
      invariant i <= |vs|
      invariant Explored(h, PointeesAll(vs[..i]), old(visited.marked), visited.marked)
      invariant size == LocalHeapAll(vs[..i]) + SumOver(visited.marked - old(visited.marked), CellCost(h))
    {
      ghost var s1 := visited.marked;
      PointeesOfMember(vs, i);
      var part := SizeOfHeapData(h, vs[i], visited);
      size := size + part;
      assert vs[..i + 1][..i] == vs[..i];
      ExploredThen(h, PointeesAll(vs[..i]), Pointees(vs[i]), old(visited.marked), s1, visited.marked);
      i := i + 1;
    }
    assert vs[..|vs|] == vs;
  }

  /** One key of a map and the value found under it. */
  method SizeOfEntry(h: Heap, e: Entry, visited: Visited) returns (size: nat)
    requires WellFormed(h) && visited.marked <= h.Keys && PointeesOfPair(e) <= h.Keys
    modifies visited
    ensures Explored(h, PointeesOfPair(e), old(visited.marked), visited.marked)
    ensures size == CostOfEntry(e) + SumOver(visited.marked - old(visited.marked), CellCost(h))
    decreases h.Keys - visited.marked, 1, e, 0
  {
    var keySize := SizeOfValue(h, e.key, Nil, visited);
    ghost var s1 := visited.marked;
    var valSize := SizeOfValue(h, e.val, Nil, visited);
    ExploredThen(h, Pointees(e.key), Pointees(e.val), old(visited.marked), s1, visited.marked);
    size := keySize + valSize;
  }

  /** The walk over a map's entries after those in done, in some order. */
  ghost predicate EntriesDone(h: Heap, es: seq<Entry>, done: set<nat>, before: set<nat>, after: set<nat>, size: nat) {
    exists from ::
      && from <= EntryPointees(es)
      && (forall i :: i in done && i < |es| ==> PointeesOfPair(es[i]) <= from)
      && Explored(h, from, before, after)
      && size == SumOver(done, EntryCost(es)) + SumOver(after - before, CellCost(h))
  }

  lemma EntriesStart(h: Heap, es: seq<Entry>, marked: set<nat>)
    requires marked <= h.Keys
    ensures EntriesDone(h, es, {}, marked, marked, 0)
  {
    assert marked - marked == {};
    assert Explored(h, {}, marked, marked);
  }

  lemma EntriesStep(h: Heap, es: seq<Entry>, done: set<nat>, i: nat,
      s0: set<nat>, s1: set<nat>, s2: set<nat>, size: nat, part: nat)
    requires i < |es| && i !in done && EntriesDone(h, es, done, s0, s1, size)
    requires Explored(h, PointeesOfPair(es[i]), s1, s2)
    requires part == CostOfEntry(es[i]) + SumOver(s2 - s1, CellCost(h))
    ensures EntriesDone(h, es, done + {i}, s0, s2, size + part)
  {
    var from :|
      && from <= EntryPointees(es)
      && (forall i :: i in done && i < |es| ==> PointeesOfPair(es[i]) <= from)
      && Explored(h, from, s0, s1)
      && size == SumOver(done, EntryCost(es)) + SumOver(s1 - s0, CellCost(h));
    PointeesOfEntry(es, i);
    ExploredThen(h, from, PointeesOfPair(es[i]), s0, s1, s2);
    SumAdd(done, EntryCost(es), i);
  }

  lemma EntriesFinish(h: Heap, es: seq<Entry>, before: set<nat>, after: set<nat>, size: nat)
    requires EntriesDone(h, es, Indices(|es|), before, after, size)
    ensures Explored(h, EntryPointees(es), before, after)
    ensures size == EntriesCost(es) + SumOver(after - before, CellCost(h))
  {
    var from :|
      && from <= EntryPointees(es)
      && (forall i :: i in Indices(|es|) && i < |es| ==> PointeesOfPair(es[i]) <= from)
      && Explored(h, from, before, after)
      && size == SumOver(Indices(|es|), EntryCost(es)) + SumOver(after - before, CellCost(h));
    EntriesInAnyOrder(es);
    EntryPointeesCovered(es, from);
    assert from == EntryPointees(es);
  }

  method SizeOfNextEntry(h: Heap, es: seq<Entry>, i: nat, total: nat, visited: Visited,
      ghost before: set<nat>, ghost done: set<nat>)
    returns (size: nat)
    requires WellFormed(h) && visited.marked <= h.Keys && EntryPointees(es) <= h.Keys
    requires i < |es| && i !in done && EntriesDone(h, es, done, before, visited.marked, total)
    modifies visited
    ensures old(visited.marked) <= visited.marked <= h.Keys
    ensures EntriesDone(h, es, done + {i}, before, visited.marked, size)
    decreases h.Keys - visited.marked, 1, es[i], 1
  {
    PointeesOfEntry(es, i);
    ghost var s1 := visited.marked;
    var part := SizeOfEntry(h, es[i], visited);
    EntriesStep(h, es, done, i, before, s1, visited.marked, total, part);
    size := total + part;
  }

  /** The loop over MapKeys, which come in no particular order. */
  method SizeOfEntries(h: Heap, es: seq<Entry>, ghost parent: Value, visited: Visited) returns (size: nat)
    requires WellFormed(h) && visited.marked <= h.Keys && EntryPointees(es) <= h.Keys
    requires parent.Map? && es == parent.entries
    modifies visited
    ensures Explored(h, EntryPointees(es), old(visited.marked), visited.marked)
    ensures size == EntriesCost(es) + SumOver(visited.marked - old(visited.marked), CellCost(h))
    decreases h.Keys - visited.marked, 1, parent, 0
  {
    size := 0;
    var todo := Indices(|es|);
    ghost var done: set<nat> := {};
    ghost var before := visited.marked;
    EntriesStart(h, es, before);
    while todo != {}
      invariant todo !! done && todo + done == Indices(|es|)
      invariant before <= visited.marked <= h.Keys
      invariant EntriesDone(h, es, done, before, visited.marked, size)
      decreases todo
    {
      var i :| i in todo;
      size := SizeOfNextEntry(h, es, i, size, visited, before, done);
      todo, done := todo - {i}, done + {i};
    }
    assert done == Indices(|es|);
    EntriesFinish(h, es, before, visited.marked, size);
  }

  /**
   SizeOf: terminates on every heap, cyclic or shared, and returns the deep size, whatever order
   the keys of any map come in.
   */
  method SizeOf(h: Heap, root: Value) returns (size: nat)
    requires WellFormed(h) && Pointees(root) <= h.Keys
    ensures size == DeepSize(h, root)
  {
    var visited := new Visited();
    size := SizeOfValue(h, root, Nil, visited);
    ExploredAll(h, Pointees(root), visited.marked);
    assert visited.marked - {} == visited.marked;
  }
}
