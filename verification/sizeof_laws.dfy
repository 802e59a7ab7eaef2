/** What follows from the meaning of a deep size: sharing, cycles and the order of map keys. */
module SizeofLaws {
  import opened Sums
  import opened Sizeof

  /** A cell is reachable from two places together iff it is reachable from one of them. */
  lemma ReachUnion(h: Heap, s: set<nat>, t: set<nat>)
    ensures Reach(h, s + t) == Reach(h, s) + Reach(h, t)
  {
    forall a | a in Reach(h, s + t) ensures a in Reach(h, s) + Reach(h, t) {
      var p :| IsPath(h, p) && p[0] in s + t && p[|p| - 1] == a;
      assert p[0] in s || p[0] in t;
    }
    forall a | a in Reach(h, s) ensures a in Reach(h, s + t) {
      ReachesFrom(h, s, s + t, a);
    }
    forall a | a in Reach(h, t) ensures a in Reach(h, s + t) {
      ReachesFrom(h, t, s + t, a);
    }
  }

  /**
   Two fields of one struct: what both can reach is counted once, so the whole falls short of the
   sum of the parts by exactly the shared cells.
   */
  lemma SharedCellsCountOnce(h: Heap, width: nat, u: Value, v: Value)
    requires WellFormed(h) && Pointees(u) + Pointees(v) <= h.Keys
    ensures
      var ru, rv := Reach(h, Pointees(u)), Reach(h, Pointees(v));
      DeepSize(h, Struct(width, [u, v])) + TypeSize(u) + TypeSize(v) + SumOver(ru * rv, CellCost(h))
        == width + DeepSize(h, u) + DeepSize(h, v)
  {
    var fields := [u, v];
    assert fields[..1] == [u] && fields[..1][..0] == [];
    assert [u][..0] == [];
    assert PointeesAll([u]) == Pointees(u) && LocalHeapAll([u]) == LocalHeap(u);
    assert PointeesAll(fields) == Pointees(u) + Pointees(v);
    assert LocalHeapAll(fields) == LocalHeap(u) + LocalHeap(v);
    var both := Struct(width, fields);
    assert Pointees(both) == PointeesAll(fields) && LocalHeap(both) == LocalHeapAll(fields);
    ReachUnion(h, Pointees(u), Pointees(v));
    SumUnion(Reach(h, Pointees(u)), Reach(h, Pointees(v)), CellCost(h));
  }

  /** A cell on a cycle through itself is counted once, as is everything it reaches. */
  lemma PointerSize(h: Heap, a: nat)
    requires WellFormed(h) && a in h
    ensures a in Reach(h, {a})
    ensures Reach(h, {a}) == {a} + Reach(h, Pointees(h[a]))
    ensures DeepSize(h, Pointer(At(a))) ==
            TypeSize(Pointer(At(a))) + Cost(h[a]) + SumOver(Reach(h, Pointees(h[a])) - {a}, CellCost(h))
  {
    var root := Pointer(At(a));
    assert Pointees(root) == {a} && LocalHeap(root) == 0;
    ReachesSelf(h, a);
    forall b | b in Reach(h, Pointees(h[a])) ensures b in Reach(h, {a}) {
      ReachesThrough(h, a, b);
    }
    forall b | b in Reach(h, {a}) ensures b == a || b in Reach(h, Pointees(h[a])) {
      var p :| IsPath(h, p) && p[0] in {a} && p[|p| - 1] == b;
      if |p| > 1 {
        var q := p[1..];
        assert p[0 + 1] in Pointees(h[p[0]]);
        assert IsPath(h, q) by {
          forall i | 0 <= i < |q| - 1 ensures q[i + 1] in Pointees(h[q[i]]) {
            assert p[i + 1 + 1] in Pointees(h[p[i + 1]]);
          }
        }
        assert q[0] in Pointees(h[a]) && q[|q| - 1] == b;
      }
    }
    SumRemove(Reach(h, {a}), CellCost(h), a);
    assert Reach(h, {a}) - {a} == Reach(h, Pointees(h[a])) - {a};
  }

  lemma {:induction false} TakeEntryOut(es: seq<Entry>, j: nat)
    requires j < |es|
    ensures EntriesCost(es) == EntriesCost(es[..j] + es[j + 1..]) + CostOfEntry(es[j])
    ensures EntryPointees(es) == EntryPointees(es[..j] + es[j + 1..]) + PointeesOfPair(es[j])
  {
    var n := |es| - 1;
    if j == n {
      assert es[..j] + es[j + 1..] == es[..n];
    } else {
      var init := es[..n];
      TakeEntryOut(init, j);
      var rest := es[..j] + es[j + 1..];
      assert rest[..n - 1] == init[..j] + init[j + 1..];
      assert rest[n - 1] == es[n];
    }
  }

  /** Map keys come in no particular order; the size and the pointers found do not depend on it. */
  lemma {:induction false} KeyOrderIrrelevant(es: seq<Entry>, fs: seq<Entry>)
    requires multiset(es) == multiset(fs)
    ensures EntriesCost(es) == EntriesCost(fs) && EntryPointees(es) == EntryPointees(fs)
    decreases |es|
  {
    if es == [] {
      assert |multiset(fs)| == 0;
    } else {
      var n := |es| - 1;
      assert es[n] in multiset(fs);
      var j :| 0 <= j < |fs| && fs[j] == es[n];
      var rest := fs[..j] + fs[j + 1..];
      assert es == es[..n] + [es[n]];
      assert fs == fs[..j] + [fs[j]] + fs[j + 1..];
      assert multiset(es) == multiset(es[..n]) + multiset{es[n]};
      assert multiset(fs) == multiset(fs[..j]) + multiset{fs[j]} + multiset(fs[j + 1..]);
      assert multiset(es[..n]) == multiset(es) - multiset{es[n]};
      assert multiset(rest) == multiset(fs) - multiset{fs[j]};
      KeyOrderIrrelevant(es[..n], rest);
      TakeEntryOut(fs, j);
    }
  }

  lemma MapSizeIndependentOfKeyOrder(h: Heap, es: seq<Entry>, fs: seq<Entry>)
    requires multiset(es) == multiset(fs)
    ensures DeepSize(h, Map(false, es)) == DeepSize(h, Map(false, fs))
  {
    KeyOrderIrrelevant(es, fs);
    var m, n := Map(false, es), Map(false, fs);
    assert Pointees(m) == EntryPointees(es) && Pointees(n) == EntryPointees(fs);
    assert LocalHeap(m) == EntriesCost(es) && LocalHeap(n) == EntriesCost(fs);
  }
}
