/** Sums of a natural-valued function over a finite set of indices or addresses. */
module Sums {

  /** The indices below n. */
  function Indices(n: nat): (s: set<nat>)
    ensures forall i: nat :: i in s <==> i < n
  {
    if n == 0 then {} else Indices(n - 1) + {n - 1}
  }

  /** The sum of f over s; the order of summation is left open. */
  ghost function SumOver(s: set<nat>, f: nat -> nat): nat
    decreases s
  {
    if s == {} then 0 else
      var x :| x in s;
      f(x) + SumOver(s - {x}, f)
  }

  /** Any member may be taken out first: the sum does not depend on the order of summation. */
  lemma {:induction false} SumRemove(s: set<nat>, f: nat -> nat, x: nat)
    requires x in s
    ensures SumOver(s, f) == f(x) + SumOver(s - {x}, f)
    decreases s
  {
    var y :| y in s && SumOver(s, f) == f(y) + SumOver(s - {y}, f);
    if y != x {
      SumRemove(s - {y}, f, x);
      SumRemove(s - {x}, f, y);
      assert s - {y} - {x} == s - {x} - {y};
    }
  }

  lemma SumAdd(s: set<nat>, f: nat -> nat, x: nat)
    requires x !in s
    ensures SumOver(s + {x}, f) == f(x) + SumOver(s, f)
  {
    SumRemove(s + {x}, f, x);
    assert s + {x} - {x} == s;
  }

  lemma {:induction false} SumDisjoint(s: set<nat>, t: set<nat>, f: nat -> nat)
    requires s !! t
    ensures SumOver(s + t, f) == SumOver(s, f) + SumOver(t, f)
    decreases t
  {
    if t == {} {
      assert s + t == s;
    } else {
      var x :| x in t;
      SumRemove(t, f, x);
      SumDisjoint(s, t - {x}, f);
      SumAdd(s + (t - {x}), f, x);
      assert s + (t - {x}) + {x} == s + t;
    }
  }

  /** Inclusion and exclusion: the shared part of two sets is counted once in their union. */
  lemma SumUnion(s: set<nat>, t: set<nat>, f: nat -> nat)
    ensures SumOver(s + t, f) + SumOver(s * t, f) == SumOver(s, f) + SumOver(t, f)
  {
    SumDisjoint(s, t - s, f);
    SumDisjoint(s * t, t - s, f);
    assert s + (t - s) == s + t;
    assert s * t + (t - s) == t;
  }

  /** Functions that agree on a set have the same sum over it. */
  lemma {:induction false} SumSame(s: set<nat>, f: nat -> nat, g: nat -> nat)
    requires forall x :: x in s ==> f(x) == g(x)
    ensures SumOver(s, f) == SumOver(s, g)
    decreases s
  {
    if s != {} {
      var x :| x in s;
      SumRemove(s, f, x);
      SumRemove(s, g, x);
      SumSame(s - {x}, f, g);
    }
  }
}
