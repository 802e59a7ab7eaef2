/** What every run of the cache keeps: inclusion, the survival window, recency and the memory bound. */
module RecencyTheorems {
  import opened Domain
  import opened Recency

  // ----- What Get and Insert do, by positions -----

  lemma {:induction false} WithoutOne(s: seq<Entry>, i: nat)
    requires Distinct(s) && i < |s|
    ensures Find(s, s[i].key) == Some(s[i]) && Without(s, s[i].key) == s[..i] + s[i + 1..]
  {
    if i == 0 {
      WithoutIs(s[1..], s[0].key);
    } else {
      WithoutOne(s[1..], i - 1);
      KeyAt(s[1..], i - 1);
      assert s[..i] + s[i + 1..] == [s[0]] + (s[1..][..i - 1] + s[1..][i..]);
    }
  }

  lemma {:induction false} AbsentKey(s: seq<Entry>, key: string)
    requires forall i :: 0 <= i < |s| ==> s[i].key != key
    ensures Find(s, key).None? && Without(s, key) == s
  {
    if s != [] {
      AbsentKey(s[1..], key);
      assert s == [s[0]] + s[1..];
    }
  }

  /** A Get that hits puts its entry in front and leaves the others in order; one that misses does nothing. */
  lemma GetExactly(s: seq<Entry>, key: string)
    requires Distinct(s)
    ensures forall i :: 0 <= i < |s| && s[i].key == key ==> AfterGet(s, key) == [s[i]] + s[..i] + s[i + 1..]
    ensures (forall i :: 0 <= i < |s| ==> s[i].key != key) ==> AfterGet(s, key) == s
  {
    hide Without, Distinct, Find;
    forall i | 0 <= i < |s| && s[i].key == key ensures AfterGet(s, key) == [s[i]] + s[..i] + s[i + 1..] {
      WithoutOne(s, i);
    }
    if forall i :: 0 <= i < |s| ==> s[i].key != key { AbsentKey(s, key); }
  }

  /**
   An Insert of a key that is there puts the new entry in front and leaves the others in order, whatever its
   size; of a new key, it puts the entry in front and drops the last one if there are too many, or does
   nothing if the entry is too large.
   */
  lemma InsertExactly(c: Caps, s: seq<Entry>, o: Order, size: nat)
    requires Good(c, s)
    ensures
      var e := Entry(o.orderUID, o, size);
      && (forall i :: 0 <= i < |s| && s[i].key == o.orderUID ==>
            AfterInsert(c, s, o, size) == [e] + s[..i] + s[i + 1..])
      && ((forall i :: 0 <= i < |s| ==> s[i].key != o.orderUID) ==>
            AfterInsert(c, s, o, size) ==
            if size > c.entrySize then s else if |s| < c.count then [e] + s else ([e] + s)[..c.count])
  {
    hide Without, Distinct, Find;
    var e := Entry(o.orderUID, o, size);
    forall i | 0 <= i < |s| && s[i].key == o.orderUID
      ensures AfterInsert(c, s, o, size) == [e] + s[..i] + s[i + 1..]
    {
      WithoutOne(s, i);
    }
    if forall i :: 0 <= i < |s| ==> s[i].key != o.orderUID { AbsentKey(s, o.orderUID); }
  }

  // ----- Inclusion: a larger cache holds everything a smaller one does -----

  /** Every entry of s occurs in l with the same value, in the same relative order. */
  ghost predicate Subsequence(s: seq<Entry>, l: seq<Entry>) {
    s == Keep(l, Keys(s))
  }

  /** The two lists agree until the smaller one has been filled. */
  ghost predicate Includes(cap: nat, s: seq<Entry>, l: seq<Entry>) {
    Subsequence(s, l) && (s == l || |s| == cap)
  }

  lemma {:induction false} KeepKeys(s: seq<Entry>, ks: set<string>)
    ensures Keys(Keep(s, ks)) == Keys(s) * ks
  {
    if s != [] {
      KeepKeys(s[1..], ks);
      var t := Keep(s, ks);
      if s[0].key in ks { assert t[1..] == Keep(s[1..], ks); }
    }
  }

  lemma DropLast(s: seq<Entry>)
    requires s != [] && Distinct(s)
    ensures s[..|s| - 1] == Without(s, s[|s| - 1].key)
    ensures Keys(s[..|s| - 1]) == Keys(s) - {s[|s| - 1].key}
  {
    hide Keys, Without, Distinct;
    var init, y := s[..|s| - 1], s[|s| - 1];
    assert s == init + [y];
    KeysConcat(init, [y]);
    WithoutConcat(init, [y], y.key);
    WithoutIs(init, y.key);
    OneEntry(y);
  }

  lemma OneEntry(y: Entry)
    ensures Keys([y]) == {y.key} && Without([y], y.key) == []
  {
  }

  /** Both lists have just grown by the same entry; each drops its last if it is over its cap. */
  lemma EvictBoth(s: seq<Entry>, l: seq<Entry>, cs: nat, cl: nat)
    requires Distinct(s) && Distinct(l) && Subsequence(s, l)
    requires |s| == cs + 1 && |l| <= cl + 1
    ensures Subsequence(Evict(s, cs), Evict(l, cl))
  {
    var y := s[cs];
    var s' := s[..cs];
    DropLast(s);
    KeepWithout(l, Keys(s), y.key);
    assert Keep(l, Keys(s')) == s';
    if |l| > cl {
      var x, l' := l[cl], l[..cl];
      assert l == l' + [x];
      KeepConcat(l', [x], Keys(s'));
      KeepConcat(l', [x], Keys(s));
      if x.key in Keys(s) {
        assert Keep([x], Keys(s)) == [x];
        assert s[cs] == x;
      }
      assert Keep([x], Keys(s')) == [];
    }
  }

  /** Both lists move an equal entry to the front. */
  lemma InclusionTouch(cs: nat, cl: nat, s: seq<Entry>, l: seq<Entry>, e: Entry)
    requires cs <= cl && Distinct(s) && Distinct(l) && |s| <= cs && |l| <= cl
    requires Includes(cs, s, l)
    ensures Includes(cs, Evict([e] + Without(s, e.key), cs), Evict([e] + Without(l, e.key), cl))
  {
    var k := e.key;
    WithoutIs(s, k);
    WithoutIs(l, k);
    KeepKeys(l, Keys(s));
    var s', l' := [e] + Without(s, k), [e] + Without(l, k);
    assert s'[1..] == Without(s, k) && l'[1..] == Without(l, k);
    if s == l {
      PrefixIncluded(s', cs, cl);
    } else {
      assert Subsequence(s', l') by {
        KeepWithout(l, Keys(s), k);
        assert Keys(s') == Keys(s) + {k};
      }
      if k !in Keys(s) {
        EvictBoth(s', l', cs, cl);
      }
    }
  }

  /** Only the larger list moves an entry, one the smaller list does not hold. */
  lemma InclusionMiss(cap: nat, s: seq<Entry>, l: seq<Entry>, e: Entry)
    requires Includes(cap, s, l) && e.key !in Keys(s) && e.key in Keys(l)
    ensures Includes(cap, s, [e] + Without(l, e.key))
  {
    KeepWithout(l, Keys(s), e.key);
    WithoutIs(s, e.key);
  }

  lemma InclusionStep(c: Caps, c': Caps, s: seq<Entry>, l: seq<Entry>, op: Op)
    requires c.count <= c'.count && c.entrySize == c'.entrySize
    requires Good(c, s) && Good(c', l) && Includes(c.count, s, l)
    ensures Includes(c.count, Apply(c, s, op), Apply(c', l, op))
  {
    ApplyGood(c, s, op);
    ApplyGood(c', l, op);
    KeepKeys(l, Keys(s));
    if Touches(c', l, op).Some? {
      var k := Touches(c', l, op).value;
      if Touches(c, s, op).None? {
        WithoutIs(l, k);
        InclusionMiss(c.count, s, l, Front(c', l, op));
      } else {
        if k in Keys(s) { FindKept(l, Keys(s), k); }
        InclusionTouch(c.count, c'.count, s, l, Front(c, s, op));
      }
    }
  }

  lemma PrefixIncluded(t: seq<Entry>, cs: nat, cl: nat)
    requires cs <= cl && Distinct(t)
    ensures Includes(cs, Evict(t, cs), Evict(t, cl))
  {
    var l := Evict(t, cl);
    if |t| > cs {
      var s, rest := t[..cs], l[cs..];
      assert l == s + rest;
      EvictIs(t, cl);
      KeysConcat(s, rest);
      KeepConcat(s, rest, Keys(s));
      KeepOwnKeys(s, Keys(s));
      KeepOthers(rest, Keys(s));
    } else {
      KeepOwnKeys(t, Keys(t));
    }
  }

  /**
   Inclusion. One trace run on two empty caches that differ only in their entry count cap leaves the
   smaller cache a subsequence of the larger; a hit in the smaller is the same hit in the larger.
   */
  lemma {:induction false} Inclusion(c: Caps, c': Caps, ops: seq<Op>)
    requires c.count <= c'.count && c.entrySize == c'.entrySize
    ensures Includes(c.count, Run(c, [], ops), Run(c', [], ops))
    ensures forall key :: Find(Run(c, [], ops), key).Some? ==>
                            Find(Run(c', [], ops), key) == Find(Run(c, [], ops), key)
  {
    if ops != [] {
      var init := ops[..|ops| - 1];
      Inclusion(c, c', init);
      RunGood(c, [], init);
      RunGood(c', [], init);
      InclusionStep(c, c', Run(c, [], init), Run(c', [], init), ops[|ops| - 1]);
    }
    var s, l := Run(c, [], ops), Run(c', [], ops);
    forall key | Find(s, key).Some? ensures Find(l, key) == Find(s, key) {
      FindKept(l, Keys(s), key);
    }
  }

  // ----- The survival window -----

  /** The distinct keys touched while ops run from s. */
  ghost function TouchedKeys(c: Caps, s: seq<Entry>, ops: seq<Op>): set<string> {
    if ops == [] then {} else
      var init := ops[..|ops| - 1];
      TouchedKeys(c, s, init) +
      match Touches(c, Run(c, s, init), ops[|ops| - 1])
      case None => {}
      case Some(k) => {k}
  }

  /** e sits behind exactly the entries with keys ks. */
  ghost predicate Behind(r: seq<Entry>, e: Entry, ks: set<string>) {
    |ks| < |r| && r[|ks|] == e && Keys(r[..|ks|]) == ks
  }

  lemma WithoutAround(p: seq<Entry>, tail: seq<Entry>, f: Entry)
    requires tail != [] && tail[0].key != f.key
    ensures
      var front := [f] + Without(p, f.key);
      var u := [f] + Without(p + tail, f.key);
      |front| < |u| && u[..|front|] == front && u[|front|] == tail[0]
  {
    WithoutConcat(p, tail, f.key);
    assert Without(tail, f.key)[0] == tail[0];
  }

  /** Splitting a list at e, and what moving another key to its front does to the part before e. */
  lemma SurvivalSplit(r: seq<Entry>, e: Entry, ks: set<string>, f: Entry)
    requires Distinct(r) && Behind(r, e, ks) && f.key != e.key
    ensures
      var front := [f] + Without(r[..|ks|], f.key);
      var u := [f] + Without(r, f.key);
      && |front| < |u| && u[..|front|] == front && u[|front|] == e
      && Keys(front) == ks + {f.key} && |front| == |ks + {f.key}|
      && e.key !in Keys(front)
  {
    var p, tail := r[..|ks|], r[|ks|..];
    assert r == p + tail;
    WithoutAround(p, tail, f);
    KeysConcat(p, tail);
    KeyAt(tail, 0);
    MoveFront(p, f);
    GrowsBy(ks, f.key);
  }

  lemma SurvivalStep(c: Caps, r: seq<Entry>, e: Entry, ks: set<string>, f: Entry)
    requires Good(c, r) && Behind(r, e, ks) && f.key != e.key
    ensures
      var ks' := ks + {f.key};
      var r' := Evict([f] + Without(r, f.key), c.count);
      if |ks'| < c.count then Behind(r', e, ks') else e.key !in Keys(r')
  {
    SurvivalSplit(r, e, ks, f);
    MoveFront(r, f);
    var n := |ks + {f.key}|;
    var front := [f] + Without(r[..|ks|], f.key);
    var u := [f] + Without(r, f.key);
    if |u| > c.count {
      if n < c.count {
        assert u[..c.count][..n] == front;
      } else {
        assert u[..c.count] == front;
      }
    } else if n == |ks| {
      assert |ks| < |r|;
    }
  }

  lemma StaysOut(r: seq<Entry>, f: Entry, key: string, cap: nat)
    requires Distinct(r) && key !in Keys(r) && f.key != key
    ensures key !in Keys(Evict([f] + Without(r, f.key), cap))
  {
    MoveFront(r, f);
    EvictIs([f] + Without(r, f.key), cap);
  }

  lemma GrowsBy(ks: set<string>, t: string)
    ensures |ks + {t}| == |ks| + if t in ks then 0 else 1
  {
    if t in ks { assert ks + {t} == ks; }
  }

  /**
   The survival window. Starting from a list with entry e in front, as long as e is not touched, its
   index is the number of distinct keys touched since, and it is resident iff that number is below
   the entry count cap.
   */
  lemma {:induction false} SurvivalWindow(c: Caps, s: seq<Entry>, ops: seq<Op>)
    requires Good(c, s) && s != [] && s[0].key !in TouchedKeys(c, s, ops)
    ensures
      var touched := TouchedKeys(c, s, ops);
      var r := Run(c, s, ops);
      && (s[0].key in Keys(r) <==> |touched| < c.count)
      && (|touched| < c.count ==> Behind(r, s[0], touched))
  {
    if ops == [] {
      assert s[..0] == [];
    } else {
      var init, op := ops[..|ops| - 1], ops[|ops| - 1];
      SurvivalWindow(c, s, init);
      RunGood(c, s, init);
      var r, ks := Run(c, s, init), TouchedKeys(c, s, init);
      ApplyGood(c, r, op);
      if Touches(c, r, op).Some? {
        var t, f := Touches(c, r, op).value, Front(c, r, op);
        if |ks| < c.count {
          SurvivalStep(c, r, s[0], ks, f);
          if |ks + {t}| < c.count { KeyAt(Run(c, s, ops), |ks + {t}|); }
        } else {
          StaysOut(r, f, s[0].key, c.count);
          GrowsBy(ks, t);
        }
      } else {
        assert TouchedKeys(c, s, ops) == ks;
      }
    }
  }

  // ----- Recency: the cache holds the most recently touched keys, in order -----

  /** The position in ops of the last operation that touched the key, or -1. */
  ghost function LastTouch(c: Caps, ops: seq<Op>, key: string): int {
    if ops == [] then -1 else
      var init := ops[..|ops| - 1];
      if Touches(c, Run(c, [], init), ops[|ops| - 1]) == Some(key) then |init| else LastTouch(c, init, key)
  }

  ghost function Clock(c: Caps, ops: seq<Op>): string -> int {
    (key: string) => LastTouch(c, ops, key)
  }

  ghost predicate AllBefore(s: seq<Entry>, t: int, clock: string -> int) {
    forall k :: k in Keys(s) ==> clock(k) < t
  }

  ghost predicate NewestFirst(s: seq<Entry>, clock: string -> int) {
    s == [] || (AllBefore(s[1..], clock(s[0].key), clock) && NewestFirst(s[1..], clock))
  }

  lemma {:induction false} LastTouchBound(c: Caps, ops: seq<Op>, key: string)
    ensures -1 <= LastTouch(c, ops, key) < |ops|
  {
    if ops != [] { LastTouchBound(c, ops[..|ops| - 1], key); }
  }

  lemma {:induction false} NewestFirstWithout(s: seq<Entry>, k: string, f: string -> int, g: string -> int)
    requires NewestFirst(s, f) && forall x :: x in Keys(s) && x != k ==> f(x) == g(x)
    ensures NewestFirst(Without(s, k), g)
  {
    if s != [] {
      NewestFirstWithout(s[1..], k, f, g);
      WithoutIs(s[1..], k);
      if s[0].key != k {
        var t := Without(s, k);
        assert t[1..] == Without(s[1..], k);
        assert s[0].key in Keys(s);
      }
    }
  }

  lemma {:induction false} NewestFirstSplit(s: seq<Entry>, t: seq<Entry>, f: string -> int)
    requires NewestFirst(s + t, f)
    ensures NewestFirst(s, f)
    ensures forall a, b :: a in Keys(s) && b in Keys(t) ==> f(b) < f(a)
  {
    if s != [] {
      assert (s + t)[1..] == s[1..] + t;
      NewestFirstSplit(s[1..], t, f);
      KeysConcat(s[1..], t);
    }
  }

  lemma {:induction false} NewestFirstAt(s: seq<Entry>, f: string -> int, i: nat, j: nat)
    requires NewestFirst(s, f) && i < j < |s|
    ensures f(s[j].key) < f(s[i].key)
  {
    if i > 0 { NewestFirstAt(s[1..], f, i - 1, j - 1); } else { KeyAt(s[1..], j - 1); }
  }

  /** Touched keys that were lost: the cache is full and every resident was touched later. */
  ghost predicate LostAreOlder(c: Caps, s: seq<Entry>, clock: string -> int) {
    forall lost :: lost !in Keys(s) && 0 <= clock(lost) ==>
                     |s| == c.count && forall k :: k in Keys(s) ==> clock(lost) < clock(k)
  }

  ghost predicate RecencyInv(c: Caps, s: seq<Entry>, clock: string -> int) {
    && NewestFirst(s, clock)
    && (forall k :: k in Keys(s) ==> 0 <= clock(k))
    && LostAreOlder(c, s, clock)
  }

  lemma RecencyTouch(c: Caps, r: seq<Entry>, f: Entry, before: string -> int, after: string -> int, now: nat)
    requires Good(c, r) && RecencyInv(c, r, before)
    requires forall k :: before(k) < now && after(k) == if k == f.key then now else before(k)
    ensures RecencyInv(c, Evict([f] + Without(r, f.key), c.count), after)
  {
    var u := [f] + Without(r, f.key);
    WithoutIs(r, f.key);
    assert u[1..] == Without(r, f.key);
    NewestFirstWithout(r, f.key, before, after);
    assert NewestFirst(u, after);
    EvictIs(u, c.count);
    if |u| > c.count {
      var kept, victims := u[..c.count], u[c.count..];
      assert u == kept + victims;
      KeysConcat(kept, victims);
      NewestFirstSplit(kept, victims, after);
    }
  }

  /**
   Recency. After any trace from the empty cache, entries stand in strictly decreasing order of their
   last touch, so the victim is the least recently touched; and a touched key is missing only if the
   cache is full of keys touched later.
   */
  lemma {:induction false} LeastRecentlyTouchedFirstOut(c: Caps, ops: seq<Op>)
    ensures
      var r := Run(c, [], ops);
      && RecencyInv(c, r, Clock(c, ops))
      && (forall i, j :: 0 <= i < j < |r| ==> LastTouch(c, ops, r[j].key) < LastTouch(c, ops, r[i].key))
  {
    if ops != [] {
      var init, op := ops[..|ops| - 1], ops[|ops| - 1];
      LeastRecentlyTouchedFirstOut(c, init);
      RunGood(c, [], init);
      var r := Run(c, [], init);
      ApplyGood(c, r, op);
      forall k ensures Clock(c, init)(k) < |init| { LastTouchBound(c, init, k); }
      if Touches(c, r, op).Some? {
        RecencyTouch(c, r, Front(c, r, op), Clock(c, init), Clock(c, ops), |init|);
      } else {
        NewestFirstSame(r, Clock(c, init), Clock(c, ops));
      }
    }
    var r := Run(c, [], ops);
    forall i, j | 0 <= i < j < |r| ensures LastTouch(c, ops, r[j].key) < LastTouch(c, ops, r[i].key) {
      NewestFirstAt(r, Clock(c, ops), i, j);
    }
  }

  lemma {:induction false} NewestFirstSame(s: seq<Entry>, f: string -> int, g: string -> int)
    requires NewestFirst(s, f) && forall k :: f(k) == g(k)
    ensures NewestFirst(s, g)
  {
    if s != [] { NewestFirstSame(s[1..], f, g); }
  }

  // ----- The memory bound -----

  ghost predicate AllFit(s: seq<Entry>, entrySize: int) {
    s == [] || (s[0].size <= entrySize && AllFit(s[1..], entrySize))
  }

  ghost function TotalSize(s: seq<Entry>): nat {
    if s == [] then 0 else s[0].size + TotalSize(s[1..])
  }

  lemma {:induction false} FitIs(s: seq<Entry>, k: string, n: nat, b: int)
    requires AllFit(s, b)
    ensures AllFit(Without(s, k), b)
    ensures n <= |s| ==> AllFit(s[..n], b)
  {
    if s != [] {
      FitIs(s[1..], k, if n == 0 then 0 else n - 1, b);
      if s[0].key != k { assert Without(s, k)[1..] == Without(s[1..], k); }
      if 0 < n <= |s| { assert s[..n][1..] == s[1..][..n - 1]; }
    }
  }

  lemma {:induction false} FitFound(s: seq<Entry>, k: string, b: int)
    requires AllFit(s, b) && Find(s, k).Some?
    ensures Find(s, k).value.size <= b
  {
    if s[0].key != k { FitFound(s[1..], k, b); }
  }

  /** The update of a resident key skips the size check: exactly there the entry cap can be broken. */
  ghost predicate OversizedUpdate(c: Caps, s: seq<Entry>, op: Op) {
    op.Insert? && op.order.orderUID in Keys(s) && op.size > c.entrySize
  }

  /** One operation keeps every entry within the size cap iff it is not an oversized update. */
  lemma FitStep(c: Caps, s: seq<Entry>, op: Op)
    requires Good(c, s) && AllFit(s, c.entrySize)
    ensures AllFit(Apply(c, s, op), c.entrySize) <==> !OversizedUpdate(c, s, op)
  {
    ApplyGood(c, s, op);
    if Touches(c, s, op).Some? {
      var k := Touches(c, s, op).value;
      WithoutIs(s, k);
      if op.Get? { FitFound(s, k, c.entrySize); }
      FitIs(s, k, 0, c.entrySize);
      var u := [Front(c, s, op)] + Without(s, k);
      assert u[1..] == Without(s, k);
      if !OversizedUpdate(c, s, op) {
        assert AllFit(u, c.entrySize);
        FitIs(u, k, if |u| > c.count then c.count else 0, c.entrySize);
      }
    }
  }

  lemma {:induction false} TotalBound(s: seq<Entry>, n: nat, b: nat)
    requires AllFit(s, b) && |s| <= n
    ensures TotalSize(s) <= n * b
  {
    if s != [] {
      TotalBound(s[1..], n - 1, b);
      assert n * b == (n - 1) * b + b;
    } else {
      assert n * b >= 0;
    }
  }

  /** Every insert under a given uid carries the same order, hence the same size. */
  ghost predicate SameSizes(ops: seq<Op>) {
    forall i, j | 0 <= i < |ops| && 0 <= j < |ops| && ops[i].Insert? && ops[j].Insert? ::
      ops[i].order.orderUID == ops[j].order.orderUID ==> ops[i].size == ops[j].size
  }

  /** Every resident entry got its size from an insert under its key. */
  ghost predicate SizesFrom(s: seq<Entry>, ops: seq<Op>) {
    s == [] ||
    (&& (exists i :: 0 <= i < |ops| && ops[i].Insert? && ops[i].order.orderUID == s[0].key && ops[i].size == s[0].size)
     && SizesFrom(s[1..], ops))
  }

  lemma {:induction false} SizesFromKept(s: seq<Entry>, k: string, n: nat, ops: seq<Op>, op: Op)
    requires SizesFrom(s, ops)
    ensures SizesFrom(s, ops + [op])
    ensures SizesFrom(Without(s, k), ops + [op])
    ensures n <= |s| ==> SizesFrom(s[..n], ops)
  {
    if s != [] {
      SizesFromKept(s[1..], k, if n == 0 then 0 else n - 1, ops, op);
      var i :| 0 <= i < |ops| && ops[i].Insert? && ops[i].order.orderUID == s[0].key && ops[i].size == s[0].size;
      assert (ops + [op])[i] == ops[i];
      if s[0].key != k { assert Without(s, k)[1..] == Without(s[1..], k); }
      if 0 < n <= |s| { assert s[..n][1..] == s[1..][..n - 1]; }
    }
  }

  lemma {:induction false} SizeOfFound(s: seq<Entry>, ops: seq<Op>, k: string)
    requires SizesFrom(s, ops) && Find(s, k).Some?
    ensures
      var size := Find(s, k).value.size;
      exists i :: 0 <= i < |ops| && ops[i].Insert? && ops[i].order.orderUID == k && ops[i].size == size
  {
    if s[0].key != k { SizeOfFound(s[1..], ops, k); }
  }

  /**
   The memory bound promised in docs/cache.md: when inserts under one uid agree on the size, the
   cached entries together never exceed the count cap times the entry size cap.
   */
  lemma {:induction false} MemoryBound(c: Caps, ops: seq<Op>)
    requires SameSizes(ops) && 0 <= c.entrySize
    ensures
      var r := Run(c, [], ops);
      AllFit(r, c.entrySize) && SizesFrom(r, ops) && TotalSize(r) <= c.count * c.entrySize
  {
    var r := Run(c, [], ops);
    RunGood(c, [], ops);
    if ops != [] {
      var init, op := ops[..|ops| - 1], ops[|ops| - 1];
      assert ops == init + [op];
      assert SameSizes(init) by {
        forall i, j | 0 <= i < |init| && 0 <= j < |init| && init[i].Insert? && init[j].Insert?
                      && init[i].order.orderUID == init[j].order.orderUID
          ensures init[i].size == init[j].size
        { assert ops[i] == init[i] && ops[j] == init[j]; }
      }
      MemoryBound(c, init);
      var s := Run(c, [], init);
      RunGood(c, [], init);
      UpdateFits(c, s, init, op);
      FitStep(c, s, op);
      SizesStep(c, s, init, op);
    }
    TotalBound(r, c.count, c.entrySize);
  }

  lemma UpdateFits(c: Caps, s: seq<Entry>, ops: seq<Op>, op: Op)
    requires SizesFrom(s, ops) && AllFit(s, c.entrySize) && SameSizes(ops + [op])
    ensures !OversizedUpdate(c, s, op)
  {
    if op.Insert? && Find(s, op.order.orderUID).Some? {
      var k := op.order.orderUID;
      SizeOfFound(s, ops, k);
      FitFound(s, k, c.entrySize);
      var i :| 0 <= i < |ops| && ops[i].Insert? && ops[i].order.orderUID == k && ops[i].size == Find(s, k).value.size;
      var all := ops + [op];
      assert all[i] == ops[i] && all[|ops|] == op;
    }
  }

  lemma SizesStep(c: Caps, s: seq<Entry>, ops: seq<Op>, op: Op)
    requires Good(c, s) && SizesFrom(s, ops)
    ensures SizesFrom(Apply(c, s, op), ops + [op])
  {
    ApplyGood(c, s, op);
    var all := ops + [op];
    if Touches(c, s, op).Some? {
      var k := Touches(c, s, op).value;
      SizesFromKept(s, k, 0, ops, op);
      var f := Front(c, s, op);
      var u := [f] + Without(s, k);
      assert u[1..] == Without(s, k);
      assert exists i :: 0 <= i < |all| && all[i].Insert? && all[i].order.orderUID == k && all[i].size == f.size by {
        if op.Get? {
          SizeOfFound(s, ops, k);
          var i :| 0 <= i < |ops| && ops[i].Insert? && ops[i].order.orderUID == k && ops[i].size == f.size;
          assert all[i] == ops[i];
        } else {
          assert all[|ops|] == op;
        }
      }
      assert SizesFrom(u, all);
      SizesFromKept(u, k, if |u| > c.count then c.count else 0, all, op);
    } else {
      SizesFromKept(s, "", 0, ops, op);
    }
  }

  /**
   Over a whole run from the empty cache: every entry fits after every operation iff no operation of the
   run is an oversized update.
   */
  lemma {:induction false} FitsThroughoutExactly(c: Caps, ops: seq<Op>)
    ensures (forall n :: 0 <= n <= |ops| ==> AllFit(Run(c, [], ops[..n]), c.entrySize))
            <==> forall n :: 0 <= n < |ops| ==> !OversizedUpdate(c, Run(c, [], ops[..n]), ops[n])
  {
    hide AllFit, OversizedUpdate, Run, Good;
    if ops == [] {
      EmptyFits(c);
      assert ops[..0] == [];
    } else {
      var m, init := |ops| - 1, ops[..|ops| - 1];
      FitsThroughoutExactly(c, init);
      assert forall n :: 0 <= n <= m ==> init[..n] == ops[..n];
      assert forall n :: 0 <= n < m ==> init[n] == ops[n];
      FitLast(c, ops);
    }
  }

  lemma EmptyFits(c: Caps)
    ensures AllFit(Run(c, [], []), c.entrySize)
  {
  }

  lemma FitLast(c: Caps, ops: seq<Op>)
    requires ops != []
    ensures ops[..|ops|] == ops
    ensures AllFit(Run(c, [], ops[..|ops| - 1]), c.entrySize) ==>
              (AllFit(Run(c, [], ops), c.entrySize)
               <==> !OversizedUpdate(c, Run(c, [], ops[..|ops| - 1]), ops[|ops| - 1]))
  {
    hide AllFit, OversizedUpdate, Good;
    var init := ops[..|ops| - 1];
    EmptyGood(c);
    RunGood(c, [], init);
    if AllFit(Run(c, [], init), c.entrySize) { FitStep(c, Run(c, [], init), ops[|ops| - 1]); }
  }

  lemma EmptyGood(c: Caps)
    ensures Good(c, [])
  {
  }

  /**
   The bound of docs/cache.md does fail without that: with any caps, a fitting order replaced by a too
   large one under the same uid stays in the cache, and a large enough one alone exceeds the bound.
   */
  lemma MemoryBoundCanFail(c: Caps, small: Order, large: Order, sizeOf: Order -> nat)
    requires c.count >= 1 && small.orderUID == large.orderUID && sizeOf(small) <= c.entrySize < sizeOf(large)
    ensures
      var ops := [Insert(small, sizeOf(small)), Insert(large, sizeOf(large))];
      var r := Run(c, [], ops);
      && !AllFit(r, c.entrySize) && TotalSize(r) == sizeOf(large)
      && (sizeOf(large) > c.count * c.entrySize ==> TotalSize(r) > c.count * c.entrySize)
  {
    var first, second := Insert(small, sizeOf(small)), Insert(large, sizeOf(large));
    var ops := [first, second];
    assert ops[..1] == [first] && [first][..0] == [];
    var e := Entry(small.orderUID, small, sizeOf(small));
    assert Run(c, [], [first]) == [e];
    assert Without([e], large.orderUID) == [];
    assert Run(c, [], ops) == [Entry(large.orderUID, large, sizeOf(large))];
  }

  ghost predicate DistinctRows(rows: seq<Order>) {
    forall i, j :: 0 <= i < j < |rows| ==> rows[i].orderUID != rows[j].orderUID
  }

  ghost function Inserts(rows: seq<Order>, sizes: seq<nat>): seq<Op>
    requires |rows| == |sizes|
  {
    seq(|rows|, i requires 0 <= i < |rows| => Insert(rows[i], sizes[i]))
  }

  /** The entries of the rows that fit, the last row in front. */
  ghost function Loaded(c: Caps, rows: seq<Order>, sizes: seq<nat>): seq<Entry>
    requires |rows| == |sizes|
  {
    if rows == [] then [] else
      var n := |rows| - 1;
      (if sizes[n] <= c.entrySize then [Entry(rows[n].orderUID, rows[n], sizes[n])] else [])
      + Loaded(c, rows[..n], sizes[..n])
  }

  lemma LoadedLast(c: Caps, rows: seq<Order>, sizes: seq<nat>, n: nat)
    requires |rows| == |sizes| == n + 1
    ensures
      var s, init := Loaded(c, rows, sizes), Loaded(c, rows[..n], sizes[..n]);
      var e := Entry(rows[n].orderUID, rows[n], sizes[n]);
      if sizes[n] <= c.entrySize then s == [e] + init && s[0] == e && s[1..] == init else s == init
  {
  }

  lemma {:induction false} LoadedKeys(c: Caps, rows: seq<Order>, sizes: seq<nat>, key: string)
    requires |rows| == |sizes| && forall i :: 0 <= i < |rows| ==> rows[i].orderUID != key
    ensures key !in Keys(Loaded(c, rows, sizes))
  {
    if rows != [] {
      var n := |rows| - 1;
      LoadedKeys(c, rows[..n], sizes[..n], key);
      LoadedLast(c, rows, sizes, n);
    }
  }

  lemma {:induction false} LoadedDistinct(c: Caps, rows: seq<Order>, sizes: seq<nat>)
    requires |rows| == |sizes| && DistinctRows(rows)
    ensures Distinct(Loaded(c, rows, sizes))
  {
    if rows != [] {
      var n := |rows| - 1;
      LoadedDistinct(c, rows[..n], sizes[..n]);
      LoadedKeys(c, rows[..n], sizes[..n], rows[n].orderUID);
      LoadedLast(c, rows, sizes, n);
    }
  }

  /** Preload: distinct rows leave the last fitting ones within the count cap, in reverse row order. */
  lemma {:induction false} PreloadLeaves(c: Caps, rows: seq<Order>, sizes: seq<nat>)
    requires |rows| == |sizes| && DistinctRows(rows)
    ensures Run(c, [], Inserts(rows, sizes)) == Evict(Loaded(c, rows, sizes), c.count)
  {
    if rows != [] {
      var n := |rows| - 1;
      var init, inits := rows[..n], sizes[..n];
      PreloadLeaves(c, init, inits);
      assert Inserts(rows, sizes)[..n] == Inserts(init, inits);
      var all := Loaded(c, init, inits);
      LoadedKeys(c, init, inits, rows[n].orderUID);
      LoadedDistinct(c, init, inits);
      EvictIs(all, c.count);
      PreloadOne(c, Evict(all, c.count), rows[n], sizes[n]);
      EvictTwice(all, Entry(rows[n].orderUID, rows[n], sizes[n]), c.count);
    }
  }

  lemma {:induction false} LoadedConcat(c: Caps, rows: seq<Order>, sizes: seq<nat>, i: nat)
    requires |rows| == |sizes| && i <= |rows|
    ensures Loaded(c, rows, sizes) == Loaded(c, rows[i..], sizes[i..]) + Loaded(c, rows[..i], sizes[..i])
  {
    var n := |rows| - 1;
    if i == |rows| {
      assert rows[..i] == rows && sizes[..i] == sizes;
    } else {
      LoadedConcat(c, rows[..n], sizes[..n], i);
      assert rows[..n][i..] == rows[i..][..n - i] && sizes[..n][i..] == sizes[i..][..n - i];
      assert rows[..n][..i] == rows[..i] && sizes[..n][..i] == sizes[..i];
    }
  }

  /**
   Which preloaded rows stay, exactly: those that fit and are followed by fewer fitting rows than the count
   cap. Rows come newest first, so the newest order is the first one to be evicted.
   */
  lemma PreloadKeepsExactly(c: Caps, rows: seq<Order>, sizes: seq<nat>, i: nat)
    requires |rows| == |sizes| && DistinctRows(rows) && i < |rows|
    ensures rows[i].orderUID in Keys(Run(c, [], Inserts(rows, sizes))) <==>
            sizes[i] <= c.entrySize && |Loaded(c, rows[i + 1..], sizes[i + 1..])| < c.count
  {
    hide Loaded, Evict, Run;
    var later, upTo := Loaded(c, rows[i + 1..], sizes[i + 1..]), Loaded(c, rows[..i + 1], sizes[..i + 1]);
    PreloadLeaves(c, rows, sizes);
    LoadedConcat(c, rows, sizes, i + 1);
    LoadedKeys(c, rows[i + 1..], sizes[i + 1..], rows[i].orderUID);
    LoadedHead(c, rows, sizes, i);
    EvictedPart(later, upTo, c.count, rows[i].orderUID);
  }

  lemma LoadedHead(c: Caps, rows: seq<Order>, sizes: seq<nat>, i: nat)
    requires |rows| == |sizes| && DistinctRows(rows) && i < |rows|
    ensures
      var upTo, key := Loaded(c, rows[..i + 1], sizes[..i + 1]), rows[i].orderUID;
      (key in Keys(upTo) <==> sizes[i] <= c.entrySize) && (key in Keys(upTo) ==> upTo[0].key == key)
  {
    hide Loaded;
    LoadedLast(c, rows[..i + 1], sizes[..i + 1], i);
    assert rows[..i + 1][..i] == rows[..i] && sizes[..i + 1][..i] == sizes[..i];
    LoadedKeys(c, rows[..i], sizes[..i], rows[i].orderUID);
  }

  /** A key that heads the second part of a list survives eviction iff the first part leaves room for it. */
  lemma EvictedPart(s: seq<Entry>, t: seq<Entry>, cap: nat, key: string)
    requires key !in Keys(s) && (key in Keys(t) ==> t[0].key == key)
    ensures key in Keys(Evict(s + t, cap)) <==> key in Keys(t) && |s| < cap
  {
    var u := Evict(s + t, cap);
    if |s| < cap {
      var m := if |t| <= cap - |s| then |t| else cap - |s|;
      assert u == s + t[..m] && t == t[..m] + t[m..];
      KeysConcat(s, t[..m]);
      KeysConcat(t[..m], t[m..]);
      if key in Keys(t) { KeyAt(t[..m], 0); }
    } else {
      assert s == u + s[|u|..];
      KeysConcat(u, s[|u|..]);
    }
  }

  lemma EvictTwice(s: seq<Entry>, e: Entry, cap: nat)
    ensures Evict([e] + Evict(s, cap), cap) == Evict([e] + s, cap)
  {
  }

  lemma PreloadOne(c: Caps, s: seq<Entry>, o: Order, size: nat)
    requires o.orderUID !in Keys(s) && |s| <= c.count
    ensures Apply(c, s, Insert(o, size)) ==
            if size <= c.entrySize then Evict([Entry(o.orderUID, o, size)] + s, c.count) else s
  {
    WithoutIs(s, o.orderUID);
  }
}
