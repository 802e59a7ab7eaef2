/**
 What the cache of internal/service/lru.go is meant to be: a sequence of entries, most recently
 touched first, and the effect of Get and Insert on it.
 */
module Recency {
  import opened Domain

  /** A cached order with the deep size that was measured when it was handed to Insert. */
  datatype Entry = Entry(key: string, order: Order, size: nat)

  /** entryCountCap and entrySizeCap. */
  datatype Caps = Caps(count: nat, entrySize: int)

  datatype Op = Get(key: string) | Insert(order: Order, size: nat)

  ghost function Keys(s: seq<Entry>): set<string> {
    if s == [] then {} else {s[0].key} + Keys(s[1..])
  }

  ghost predicate Distinct(s: seq<Entry>) {
    s == [] || (s[0].key !in Keys(s[1..]) && Distinct(s[1..]))
  }

  function Find(s: seq<Entry>, key: string): (r: Option<Entry>)
    ensures r.Some? ==> r.value in s && r.value.key == key
    ensures r.None? <==> key !in Keys(s)
  {
    if s == [] then None else if s[0].key == key then Some(s[0]) else Find(s[1..], key)
  }

  /** The entries whose keys lie in ks, in order. */
  ghost function Keep(s: seq<Entry>, ks: set<string>): seq<Entry> {
    if s == [] then [] else if s[0].key in ks then [s[0]] + Keep(s[1..], ks) else Keep(s[1..], ks)
  }

  function Without(s: seq<Entry>, key: string): seq<Entry> {
    if s == [] then [] else if s[0].key == key then Without(s[1..], key) else [s[0]] + Without(s[1..], key)
  }

  function Evict(s: seq<Entry>, cap: nat): seq<Entry> {
    if |s| > cap then s[..cap] else s
  }

  /** The key that an operation moves to the front: a hit Get or an accepted Insert. */
  function Touches(c: Caps, s: seq<Entry>, op: Op): Option<string> {
    match op
    case Get(key) => if Find(s, key).Some? then Some(key) else None
    case Insert(o, size) =>
      if Find(s, o.orderUID).Some? || size <= c.entrySize then Some(o.orderUID) else None
  }

  /** The entry an operation puts in front when it touches a key. */
  ghost function Front(c: Caps, s: seq<Entry>, op: Op): (e: Entry)
    requires Touches(c, s, op).Some?
    ensures e.key == Touches(c, s, op).value
  {
    match op
    case Get(key) => Find(s, key).value
    case Insert(o, size) => Entry(o.orderUID, o, size)
  }

  function AfterGet(s: seq<Entry>, key: string): seq<Entry> {
    match Find(s, key)
    case None => s
    case Some(e) => [e] + Without(s, key)
  }

  function AfterInsert(c: Caps, s: seq<Entry>, o: Order, size: nat): seq<Entry> {
    if Find(s, o.orderUID).None? && size > c.entrySize then s
    else Evict([Entry(o.orderUID, o, size)] + Without(s, o.orderUID), c.count)
  }

  function Apply(c: Caps, s: seq<Entry>, op: Op): seq<Entry> {
    match op
    case Get(key) => AfterGet(s, key)
    case Insert(o, size) => AfterInsert(c, s, o, size)
  }

  function Run(c: Caps, s: seq<Entry>, ops: seq<Op>): seq<Entry> {
    if ops == [] then s else Apply(c, Run(c, s, ops[..|ops| - 1]), ops[|ops| - 1])
  }

  ghost predicate Good(c: Caps, s: seq<Entry>) {
    Distinct(s) && |s| <= c.count
  }

  // ----- Filters -----

  lemma {:induction false} KeyAt(s: seq<Entry>, i: nat)
    requires i < |s|
    ensures s[i].key in Keys(s)
  {
    if i > 0 {
      KeyAt(s[1..], i - 1);
    }
  }

  /** Distinct keys, said by positions. */
  lemma {:induction false} DistinctAt(s: seq<Entry>, i: nat, j: nat)
    requires Distinct(s) && i < |s| && j < |s| && s[i].key == s[j].key
    ensures i == j
  {
    if i > 0 && j > 0 {
      DistinctAt(s[1..], i - 1, j - 1);
    } else if i > 0 {
      KeyAt(s[1..], i - 1);
    } else if j > 0 {
      KeyAt(s[1..], j - 1);
    }
  }

  lemma {:induction false} WithoutIs(s: seq<Entry>, key: string)
    ensures Keys(Without(s, key)) == Keys(s) - {key}
    ensures key !in Keys(s) ==> Without(s, key) == s
    ensures Distinct(s) ==> Distinct(Without(s, key))
    ensures Distinct(s) ==> |Without(s, key)| == |s| - if key in Keys(s) then 1 else 0
  {
    if s != [] {
      WithoutIs(s[1..], key);
      assert s == [s[0]] + s[1..];
      if s[0].key != key {
        var t := Without(s, key);
        assert t[1..] == Without(s[1..], key);
      }
    }
  }

  lemma {:induction false} KeysConcat(s: seq<Entry>, t: seq<Entry>)
    ensures Keys(s + t) == Keys(s) + Keys(t)
    ensures Distinct(s + t) <==> Distinct(s) && Distinct(t) && Keys(s) !! Keys(t)
  {
    if s == [] {
      assert s + t == t;
    } else {
      assert (s + t)[1..] == s[1..] + t;
      KeysConcat(s[1..], t);
    }
  }

  lemma {:induction false} WithoutConcat(s: seq<Entry>, t: seq<Entry>, key: string)
    ensures Without(s + t, key) == Without(s, key) + Without(t, key)
  {
    if s == [] {
      assert s + t == t;
    } else {
      assert (s + t)[1..] == s[1..] + t;
      WithoutConcat(s[1..], t, key);
    }
  }

  lemma {:induction false} KeepConcat(s: seq<Entry>, t: seq<Entry>, ks: set<string>)
    ensures Keep(s + t, ks) == Keep(s, ks) + Keep(t, ks)
  {
    if s == [] {
      assert s + t == t;
    } else {
      assert (s + t)[1..] == s[1..] + t;
      KeepConcat(s[1..], t, ks);
    }
  }

  lemma {:induction false} KeepWithout(s: seq<Entry>, ks: set<string>, key: string)
    ensures Keep(Without(s, key), ks) == Without(Keep(s, ks), key)
    ensures Keep(Without(s, key), ks + {key}) == Keep(Without(s, key), ks)
    ensures Keep(s, ks - {key}) == Without(Keep(s, ks), key)
  {
    if s != [] {
      KeepWithout(s[1..], ks, key);
    }
  }

  lemma {:induction false} KeepOwnKeys(s: seq<Entry>, ks: set<string>)
    requires Keys(s) <= ks
    ensures Keep(s, ks) == s
  {
    if s != [] {
      KeepOwnKeys(s[1..], ks);
    }
  }

  lemma {:induction false} KeepOthers(s: seq<Entry>, ks: set<string>)
    requires Keys(s) !! ks
    ensures Keep(s, ks) == []
  {
    if s != [] {
      KeepOthers(s[1..], ks);
    }
  }

  lemma {:induction false} FindKept(s: seq<Entry>, ks: set<string>, key: string)
    requires key in ks
    ensures Find(Keep(s, ks), key) == Find(s, key)
  {
    if s != [] {
      FindKept(s[1..], ks, key);
    }
  }

  /** Moving or putting an entry in front adds at most its key. */
  lemma MoveFront(s: seq<Entry>, f: Entry)
    requires Distinct(s)
    ensures
      var u := [f] + Without(s, f.key);
      && Keys(u) == Keys(s) + {f.key} && Distinct(u)
      && |u| == |s| + if f.key in Keys(s) then 0 else 1
  {
    WithoutIs(s, f.key);
    assert ([f] + Without(s, f.key))[1..] == Without(s, f.key);
  }

  /** Evicting leaves a prefix; with distinct keys the victims are gone from the key set. */
  lemma EvictIs(s: seq<Entry>, cap: nat)
    ensures Distinct(s) ==> Distinct(Evict(s, cap))
    ensures Keys(Evict(s, cap)) <= Keys(s)
    ensures |Evict(s, cap)| <= cap
    ensures |s| > cap && Distinct(s) ==> Keys(Evict(s, cap)) == Keys(s) - Keys(s[cap..])
  {
    if |s| > cap {
      assert s == s[..cap] + s[cap..];
      KeysConcat(s[..cap], s[cap..]);
    }
  }

  /** Get and Insert keep keys distinct and the count within its cap. */
  lemma ApplyGood(c: Caps, s: seq<Entry>, op: Op)
    requires Good(c, s)
    ensures Good(c, Apply(c, s, op))
    ensures Touches(c, s, op).None? ==> Apply(c, s, op) == s
    ensures Touches(c, s, op).Some? ==>
              Apply(c, s, op) == Evict([Front(c, s, op)] + Without(s, Touches(c, s, op).value), c.count)
  {
    if Touches(c, s, op).Some? {
      var k := Touches(c, s, op).value;
      WithoutIs(s, k);
      var t := [Front(c, s, op)] + Without(s, k);
      assert t[1..] == Without(s, k);
      EvictIs(t, c.count);
    }
  }

  lemma {:induction false} RunGood(c: Caps, s: seq<Entry>, ops: seq<Op>)
    requires Good(c, s)
    ensures Good(c, Run(c, s, ops))
  {
    if ops != [] {
      RunGood(c, s, ops[..|ops| - 1]);
      ApplyGood(c, Run(c, s, ops[..|ops| - 1]), ops[|ops| - 1]);
    }
  }
}
