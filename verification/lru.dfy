/** internal/service/lru.go: a map of pointers into a doubly linked list, plus a redundant counter. */
module Lru {
  import opened Domain
  import R = Recency
  import opened EvictList

  /** The map holds exactly the ring's elements, each under its own key. */
  ghost predicate Indexed(items: map<string, Element>, ring: seq<Element>) {
    && |items| == |ring| - 1
    && (forall i :: 0 < i < |ring| ==> ring[i].key in items && items[ring[i].key] == ring[i])
    && (forall k :: k in items ==> items[k].key == k && exists i :: 0 < i < |ring| && ring[i] == items[k])
  }

  /** The entries read off the ring behind its sentinel, front first. */
  ghost predicate Mirrors(ring: seq<Element>, entries: seq<R.Entry>)
    reads ring`value, ring`size
  {
    && |ring| == |entries| + 1
    && forall i :: 0 <= i < |entries| ==>
         entries[i] == R.Entry(ring[i + 1].key, ring[i + 1].value, ring[i + 1].size)
  }

  lemma IndexedPush(items: map<string, Element>, ring: seq<Element>, e: Element)
    requires ring != [] && Indexed(items, ring) && e.key !in items
    ensures Indexed(items[e.key := e], Pushed(ring, e))
  {
    var ring', items' := Pushed(ring, e), items[e.key := e];
    forall k | k in items' ensures items'[k].key == k && exists i :: 0 < i < |ring'| && ring'[i] == items'[k] {
      if k == e.key {
        assert ring'[1] == items'[k];
      } else {
        var i :| 0 < i < |ring| && ring[i] == items[k];
        assert ring'[i + 1] == items'[k];
      }
    }
  }

  lemma IndexedMove(items: map<string, Element>, ring: seq<Element>, j: nat)
    requires Indexed(items, ring) && 0 < j < |ring|
    ensures Indexed(items, Moved(ring, j))
  {
    var ring' := Moved(ring, j);
    forall k | k in items ensures exists i :: 0 < i < |ring'| && ring'[i] == items[k] {
      var i :| 0 < i < |ring| && ring[i] == items[k];
      assert ring'[if i < j then i + 1 else if i == j then 1 else i] == items[k];
    }
  }

  lemma IndexedDrop(items: map<string, Element>, ring: seq<Element>, n: nat)
    requires Indexed(items, ring) && |ring| == n + 1 > 1
    requires forall i, j :: 0 <= i < j < |ring| ==> ring[i] != ring[j]
    ensures Indexed(items - {ring[n].key}, ring[..n])
    ensures |items - {ring[n].key}| == |items| - 1
  {
    var gone := ring[n].key;
    var items' := items - {gone};
    assert items'.Keys == items.Keys - {gone};
    assert |items'| == |items'.Keys| && |items| == |items.Keys|;
    forall k | k in items' ensures exists i :: 0 < i < |ring[..n]| && ring[..n][i] == items'[k] {
      var i :| 0 < i < |ring| && ring[i] == items[k];
      assert i < n;
      assert ring[..n][i] == items'[k];
    }
  }

  lemma MirrorsPush(ring: seq<Element>, entries: seq<R.Entry>, e: Element)
    requires ring != [] && Mirrors(ring, entries)
    ensures Mirrors(Pushed(ring, e), [R.Entry(e.key, e.value, e.size)] + entries)
  {
  }

  lemma MirrorsDrop(ring: seq<Element>, entries: seq<R.Entry>, n: nat)
    requires Mirrors(ring, entries) && |ring| == n + 1 > 1
    ensures Mirrors(ring[..n], entries[..n - 1])
  {
  }

  lemma MovedShape(ring: seq<Element>, j: nat)
    requires 0 < j < |ring|
    ensures |Moved(ring, j)| == |ring| && Moved(ring, j)[1] == ring[j]
  {
  }

  lemma MirrorsTail(ring: seq<Element>, entries: seq<R.Entry>)
    requires Mirrors(ring, entries) && |ring| > 1
    ensures Mirrors(ring[1..], entries[1..])
  {
  }

  lemma MirrorsHead(ring: seq<Element>, tail: seq<R.Entry>, e: R.Entry)
    requires |ring| > 1 && Mirrors(ring[1..], tail)
    requires e == R.Entry(ring[1].key, ring[1].value, ring[1].size)
    ensures Mirrors(ring, [e] + tail)
  {
  }

  lemma MirrorsMove(ring: seq<Element>, entries: seq<R.Entry>, j: nat)
    requires Mirrors(ring, entries) && R.Distinct(entries) && 0 < j < |ring|
    ensures Mirrors(Moved(ring, j), [entries[j - 1]] + R.Without(entries, ring[j].key))
  {
    WithoutAt(entries, j - 1);
    assert [entries[j - 1]] + R.Without(entries, ring[j].key) == [entries[j - 1]] + entries[..j - 1] + entries[j..];
  }

  /** A key is in the map iff it is in the recency sequence. */
  lemma ItemsAreKeys(items: map<string, Element>, ring: seq<Element>, entries: seq<R.Entry>, key: string)
    requires Indexed(items, ring) && Mirrors(ring, entries)
    ensures key in items <==> key in R.Keys(entries)
    ensures key in items ==> exists j :: 0 < j < |ring| && ring[j] == items[key] && ring[j].key == key
    ensures |items| == |entries|
  {
    if key in items {
      var j :| 0 < j < |ring| && ring[j] == items[key];
      assert entries[j - 1].key == key;
      R.KeyAt(entries, j - 1);
    }
    if key in R.Keys(entries) {
      var i := KeyIndex(entries, key);
      assert ring[i + 1].key in items;
    }
  }

  class LRUCache {
    const caps: R.Caps
    var currEntryCount: int
    var items: map<string, Element>
    const evictList: List
    /** The recency sequence this structure stands for. */
    ghost var entries: seq<R.Entry>

    /** Map, list, counter and sequence agree; one insert may take the count over its cap. */
    ghost predicate Linked()
      reads this, evictList, evictList.repr
    {
      && evictList.Valid()
      && Indexed(items, evictList.ring)
      && Mirrors(evictList.ring, entries)
      && R.Distinct(entries)
      && currEntryCount == |items|
    }

    ghost predicate Valid()
      reads this, evictList, evictList.repr
    {
      Linked() && currEntryCount <= caps.count
    }

    constructor (entryCountCap: nat, entrySizeCap: int, filler: Order)
      ensures Valid() && entries == [] && caps == R.Caps(entryCountCap, entrySizeCap)
      ensures fresh(evictList) && fresh(evictList.repr)
    {
      caps := R.Caps(entryCountCap, entrySizeCap);
      currEntryCount := 0;
      items := map[];
      evictList := new List("", filler);
      entries := [];
    }

    /** What the operations below read off Linked. */
    lemma Facts()
      requires Linked()
      ensures currEntryCount == |entries| == evictList.len == |evictList.ring| - 1
      ensures evictList.ring[0] == evictList.root
      ensures forall i :: 0 < i < |evictList.ring| ==> evictList.ring[i].key == entries[i - 1].key
      ensures forall i :: 0 <= i < |evictList.ring| ==> evictList.ring[i] in evictList.repr
      ensures forall i, j :: 0 <= i < j < |evictList.ring| ==> evictList.ring[i] != evictList.ring[j]
    {
      evictList.Shape();
      ItemsAreKeys(items, evictList.ring, entries, "");
    }

    /** Moves the element at ring position j to the front, its contents unchanged. */
    method Promote(elem: Element, ghost j: nat)
      requires Linked() && 0 < j < |evictList.ring| && evictList.ring[j] == elem
      modifies `entries, evictList, evictList.repr`next, evictList.repr`prev
      ensures Linked()
      ensures j <= |old(entries)| && entries == [old(entries)[j - 1]] + R.Without(old(entries), elem.key)
      ensures evictList.ring == Moved(old(evictList.ring), j)
      ensures evictList.repr == old(evictList.repr)
    {
      hide List.Valid, Indexed, Mirrors, R.Distinct, R.Without, Moved;
      ghost var ring := evictList.ring;
      Facts();
      IndexedMove(items, ring, j);
      MirrorsMove(ring, entries, j);
      R.MoveFront(entries, entries[j - 1]);
      evictList.MoveToFront(elem, j);
      assert Indexed(items, evictList.ring);
      assert Mirrors(evictList.ring, [entries[j - 1]] + R.Without(entries, elem.key));
      entries := [entries[j - 1]] + R.Without(entries, elem.key);
    }

    lemma ElementAt(j: nat)
      requires Linked() && 0 < j < |evictList.ring|
      ensures |evictList.ring| == |entries| + 1 && evictList.ring[j] in evictList.repr
      ensures entries[j - 1] == R.Entry(evictList.ring[j].key, evictList.ring[j].value, evictList.ring[j].size)
    {
      Facts();
    }

    /** Get returns the cached order, if any, and moves its entry to the front. */
    method Get(key: string) returns (r: Option<Order>)
      requires Valid()
      modifies this, evictList, evictList.repr
      ensures Valid() && entries == R.AfterGet(old(entries), key)
      ensures evictList.repr == old(evictList.repr)
      ensures match R.Find(old(entries), key) case None => r == None case Some(e) => r == Some(e.order)
    {
      hide List.Valid, Indexed, Mirrors, R.Distinct, R.Without, R.Find, R.Keys, Moved;
      Facts();
      ItemsAreKeys(items, evictList.ring, entries, key);
      if key in items {
        var elem := items[key];
        ghost var j :| 0 < j < |evictList.ring| && evictList.ring[j] == elem && elem.key == key;
        FindAt(entries, j - 1);
        ElementAt(j);
        Promote(elem, j);
        return Some(elem.value);
      }
      return None;
    }

    /** Takes the last element out of list, map and counter. */
    method DropBack(elem: Element)
      requires Linked() && evictList.len > 0 && |evictList.ring| == evictList.len + 1
               && elem == evictList.ring[evictList.len]
      modifies this, evictList, evictList.repr
      ensures Linked() && |old(entries)| > 0 && entries == old(entries)[..|old(entries)| - 1]
      ensures evictList.repr == old(evictList.repr)
      ensures currEntryCount == old(currEntryCount) - 1
    {
      hide List.Valid, Indexed, Mirrors, R.Distinct;
      Facts();
      ghost var n := evictList.len;
      IndexedDrop(items, evictList.ring, n);
      MirrorsDrop(evictList.ring, entries, n);
      DistinctPrefix(entries, n - 1);
      evictList.RemoveBack(elem);
      assert Indexed(items - {elem.key}, evictList.ring);
      assert Mirrors(evictList.ring, entries[..n - 1]);
      items := items - {elem.key};
      entries := entries[..n - 1];
      currEntryCount := currEntryCount - 1;
    }

    /** removeOldest pops the back of the list; an empty cache stays as it is. */
    method RemoveOldest()
      requires Linked()
      modifies this, evictList, evictList.repr
      ensures Linked() && entries == if old(entries) == [] then [] else old(entries)[..|old(entries)| - 1]
      ensures evictList.repr == old(evictList.repr)
      ensures currEntryCount == if old(entries) == [] then old(currEntryCount) else old(currEntryCount) - 1
    {
      hide List.Valid, Indexed, Mirrors, R.Distinct;
      Facts();
      var elem := evictList.Back();
      if elem != null {
        DropBack(elem);
      }
    }

    method PushNew(value: Order, ghost size: nat)
      requires Linked() && value.orderUID !in items
      modifies this, evictList, evictList.repr
      ensures Linked()
      ensures entries == [R.Entry(value.orderUID, value, size)] + old(entries)
      ensures fresh(evictList.repr - old(evictList.repr))
    {
      hide List.Valid, Indexed, Mirrors, R.Distinct, R.Without, R.Keys, Pushed;
      Facts();
      ghost var before := evictList.ring;
      ItemsAreKeys(items, evictList.ring, entries, value.orderUID);
      R.WithoutIs(entries, value.orderUID);
      R.MoveFront(entries, R.Entry(value.orderUID, value, size));
      var elem := new Element(value.orderUID, value, size);
      IndexedPush(items, evictList.ring, elem);
      MirrorsPush(evictList.ring, entries, elem);
      evictList.PushFront(elem);
      assert Indexed(items[value.orderUID := elem], evictList.ring);
      assert Mirrors(evictList.ring, [R.Entry(value.orderUID, value, size)] + entries);
      items := items[value.orderUID := elem];
      entries := [R.Entry(value.orderUID, value, size)] + entries;
      currEntryCount := currEntryCount + 1;
    }

    method Renew(value: Order, ghost size: nat)
      requires Linked() && value.orderUID in items
      modifies this, evictList, evictList.repr
      ensures Linked()
      ensures entries == [R.Entry(value.orderUID, value, size)] + R.Without(old(entries), value.orderUID)
      ensures evictList.repr == old(evictList.repr)
    {
      hide List.Valid, Indexed, Mirrors, R.Distinct, R.Without, R.Keys, Moved;
      Facts();
      var elem := items[value.orderUID];
      ItemsAreKeys(items, evictList.ring, entries, value.orderUID);
      ghost var j :| 0 < j < |evictList.ring| && evictList.ring[j] == elem && elem.key == value.orderUID;
      ghost var e := R.Entry(value.orderUID, value, size);
      R.MoveFront(entries, e);
      MovedShape(evictList.ring, j);
      Promote(elem, j);
      Facts();
      ghost var tail := entries[1..];
      MirrorsTail(evictList.ring, entries);
      elem.value := value;
      elem.size := size;
      entries := [e] + tail;
      MirrorsHead(evictList.ring, tail, e);
    }

    /**
     Insert caches an order whose deep size is size. Only a new key is checked against the size cap;
     an update moves to the front unchecked. Then the oldest entries go until the count cap holds.
     */
    method Insert(value: Order, size: nat)
      requires Valid()
      modifies this, evictList, evictList.repr
      ensures Valid() && entries == R.AfterInsert(caps, old(entries), value, size)
      ensures fresh(evictList.repr - old(evictList.repr))
    {
      hide List.Valid, Indexed, Mirrors, R.Distinct, R.Without, R.Keys, R.Find;
      var key := value.orderUID;
      ItemsAreKeys(items, evictList.ring, entries, key);
      R.WithoutIs(entries, key);
      if key !in items {
        if size > caps.entrySize {
          return;
        }
        PushNew(value, size);
      } else {
        Renew(value, size);
      }
      EvictExcess();
    }

    /** The eviction loop. */
    method EvictExcess()
      requires Linked()
      modifies this, evictList, evictList.repr
      ensures Valid() && entries == R.Evict(old(entries), caps.count)
      ensures evictList.repr == old(evictList.repr)
    {
      hide List.Valid, Indexed, Mirrors, R.Distinct;
      Facts();
      while currEntryCount > caps.count
        invariant Linked()
        invariant currEntryCount == |entries| <= |old(entries)|
        invariant entries == old(entries)[..|entries|]
        invariant |entries| < |old(entries)| ==> |entries| >= caps.count
        invariant evictList.repr == old(evictList.repr)
        decreases currEntryCount
      {
        Facts();
        RemoveOldest();
        Facts();
      }
    }
  }

  lemma {:induction false} KeyIndex(s: seq<R.Entry>, key: string) returns (i: nat)
    requires key in R.Keys(s)
    ensures i < |s| && s[i].key == key
  {
    if s[0].key == key {
      i := 0;
    } else {
      var j := KeyIndex(s[1..], key);
      i := j + 1;
    }
  }

  lemma FindAt(s: seq<R.Entry>, i: nat)
    requires R.Distinct(s) && i < |s|
    ensures R.Find(s, s[i].key) == Some(s[i])
  {
    R.KeyAt(s, i);
    var f := R.Find(s, s[i].key).value;
    var j :| 0 <= j < |s| && s[j] == f;
    R.DistinctAt(s, i, j);
  }

  lemma WithoutAt(s: seq<R.Entry>, i: nat)
    requires R.Distinct(s) && i < |s|
    ensures R.Without(s, s[i].key) == s[..i] + s[i + 1..]
  {
    var key := s[i].key;
    var tail := s[i..];
    assert s == s[..i] + tail && tail[1..] == s[i + 1..];
    R.WithoutConcat(s[..i], tail, key);
    R.KeysConcat(s[..i], tail);
    R.WithoutIs(s[..i], key);
    R.WithoutIs(s[i + 1..], key);
  }

  lemma DistinctPrefix(s: seq<R.Entry>, n: nat)
    requires R.Distinct(s) && n <= |s|
    ensures R.Distinct(s[..n])
  {
    assert s == s[..n] + s[n..];
    R.KeysConcat(s[..n], s[n..]);
  }
}
