/**
 The doubly linked list that internal/service/lru.go takes from container/list: a ring of elements
 closed by a sentinel, as the cache uses it. An element carries its cacheEntry inline.
 */
module EvictList {
  import opened Domain

  class Element {
    var next: Element
    var prev: Element
    const key: string
    var value: Order
    /** The deep size measured when value was inserted. */
    ghost var size: nat

    constructor (key: string, value: Order, ghost size: nat)
      ensures this.key == key && this.value == value && this.size == size
    {
      this.key := key;
      this.value := value;
      this.size := size;
      next := this;
      prev := this;
    }
  }

  /** The ring with e spliced in behind the sentinel. */
  ghost function Pushed(ring: seq<Element>, e: Element): seq<Element>
    requires ring != []
  {
    [ring[0], e] + ring[1..]
  }

  /** The ring with the element at position k moved behind the sentinel. */
  ghost function Moved(ring: seq<Element>, k: nat): seq<Element>
    requires 0 < k < |ring|
  {
    [ring[0], ring[k]] + ring[1..k] + ring[k + 1..]
  }

  class List {
    const root: Element
    var len: nat
    /** The sentinel followed by the elements, front first. */
    ghost var ring: seq<Element>
    /** Every element that was ever linked. */
    ghost var repr: set<Element>

    ghost predicate Valid()
      reads this, repr`next, repr`prev
    {
      && |ring| == len + 1 && ring[0] == root
      && (forall i :: 0 <= i < |ring| ==> ring[i] in repr)
      && (forall i, j :: 0 <= i < j < |ring| ==> ring[i] != ring[j])
      && (forall i :: 0 <= i < |ring| - 1 ==> ring[i].next == ring[i + 1])
      && (forall i :: 0 < i < |ring| ==> ring[i].prev == ring[i - 1])
      && ring[|ring| - 1].next == root && ring[0].prev == ring[|ring| - 1]
    }

    /** What users of a valid list rely on. */
    lemma Shape()
      requires Valid()
      ensures |ring| == len + 1 && ring[0] == root
      ensures forall i, j :: 0 <= i < j < |ring| ==> ring[i] != ring[j]
      ensures forall i :: 0 <= i < |ring| ==> ring[i] in repr
    {
    }

    constructor (someKey: string, someOrder: Order)
      ensures Valid() && len == 0 && fresh(repr) && ring == [root]
    {
      var r := new Element(someKey, someOrder, 0);
      r.next := r;
      r.prev := r;
      root := r;
      len := 0;
      ring := [r];
      repr := {r};
    }

    /** The neighbours of the element at position k of the ring. */
    lemma Neighbours(k: nat)
      requires Valid() && 0 < k < |ring|
      ensures ring[k].prev == ring[k - 1]
      ensures ring[k].next == if k + 1 < |ring| then ring[k + 1] else root
      ensures root.next == ring[1] && root.prev == ring[|ring| - 1]
    {
    }

    /** Splices e, which is not linked, behind the sentinel. */
    method LinkFront(e: Element)
      requires Valid() && e !in ring
      modifies this, e`next, e`prev, root`next, root.next`prev
      ensures Valid() && old(ring) != [] && ring == Pushed(old(ring), e) && len == old(len) + 1
      ensures repr == old(repr) + {e}
    {
      assert root.next == if len == 0 then root else ring[1];
      e.prev := root;
      e.next := root.next;
      e.prev.next := e;
      e.next.prev := e;
      len := len + 1;
      repr := repr + {e};
      ring := [root, e] + ring[1..];
    }

    /** Unsplices the element at position k of the ring. */
    method Unlink(e: Element, ghost k: nat)
      requires Valid() && 0 < k < |ring| && ring[k] == e
      modifies this, e.prev`next, e.next`prev
      ensures Valid() && ring == old(ring)[..k] + old(ring)[k + 1..] && len == old(len) - 1 && repr == old(repr)
    {
      assert e.prev == ring[k - 1];
      assert e.next == if k + 1 < |ring| then ring[k + 1] else root;
      e.prev.next := e.next;
      e.next.prev := e.prev;
      len := len - 1;
      ring := ring[..k] + ring[k + 1..];
    }

    lemma FrontLinked()
      requires Valid()
      ensures root in repr && root.next in repr
    {
      assert root.next == if len == 0 then root else ring[1];
    }

    method PushFront(e: Element)
      requires Valid() && e !in ring
      modifies this, e`next, e`prev, repr`next, repr`prev
      ensures Valid() && old(ring) != [] && ring == Pushed(old(ring), e) && repr == old(repr) + {e}
    {
      FrontLinked();
      LinkFront(e);
    }

    method MoveToFront(e: Element, ghost k: nat)
      requires Valid() && 0 < k < |ring| && ring[k] == e
      modifies this, repr`next, repr`prev
      ensures Valid() && ring == Moved(old(ring), k) && repr == old(repr)
    {
      ghost var before := ring;
      Neighbours(k);
      if root.next == e {
        assert k == 1;
        assert ring == [root, e] + before[1..1] + before[2..];
        return;
      }
      Unlink(e, k);
      FrontLinked();
      LinkFront(e);
      assert ring == [root, e] + before[1..k] + before[k + 1..];
    }

    /** The last element; the list is empty iff there is none. */
    method Back() returns (e: Element?)
      requires Valid()
      ensures len == 0 <==> e == null
      ensures len > 0 ==> |ring| == len + 1 && e == ring[len]
    {
      if len == 0 {
        e := null;
      } else {
        Neighbours(1);
        e := root.prev;
      }
    }

    /** Removes the last element. */
    method RemoveBack(e: Element)
      requires Valid() && len > 0 && |ring| == len + 1 && e == ring[len]
      modifies this, repr`next, repr`prev
      ensures Valid() && ring == old(ring)[..old(len)] && len == old(len) - 1 && repr == old(repr)
    {
      ghost var before := ring;
      Neighbours(len);
      Unlink(e, len);
      assert ring == before[..|before| - 1];
    }
  }
}
