/** internal/service/cache.go: the order service with an LRU cache in front of it. */
module CachingService {
  import opened Domain
  import Errors
  import R = Recency
  import RT = RecencyTheorems
  import T = Transactions
  import opened Store
  import opened Lru

  /** What GetOrder returns: an order or an error. */
  datatype Answer = Found(order: Order) | NotFound | Broken

  /**
   What GetOrder answers and what it leaves of the cache, given what the next service answers if it is asked,
   the deep size of a found order, and the use that others make of the cache meanwhile.
   */
  function Read(c: R.Caps, entries: seq<R.Entry>, uid: string, answer: Answer, size: nat, others: seq<R.Op>):
    (Answer, seq<R.Entry>)
  {
    match R.Find(entries, uid)
    case Some(e) => (Found(e.order), R.AfterGet(entries, uid))
    case None =>
      var s := R.Run(c, entries, others);
      (answer, if answer.Found? then R.AfterInsert(c, s, answer.order, size) else s)
  }

  /** The cache has room for entries of this size. */
  predicate Fits(c: R.Caps, size: nat) {
    size <= c.entrySize && c.count > 0
  }

  /** A found order that fits is cached in front. */
  lemma InsertedInFront(c: R.Caps, s: seq<R.Entry>, o: Order, size: nat)
    requires Fits(c, size)
    ensures R.AfterInsert(c, s, o, size) != []
    ensures R.AfterInsert(c, s, o, size)[0] == R.Entry(o.orderUID, o, size)
  {
  }

  class CachingOrderService {
    const cache: LRUCache

    ghost predicate Valid()
      reads this, cache, cache.evictList, cache.evictList.repr
    {
      cache.Valid()
    }

    constructor (entryCountCap: nat, entrySizeCap: int, filler: Order)
      ensures Valid() && cache.entries == [] && cache.caps == R.Caps(entryCountCap, entrySizeCap)
      ensures fresh(cache) && fresh(cache.evictList) && fresh(cache.evictList.repr)
    {
      cache := new LRUCache(entryCountCap, entrySizeCap, filler);
    }

    /** Other goroutines use the cache. */
    method Others(ops: seq<R.Op>)
      requires Valid()
      modifies cache, cache.evictList, cache.evictList.repr
      ensures Valid() && cache.entries == R.Run(cache.caps, old(cache.entries), ops)
      ensures fresh(cache.evictList.repr - old(cache.evictList.repr))
    {
      hide LRUCache.Valid, R.AfterGet, R.AfterInsert;
      for i := 0 to |ops|
        invariant Valid() && cache.entries == R.Run(cache.caps, old(cache.entries), ops[..i])
        invariant fresh(cache.evictList.repr - old(cache.evictList.repr))
      {
        match ops[i] {
          case Get(key) =>
            var r := cache.Get(key);
          case Insert(o, size) =>
            cache.Insert(o, size);
        }
        assert ops[..i + 1][..i] == ops[..i];
      }
      assert ops[..|ops|] == ops;
    }

    /**
     GetOrder: a hit is answered from the cache; otherwise the next service is asked, while others go
     on using the cache, and a found order, of deep size size, is cached. Errors are never cached.
     */
    method GetOrder(uid: string, answer: Answer, size: nat, others: seq<R.Op>) returns (r: Answer)
      requires Valid()
      modifies cache, cache.evictList, cache.evictList.repr
      ensures Valid() && fresh(cache.evictList.repr - old(cache.evictList.repr))
      ensures r.NotFound? ==> answer.NotFound?
      ensures r.Broken? ==> answer.Broken?
      ensures R.Find(old(cache.entries), uid).None? ==> r == answer
      ensures R.Find(old(cache.entries), uid).None? && answer.Found? && Fits(cache.caps, size) ==>
                cache.entries != [] && cache.entries[0] == R.Entry(answer.order.orderUID, answer.order, size)
      ensures (r, cache.entries) == Read(cache.caps, old(cache.entries), uid, answer, size, others)
    {
      hide LRUCache.Valid, R.AfterInsert, R.Find;
      var order := cache.Get(uid);
      if order.Some? {
        return Found(order.value);
      }
      Others(others);
      if answer.Found? {
        if Fits(cache.caps, size) {
          InsertedInFront(cache.caps, cache.entries, answer.order, size);
        }
        cache.Insert(answer.order, size);
      }
      return answer;
    }

    /**
     ProcessNewOrder hands the order on to the service, whose validation and insert end as given: nil iff
     both succeed, and else an error whose root is that of the first failure. The cache is left alone.
     */
    method ProcessNewOrder(validation: Option<Errors.Error>, insert: Option<Errors.Error>)
      returns (r: Option<Errors.Error>)
      ensures r == None <==> validation == None && insert == None
      ensures forall target: Errors.Sentinel :: r.Some? ==>
                (Errors.Is(r.value, target) <==>
                 Errors.Root(if validation.Some? then validation.value else insert.value) == target)
    {
      forall target: Errors.Sentinel {
        Errors.ServiceIsTransparent(validation, insert, target);
      }
      r := Errors.ProcessNewOrder(validation, insert);
    }

    /**
     Preload inserts the rows of the latest orders one by one. A store that cannot be reached is not
     an error; any other failure is, and either leaves the cache as it was.
     */
    method Preload(rows: Rows, sizes: seq<nat>) returns (err: Option<T.Report>)
      requires Valid() && (rows.Rows? ==> |sizes| == |rows.orders|)
      modifies cache, cache.evictList, cache.evictList.repr
      ensures Valid() && fresh(cache.evictList.repr - old(cache.evictList.repr))
      ensures err == if rows.RowsFailed? && rows.report != T.ConnectionFailed then Some(rows.report) else None
      ensures cache.entries ==
              if rows.RowsFailed? then old(cache.entries)
              else R.Run(cache.caps, old(cache.entries), RT.Inserts(rows.orders, sizes))
    {
      hide LRUCache.Valid, R.AfterInsert;
      match rows {
        case RowsFailed(report) =>
          if report == T.ConnectionFailed {
            return None;
          }
          return Some(report);
        case Rows(orders) =>
          ghost var ops := RT.Inserts(orders, sizes);
          for i := 0 to |orders|
            invariant Valid() && cache.entries == R.Run(cache.caps, old(cache.entries), ops[..i])
            invariant fresh(cache.evictList.repr - old(cache.evictList.repr))
          {
            cache.Insert(orders[i], sizes[i]);
            assert ops[..i + 1][..i] == ops[..i];
          }
          assert ops[..|orders|] == ops;
          return None;
      }
    }
  }
}
