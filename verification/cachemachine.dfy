/**
 The cache, its readers and preload next to the database under all interleavings: a cached read may be
 overtaken at any point by committing transactions, by other readers and by preload.
 */
module CacheMachine {
  import opened Domain
  import opened Queries
  import R = Recency
  import RT = RecencyTheorems
  import T = Transactions
  import opened StoreTheorems

  /** A reader after its miss; stored says whether the uid was committed when it missed. */
  datatype Reader = Missed(uid: string, stored: bool) | Fetched(uid: string, order: Order)

  /** What a read answered: from the cache, from the store, not found, or with another error. */
  datatype Answer =
    | Hit(uid: string, order: Order)
    | Loaded(uid: string, order: Order)
    | NotFound(uid: string, stored: bool)
    | Broken(uid: string)

  datatype State = State(
    db: T.Db,
    entries: seq<R.Entry>,
    readers: map<nat, Reader>,
    preload: seq<Order>,
    answers: seq<Answer>)

  datatype Action =
    | Store(a: T.Action)
    | Lookup(r: nat, uid: string)
    | Fetch(r: nat)
    | FetchError(r: nat)
    | Fill(r: nat, size: nat)
    | PreloadQuery(ids: seq<nat>, limit: nat)
    | PreloadInsert(size: nat)

  ghost predicate UidCommitted(db: T.Db, uid: string) {
    exists id :: id in db.ledger && db.ledger[id].order.orderUID == uid
  }

  ghost predicate Enabled(s: State, a: Action) {
    match a
    case Store(b) => T.Enabled(s.db, b)
    case Lookup(r, _) => r !in s.readers
    case Fetch(r) => r in s.readers && s.readers[r].Missed?
    case FetchError(r) => r in s.readers && s.readers[r].Missed?
    case Fill(r, _) => r in s.readers && s.readers[r].Fetched?
    case PreloadQuery(ids, limit) => s.preload == [] && LatestRows(s.db.committed, ids, limit)
    case PreloadInsert(_) => s.preload != []
  }

  ghost function AfterLookup(s: State, r: nat, uid: string): State {
    match R.Find(s.entries, uid)
    case Some(e) => s.(entries := R.AfterGet(s.entries, uid), answers := s.answers + [Hit(uid, e.order)])
    case None => s.(readers := s.readers[r := Missed(uid, UidCommitted(s.db, uid))])
  }

  ghost function AfterFetch(s: State, r: nat): State
    requires r in s.readers && s.readers[r].Missed?
  {
    var uid := s.readers[r].uid;
    match GetOrder(s.db.committed, uid)
    case Some(o) => s.(readers := s.readers[r := Fetched(uid, o)])
    case None => s.(readers := s.readers - {r}, answers := s.answers + [NotFound(uid, s.readers[r].stored)])
  }

  ghost function Apply(c: R.Caps, s: State, a: Action): State
    requires Enabled(s, a)
  {
    match a
    case Store(b) => s.(db := T.Apply(s.db, b))
    case Lookup(r, uid) => AfterLookup(s, r, uid)
    case Fetch(r) => AfterFetch(s, r)
    case FetchError(r) => s.(readers := s.readers - {r}, answers := s.answers + [Broken(s.readers[r].uid)])
    case Fill(r, size) =>
      s.(readers := s.readers - {r}, entries := R.AfterInsert(c, s.entries, s.readers[r].order, size),
         answers := s.answers + [Loaded(s.readers[r].uid, s.readers[r].order)])
    case PreloadQuery(ids, _) => s.(preload := Objects(s.db.committed, ids))
    case PreloadInsert(size) =>
      s.(preload := s.preload[1..], entries := R.AfterInsert(c, s.entries, s.preload[0], size))
  }

  ghost predicate Run(c: R.Caps, s: State, actions: seq<Action>, t: State)
    decreases |actions|
  {
    if actions == [] then s == t else
      Enabled(s, actions[0]) && Run(c, Apply(c, s, actions[0]), actions[1..], t)
  }

  const START := State(T.EMPTY, [], map[], [], [])

  // ----- What every step keeps -----

  ghost predicate EntriesTrue(db: T.Db, entries: seq<R.Entry>) {
    forall e :: e in entries ==> e.key == e.order.orderUID && CommittedAs(db, e.order)
  }

  ghost predicate ReaderTrue(db: T.Db, p: Reader) {
    match p
    case Missed(uid, stored) => stored ==> UidCommitted(db, uid)
    case Fetched(uid, o) => o.orderUID == uid && CommittedAs(db, o)
  }

  ghost predicate AnswerTrue(db: T.Db, a: Answer) {
    match a
    case Hit(uid, o) => o.orderUID == uid && CommittedAs(db, o)
    case Loaded(uid, o) => o.orderUID == uid && CommittedAs(db, o)
    case NotFound(_, stored) => !stored
    case Broken(_) => true
  }

  ghost predicate AllTrue(db: T.Db, readers: map<nat, Reader>, preload: seq<Order>, answers: seq<Answer>) {
    && (forall r :: r in readers ==> ReaderTrue(db, readers[r]))
    && (forall o :: o in preload ==> CommittedAs(db, o))
    && forall a :: a in answers ==> AnswerTrue(db, a)
  }

  ghost predicate Inv(c: R.Caps, s: State) {
    && Whole(s.db) && R.Good(c, s.entries) && EntriesTrue(s.db, s.entries)
    && AllTrue(s.db, s.readers, s.preload, s.answers)
  }

  /** What was committed stays committed. */
  lemma StaysCommitted(db: T.Db, db': T.Db)
    requires Extends(db, db')
    ensures forall o :: CommittedAs(db, o) ==> CommittedAs(db', o)
    ensures forall uid :: UidCommitted(db, uid) ==> UidCommitted(db', uid)
  {
    forall o | CommittedAs(db, o) ensures CommittedAs(db', o) {
      var id :| id in db.ledger && db.ledger[id].order == o;
      assert db'.ledger[id].order == o;
    }
    forall uid | UidCommitted(db, uid) ensures UidCommitted(db', uid) {
      var id :| id in db.ledger && db.ledger[id].order.orderUID == uid;
      assert db'.ledger[id].order.orderUID == uid;
    }
  }

  lemma StoreKeeps(c: R.Caps, s: State, b: T.Action)
    requires Inv(c, s) && T.Enabled(s.db, b)
    ensures Inv(c, s.(db := T.Apply(s.db, b)))
  {
    hide Whole, T.Enabled, T.Apply, CommittedAs, UidCommitted, R.Good, Extends;
    WholeStep(s.db, b);
    StaysCommitted(s.db, T.Apply(s.db, b));
  }

  lemma {:induction false} WithoutMembers(s: seq<R.Entry>, key: string)
    ensures forall e :: e in R.Without(s, key) ==> e in s
  {
    if s != [] { WithoutMembers(s[1..], key); }
  }

  lemma GetKeeps(c: R.Caps, db: T.Db, s: seq<R.Entry>, key: string)
    requires R.Good(c, s) && EntriesTrue(db, s)
    ensures R.Good(c, R.AfterGet(s, key)) && EntriesTrue(db, R.AfterGet(s, key))
  {
    hide R.Good, CommittedAs;
    R.ApplyGood(c, s, R.Get(key));
    WithoutMembers(s, key);
  }

  lemma InsertKeeps(c: R.Caps, db: T.Db, s: seq<R.Entry>, o: Order, size: nat)
    requires R.Good(c, s) && EntriesTrue(db, s) && CommittedAs(db, o)
    ensures R.Good(c, R.AfterInsert(c, s, o, size)) && EntriesTrue(db, R.AfterInsert(c, s, o, size))
  {
    hide R.Good, CommittedAs;
    R.ApplyGood(c, s, R.Insert(o, size));
    WithoutMembers(s, o.orderUID);
  }

  lemma LookupKeeps(c: R.Caps, s: State, r: nat, uid: string)
    requires Inv(c, s)
    ensures Inv(c, AfterLookup(s, r, uid))
  {
    hide Whole, R.Good, CommittedAs, UidCommitted, R.AfterGet;
    GetKeeps(c, s.db, s.entries, uid);
  }

  lemma FetchKeeps(c: R.Caps, s: State, r: nat)
    requires Inv(c, s) && Enabled(s, Fetch(r))
    ensures Inv(c, AfterFetch(s, r))
  {
    hide Whole, R.Good, CommittedAs, UidCommitted, GetOrder, EntriesTrue;
    var p := s.readers[r];
    StoreAnswers(s.db, p.uid);
    assert ReaderTrue(s.db, p);
  }

  /** What the store answers is what is committed. */
  lemma StoreAnswers(db: T.Db, uid: string)
    requires Whole(db)
    ensures GetOrder(db.committed, uid) == None <==> !UidCommitted(db, uid)
    ensures forall o :: GetOrder(db.committed, uid) == Some(o) <==> CommittedAs(db, o) && o.orderUID == uid
  {
    hide GetOrder, CommittedAs, T.Inv, Accounted, Truthful;
    NotFoundExact(db, uid);
    forall o ensures GetOrder(db.committed, uid) == Some(o) <==> CommittedAs(db, o) && o.orderUID == uid {
      GetOrderExact(db, uid, o);
    }
  }

  lemma RowsCommitted(s: State, ids: seq<nat>, limit: nat)
    requires Whole(s.db) && LatestRows(s.db.committed, ids, limit)
    ensures forall o :: o in Objects(s.db.committed, ids) ==> CommittedAs(s.db, o)
  {
    hide GetOrder, CommittedAs, T.Inv, Accounted, Truthful, RowObject;
    LatestAreCommitted(s.db, ids, limit);
    forall o | o in Objects(s.db.committed, ids) ensures CommittedAs(s.db, o) {
      GetOrderExact(s.db, o.orderUID, o);
    }
  }

  lemma StepInv(c: R.Caps, s: State, a: Action)
    requires Inv(c, s) && Enabled(s, a)
    ensures Inv(c, Apply(c, s, a))
  {
    hide Whole, R.Good, CommittedAs, UidCommitted, EntriesTrue, R.AfterInsert, LatestRows, T.Enabled, T.Apply,
        AfterLookup,
      AfterFetch;
    match a
    case Store(b) => StoreKeeps(c, s, b);
    case Lookup(r, uid) => LookupKeeps(c, s, r, uid);
    case Fetch(r) => FetchKeeps(c, s, r);
    case FetchError(r) =>
    case Fill(r, size) =>
      assert ReaderTrue(s.db, s.readers[r]);
      InsertKeeps(c, s.db, s.entries, s.readers[r].order, size);
    case PreloadQuery(ids, limit) => RowsCommitted(s, ids, limit);
    case PreloadInsert(size) =>
      assert s.preload[0] in s.preload;
      InsertKeeps(c, s.db, s.entries, s.preload[0], size);
  }

  lemma {:induction false} RunInv(c: R.Caps, s: State, actions: seq<Action>, t: State)
    requires Inv(c, s) && Run(c, s, actions, t)
    ensures Inv(c, t)
    decreases |actions|
  {
    hide Enabled, Apply, Inv;
    if actions != [] {
      StepInv(c, s, actions[0]);
      RunInv(c, Apply(c, s, actions[0]), actions[1..], t);
    }
  }

  lemma StartInv(c: R.Caps)
    ensures Inv(c, START)
  {
    EmptyWhole();
  }

  // ----- The memory the cache takes -----

  /** A run in which every size handed to the cache is the deep size of the order. */
  ghost predicate Measured(f: Order -> nat, c: R.Caps, s: State, actions: seq<Action>)
    decreases |actions|
  {
    actions == [] ||
    (&& Enabled(s, actions[0])
     && (actions[0].Fill? ==> actions[0].size == f(s.readers[actions[0].r].order))
     && (actions[0].PreloadInsert? ==> actions[0].size == f(s.preload[0]))
     && Measured(f, c, Apply(c, s, actions[0]), actions[1..]))
  }

  /** Every entry has its order's deep size, and that is within the cap. */
  ghost predicate Fitting(f: Order -> nat, c: R.Caps, entries: seq<R.Entry>) {
    forall e :: e in entries ==> e.size == f(e.order) <= c.entrySize
  }

  /** An order committed under the key of a cached one is that very order. */
  lemma SameUidSameOrder(db: T.Db, e: R.Entry, o: Order)
    requires Whole(db) && CommittedAs(db, e.order) && e.key == e.order.orderUID && CommittedAs(db, o)
             && o.orderUID == e.key
    ensures e.order == o
  {
    hide Whole, CommittedAs, GetOrder;
    StoreAnswers(db, e.key);
    assert GetOrder(db.committed, e.key) == Some(e.order) && GetOrder(db.committed, e.key) == Some(o);
  }

  lemma FittingInsert(f: Order -> nat, c: R.Caps, db: T.Db, s: seq<R.Entry>, o: Order)
    requires Whole(db) && EntriesTrue(db, s) && CommittedAs(db, o) && Fitting(f, c, s)
    ensures Fitting(f, c, R.AfterInsert(c, s, o, f(o)))
  {
    hide Whole, CommittedAs;
    WithoutMembers(s, o.orderUID);
    var found := R.Find(s, o.orderUID);
    if found.Some? {
      SameUidSameOrder(db, found.value, o);
    }
  }

  lemma FittingStep(f: Order -> nat, c: R.Caps, s: State, a: Action)
    requires Inv(c, s) && Enabled(s, a) && Fitting(f, c, s.entries)
    requires a.Fill? ==> a.size == f(s.readers[a.r].order)
    requires a.PreloadInsert? ==> a.size == f(s.preload[0])
    ensures Fitting(f, c, Apply(c, s, a).entries)
  {
    hide Whole, R.Good, CommittedAs, UidCommitted, EntriesTrue, R.AfterInsert, LatestRows, T.Enabled, T.Apply, GetOrder;
    match a
    case Lookup(r, uid) => WithoutMembers(s.entries, uid);
    case Fill(r, size) =>
      assert ReaderTrue(s.db, s.readers[r]);
      FittingInsert(f, c, s.db, s.entries, s.readers[r].order);
    case PreloadInsert(size) =>
      assert s.preload[0] in s.preload;
      FittingInsert(f, c, s.db, s.entries, s.preload[0]);
    case _ =>
  }

  lemma {:induction false} FittingRun(f: Order -> nat, c: R.Caps, s: State, actions: seq<Action>, t: State)
    requires Inv(c, s) && Run(c, s, actions, t) && Measured(f, c, s, actions) && Fitting(f, c, s.entries)
    ensures Fitting(f, c, t.entries)
    decreases |actions|
  {
    hide Enabled, Apply, Inv, Fitting;
    if actions != [] {
      StepInv(c, s, actions[0]);
      FittingStep(f, c, s, actions[0]);
      FittingRun(f, c, Apply(c, s, actions[0]), actions[1..], t);
    }
  }

  lemma {:induction false} FittingIs(f: Order -> nat, c: R.Caps, s: seq<R.Entry>)
    requires Fitting(f, c, s)
    ensures RT.AllFit(s, c.entrySize)
  {
    if s != [] {
      FittingIs(f, c, s[1..]);
      assert s[0] in s;
    }
  }

  /**
   The memory limit holds for the service: with sizes that are a function of the order, no interleaving
   of transactions, reads and preload makes the cached orders exceed the count cap times the size cap,
   because the store never gives two orders for one uid.
   */
  lemma MemoryBoundHolds(f: Order -> nat, c: R.Caps, actions: seq<Action>, s: State)
    requires Run(c, START, actions, s) && Measured(f, c, START, actions) && 0 <= c.entrySize
    ensures forall e :: e in s.entries ==> e.size == f(e.order) <= c.entrySize
    ensures RT.TotalSize(s.entries) <= c.count * c.entrySize
  {
    hide Run, Measured, Whole, RT.AllFit, RT.TotalSize;
    StartInv(c);
    RunInv(c, START, actions, s);
    FittingRun(f, c, START, actions, s);
    FittingIs(f, c, s.entries);
    RT.TotalBound(s.entries, c.count, c.entrySize);
  }

  // ----- Transparency -----

  /**
   Cache transparency. After any interleaving of transactions, reads and preload: every cached entry is
   the database's order for its key; every order ever answered, from the cache or not, is still the
   database's order for that uid; and not-found is answered only for a uid that had not been stored when
   the read began.
   */
  lemma CacheIsTransparent(c: R.Caps, actions: seq<Action>, s: State)
    requires Run(c, START, actions, s)
    ensures forall e :: e in s.entries ==> GetOrder(s.db.committed, e.key) == Some(e.order)
    ensures forall a :: a in s.answers && (a.Hit? || a.Loaded?) ==> GetOrder(s.db.committed, a.uid) == Some(a.order)
    ensures forall a :: a in s.answers && a.NotFound? ==> !a.stored
    ensures |s.entries| <= c.count
  {
    hide Run, GetOrder, CommittedAs, Whole;
    StartInv(c);
    RunInv(c, START, actions, s);
    forall uid, o | CommittedAs(s.db, o) && o.orderUID == uid ensures GetOrder(s.db.committed, uid) == Some(o) {
      StoreAnswers(s.db, uid);
    }
  }

  /**
   At every moment a lookup answers what the uncached service would answer at that moment, or goes on
   to ask it: a hit is the store's present answer, and a uid the store does not hold is never a hit.
   */
  lemma LookupIsUncached(c: R.Caps, actions: seq<Action>, s: State, r: nat, uid: string)
    requires Run(c, START, actions, s) && r !in s.readers
    ensures
      var t := Apply(c, s, Lookup(r, uid));
      match GetOrder(s.db.committed, uid)
      case None => t.answers == s.answers && t.readers == s.readers[r := Missed(uid, false)]
      case Some(o) => t.answers == s.answers + [Hit(uid, o)] || t.readers == s.readers[r := Missed(uid, true)]
  {
    hide Run, GetOrder, CommittedAs, Whole, UidCommitted;
    StartInv(c);
    RunInv(c, START, actions, s);
    StoreAnswers(s.db, uid);
  }
}
