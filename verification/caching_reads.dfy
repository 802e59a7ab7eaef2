/** The reads and the preload of the cache's step system are those of the caching service. */
module CachingReads {
  import opened Domain
  import opened Queries
  import R = Recency
  import RT = RecencyTheorems
  import opened CacheMachine
  import StoreTheorems
  import CS = CachingService
  import T = Transactions

  // ----- What a run does to the cache -----

  /** What a step does to the cache. */
  ghost function OpOf(s: State, a: Action): seq<R.Op>
    requires Enabled(s, a)
  {
    match a
    case Lookup(_, uid) => [R.Get(uid)]
    case Fill(r, size) => [R.Insert(s.readers[r].order, size)]
    case PreloadInsert(size) => [R.Insert(s.preload[0], size)]
    case _ => []
  }

  ghost function OpsOf(c: R.Caps, s: State, actions: seq<Action>): seq<R.Op>
    decreases |actions|
  {
    if actions == [] || !Enabled(s, actions[0]) then []
    else OpOf(s, actions[0]) + OpsOf(c, Apply(c, s, actions[0]), actions[1..])
  }

  lemma {:induction false} RunConcat(c: R.Caps, s: seq<R.Entry>, xs: seq<R.Op>, ys: seq<R.Op>)
    ensures R.Run(c, s, xs + ys) == R.Run(c, R.Run(c, s, xs), ys)
  {
    if ys == [] {
      assert xs + ys == xs;
    } else {
      var n := |ys| - 1;
      assert (xs + ys)[..|xs| + n] == xs + ys[..n];
      RunConcat(c, s, xs, ys[..n]);
    }
  }

  lemma RunOne(c: R.Caps, s: seq<R.Entry>, op: R.Op)
    ensures R.Run(c, s, [op]) == R.Apply(c, s, op)
  {
    hide R.Apply;
    assert [op][..0] == [];
  }

  lemma EntriesStep(c: R.Caps, s: State, a: Action)
    requires Enabled(s, a)
    ensures Apply(c, s, a).entries == R.Run(c, s.entries, OpOf(s, a))
  {
    hide R.AfterInsert, StoreTheorems.LatestRows, T.Enabled, T.Apply, UidCommitted, GetOrder;
    forall op ensures R.Run(c, s.entries, [op]) == R.Apply(c, s.entries, op) {
      RunOne(c, s.entries, op);
    }
  }

  /** In every run the cache goes through the gets and inserts of the run, in order. */
  lemma {:induction false} EntriesRun(c: R.Caps, s: State, actions: seq<Action>, t: State)
    requires Run(c, s, actions, t)
    ensures t.entries == R.Run(c, s.entries, OpsOf(c, s, actions))
    decreases |actions|
  {
    hide Enabled, Apply, R.Run, OpOf;
    if actions == [] {
      NoOps(c, s.entries);
    } else {
      var u := Apply(c, s, actions[0]);
      EntriesStep(c, s, actions[0]);
      EntriesRun(c, u, actions[1..], t);
      RunConcat(c, s.entries, OpOf(s, actions[0]), OpsOf(c, u, actions[1..]));
    }
  }

  lemma NoOps(c: R.Caps, s: seq<R.Entry>)
    ensures R.Run(c, s, []) == s
  {
  }

  // ----- A read -----

  /** Steps that are not those of reader r. */
  predicate Foreign(actions: seq<Action>, r: nat) {
    forall a :: a in actions ==>
      !(a.Lookup? && a.r == r) && !(a.Fetch? && a.r == r) && !(a.FetchError? && a.r == r) && !(a.Fill? && a.r == r)
  }

  lemma ForeignStep(c: R.Caps, s: State, a: Action, r: nat)
    requires Enabled(s, a) && Foreign([a], r) && r in s.readers
    ensures r in Apply(c, s, a).readers && Apply(c, s, a).readers[r] == s.readers[r]
  {
    hide R.AfterInsert, R.AfterGet, StoreTheorems.LatestRows, T.Enabled, T.Apply, UidCommitted, GetOrder;
    assert a in [a];
  }

  lemma {:induction false} ForeignRun(c: R.Caps, s: State, actions: seq<Action>, t: State, r: nat)
    requires Run(c, s, actions, t) && Foreign(actions, r) && r in s.readers
    ensures r in t.readers && t.readers[r] == s.readers[r]
    decreases |actions|
  {
    hide Enabled, Apply;
    if actions != [] {
      ForeignStep(c, s, actions[0], r);
      ForeignRun(c, Apply(c, s, actions[0]), actions[1..], t, r);
    }
  }

  /** A lookup that hits is the whole of GetOrder. */
  lemma HitIsGetOrder(c: R.Caps, s: State, r: nat, uid: string, answer: CS.Answer, size: nat, others: seq<R.Op>)
    requires r !in s.readers && R.Find(s.entries, uid).Some?
    ensures
      var t, read := Apply(c, s, Lookup(r, uid)), CS.Read(c, s.entries, uid, answer, size, others);
      && t.entries == read.1 && t.readers == s.readers
      && read.0.Found? && t.answers == s.answers + [Hit(uid, read.0.order)]
  {
    hide R.AfterGet, R.AfterInsert, R.Run, GetOrder;
  }

  /**
   A lookup that misses, a fetch that finds nothing, and whatever others do in between, are GetOrder with that
   answer.
   */
  lemma NotFoundIsGetOrder(c: R.Caps, s: State, r: nat, uid: string, before: seq<Action>, u: State, size: nat)
    requires r !in s.readers && R.Find(s.entries, uid).None?
    requires Run(c, Apply(c, s, Lookup(r, uid)), before, u) && Foreign(before, r)
    requires GetOrder(u.db.committed, uid) == None
    ensures Enabled(u, Fetch(r))
    ensures
      var others := OpsOf(c, Apply(c, s, Lookup(r, uid)), before);
      var t, read := Apply(c, u, Fetch(r)), CS.Read(c, s.entries, uid, CS.NotFound, size, others);
      && t.entries == u.entries == read.1 && read.0 == CS.NotFound
      && exists stored :: t.answers == u.answers + [NotFound(uid, stored)]
  {
    hide R.AfterInsert, R.Run, OpsOf, Run, GetOrder, UidCommitted, Foreign;
    var missed := Apply(c, s, Lookup(r, uid));
    ForeignRun(c, missed, before, u, r);
    EntriesRun(c, missed, before, u);
  }

  /** The same when the fetch fails: the error is passed on, never as not-found, and nothing is cached. */
  lemma FetchErrorIsGetOrder(c: R.Caps, s: State, r: nat, uid: string, before: seq<Action>, u: State, size: nat)
    requires r !in s.readers && R.Find(s.entries, uid).None?
    requires Run(c, Apply(c, s, Lookup(r, uid)), before, u) && Foreign(before, r)
    ensures Enabled(u, FetchError(r))
    ensures
      var others := OpsOf(c, Apply(c, s, Lookup(r, uid)), before);
      var t, read := Apply(c, u, FetchError(r)), CS.Read(c, s.entries, uid, CS.Broken, size, others);
      && t.entries == u.entries == R.Run(c, s.entries, others)
      && t.entries == read.1 && read.0 == CS.Broken && t.answers == u.answers + [Broken(uid)]
  {
    hide R.AfterInsert, R.Run, OpsOf, Run, GetOrder, UidCommitted, Foreign;
    var missed := Apply(c, s, Lookup(r, uid));
    ForeignRun(c, missed, before, u, r);
    EntriesRun(c, missed, before, u);
  }

  /**
   A lookup that misses, a fetch of what the store answers, a fill, and whatever others do before and after
   the fetch, are GetOrder with that answer: the same order answered and the same cache left.
   */
  lemma LoadIsGetOrder(c: R.Caps, s: State, r: nat, uid: string, before: seq<Action>, u: State, o: Order,
      after: seq<Action>, v: State, size: nat)
    requires r !in s.readers && R.Find(s.entries, uid).None?
    requires Run(c, Apply(c, s, Lookup(r, uid)), before, u) && Foreign(before, r)
    requires GetOrder(u.db.committed, uid) == Some(o) && Enabled(u, Fetch(r))
    requires Run(c, Apply(c, u, Fetch(r)), after, v) && Foreign(after, r)
    ensures Enabled(v, Fill(r, size))
    ensures
      var others := OpsOf(c, Apply(c, s, Lookup(r, uid)), before) + OpsOf(c, Apply(c, u, Fetch(r)), after);
      var t, read := Apply(c, v, Fill(r, size)), CS.Read(c, s.entries, uid, CS.Found(o), size, others);
      && t.entries == read.1 && read.0 == CS.Found(o) && t.answers == v.answers + [Loaded(uid, o)]
  {
    hide R.AfterInsert, R.Run, OpsOf, Run, GetOrder, UidCommitted, Foreign;
    var missed, fetched := Apply(c, s, Lookup(r, uid)), Apply(c, u, Fetch(r));
    ForeignRun(c, missed, before, u, r);
    EntriesRun(c, missed, before, u);
    ForeignRun(c, fetched, after, v, r);
    EntriesRun(c, fetched, after, v);
    RunConcat(c, missed.entries, OpsOf(c, missed, before), OpsOf(c, fetched, after));
  }

  // ----- Preload -----

  /** The insertions of all rows, with these sizes. */
  function Insertions(sizes: seq<nat>): seq<Action> {
    seq(|sizes|, i requires 0 <= i < |sizes| => PreloadInsert(sizes[i]))
  }

  lemma {:induction false} InsertionOps(c: R.Caps, s: State, sizes: seq<nat>)
    requires |sizes| == |s.preload|
    ensures OpsOf(c, s, Insertions(sizes)) == RT.Inserts(s.preload, sizes)
    decreases |sizes|
  {
    hide R.AfterInsert, R.AfterGet, StoreTheorems.LatestRows;
    var actions := Insertions(sizes);
    if sizes != [] {
      assert actions[1..] == Insertions(sizes[1..]);
      InsertionOps(c, Apply(c, s, actions[0]), sizes[1..]);
      var rest := RT.Inserts(s.preload[1..], sizes[1..]);
      assert RT.Inserts(s.preload, sizes) == [R.Insert(s.preload[0], sizes[0])] + rest;
    }
  }

  /** Inserting all rows of the query leaves the cache that Preload's contract says. */
  lemma InsertionsArePreload(c: R.Caps, s: State, sizes: seq<nat>, t: State)
    requires |sizes| == |s.preload| && Run(c, s, Insertions(sizes), t)
    ensures t.entries == R.Run(c, s.entries, RT.Inserts(s.preload, sizes))
  {
    hide R.Run, Run, OpsOf, Insertions;
    InsertionOps(c, s, sizes);
    EntriesRun(c, s, Insertions(sizes), t);
  }
}
