/**
 The consumer working against the transactional store: every call of the service that gets past validation
 is a transaction of its own, its statements interleaved with those of the other workers' calls and of other
 writers. Every state this reaches is one that the consumer's step system reaches.
 */
module ConsumerStore {
  import opened Domain
  import Errors
  import Worker
  import P = Pipeline
  import PI = PipelineInv
  import PS = PipelineShutdown
  import PT = PipelineTheorems
  import T = Transactions
  import opened Service
  import opened StoreTheorems

  /** The consumer, the database, and the transaction of each call that has begun one. */
  datatype State = State(p: P.State, t: T.Db, calls: map<nat, nat>)

  /**
   A step of the consumer outside its calls; a call that fails or panics before its transaction; the begin of a
   worker's transaction; a statement of any transaction, or the begin of another writer's; the return of a
   call whose transaction is over, or a panic then.
   */
  datatype Action =
    | Consumer(a: P.Action)
    | FailEarly(w: nat, r: Worker.CallResult)
    | BeginCall(w: nat, tx: nat, now: int)
    | Statement(b: T.Action)
    | EndCall(w: nat, panicked: bool)

  predicate OutsideCalls(a: P.Action) {
    !a.StoreOrder? && !a.Return? && !a.StoreElsewhere?
  }

  /** A call fails before its transaction for a reason that is not the store's, or panics. */
  predicate BeforeStore(r: Worker.CallResult) {
    r.Panicked? || (r.Failed? && !Errors.Is(r.error, Errors.AlreadyExists))
  }

  predicate CallingAt(s: State, w: nat) {
    w < |s.p.workers| && s.p.workers[w].Calling?
  }

  predicate Enabled(c: P.Config, s: State, a: Action) {
    match a
    case Consumer(b) => OutsideCalls(b) && P.Enabled(c, s.p, b)
    case FailEarly(w, r) => CallingAt(s, w) && w !in s.calls && BeforeStore(r)
    case BeginCall(w, tx, now) =>
      && CallingAt(s, w) && w !in s.calls && s.p.workers[w].d.msg.decoded.Some?
      && T.Enabled(s.t, T.Begin(tx, s.p.workers[w].d.msg.decoded.value, now))
    case Statement(b) => T.Enabled(s.t, b)
    case EndCall(w, _) => CallingAt(s, w) && w in s.calls && s.calls[w] in s.t.reports
  }

  /** A commit that takes effect. */
  predicate TakesEffect(b: T.Action) {
    b.Commit? || (b.CommitError? && b.applied)
  }

  function Returned(p: P.State, w: nat, r: Worker.CallResult): P.State
    requires w < |p.workers| && p.workers[w].Calling?
  {
    p.(workers := p.workers[w := P.AfterReturn(p.workers[w].d, p.workers[w].results, r)])
  }

  /** The consumer's view when the order of a transaction becomes visible. */
  ghost function Published(s: State, tx: nat): P.State
    requires tx in s.t.open
  {
    var o := s.t.open[tx].order;
    if exists w :: w in s.calls && s.calls[w] == tx && CallingAt(s, w) then
      var w :| w in s.calls && s.calls[w] == tx && CallingAt(s, w);
      var q := s.p.workers[w];
      s.p.(db := s.p.db[o.orderUID := P.Row(o, Some(q.d))],
             workers := s.p.workers[w := P.Calling(q.d, q.results, true)])
    else s.p.(db := s.p.db[o.orderUID := P.Row(o, None)])
  }

  ghost function Apply(c: P.Config, s: State, a: Action): State
    requires Enabled(c, s, a)
  {
    match a
    case Consumer(b) => s.(p := P.Apply(c, s.p, b))
    case FailEarly(w, r) => s.(p := Returned(s.p, w, r))
    case BeginCall(w, tx, now) =>
      s.(t := T.Apply(s.t, T.Begin(tx, s.p.workers[w].d.msg.decoded.value, now)), calls := s.calls[w := tx])
    case Statement(b) =>
      s.(t := T.Apply(s.t, b), p := if TakesEffect(b) then Published(s, b.t) else s.p)
    case EndCall(w, panicked) =>
      var r := if panicked then Worker.Panicked else ResultOf(s.t.reports[s.calls[w]]);
      s.(p := Returned(s.p, w, r), calls := s.calls - {w})
  }

  ghost predicate Run(c: P.Config, s: State, actions: seq<Action>, t: State)
    decreases |actions|
  {
    if actions == [] then s == t else
      Enabled(c, s, actions[0]) && Run(c, Apply(c, s, actions[0]), actions[1..], t)
  }

  // ----- What every step keeps -----

  /** The consumer sees exactly the committed orders. */
  ghost predicate SameOrders(t: T.Db, db: map<string, P.Row>) {
    && SameUids(t, db)
    && forall id :: id in t.ledger && t.ledger[id].order.orderUID in db ==>
         db[t.ledger[id].order.orderUID].order == t.ledger[id].order
  }

  /** The transaction of a worker's call is for the worker's order, and is committed iff the worker has it so. */
  ghost predicate CallOk(t: T.Db, q: P.WorkerPhase, tx: nat) {
    && q.Calling? && tx in t.begun && q.d.msg.decoded == Some(t.begun[tx])
    && (q.stored <==> StoredBy(t, tx))
  }

  ghost predicate CallsOk(t: T.Db, workers: seq<P.WorkerPhase>, calls: map<nat, nat>) {
    && (forall w :: w in calls ==> w < |workers| && CallOk(t, workers[w], calls[w]))
    && (forall v, w :: v in calls && w in calls && calls[v] == calls[w] ==> v == w)
    && forall w :: 0 <= w < |workers| && w !in calls && workers[w].Calling? ==> !workers[w].stored
  }

  ghost predicate Joint(c: P.Config, s: State) {
    P.Reachable(c, s.p) && Whole(s.t) && SameOrders(s.t, s.p.db) && CallsOk(s.t, s.p.workers, s.calls)
  }

  lemma JointParts(c: P.Config, s: State)
    ensures Joint(c, s) <==>
            P.Reachable(c, s.p) && Whole(s.t) && SameOrders(s.t, s.p.db) && CallsOk(s.t, s.p.workers, s.calls)
  {
    hide P.Reachable, Whole, SameOrders, CallsOk;
  }

  lemma DbStays(c: P.Config, p: P.State, a: P.Action)
    requires P.Enabled(c, p, a) && ((PI.Outer(a) && !a.StoreElsewhere?) || a.PollMessage? || a.Enqueue?)
    ensures P.Apply(c, p, a).db == p.db
  {
    hide P.Enabled, P.HealthAfterStore;
  }

  /** A worker outside a call moves on, into a fresh call perhaps. */
  lemma WorkerMoves(c: P.Config, p: P.State, a: P.Action)
    requires P.Enabled(c, p, a)
    requires a.Take? || a.Handoff? || a.ExitCancelled? || a.ExitClosed? || a.Decode? || a.Wake? || a.Emit?
             || a.FinishMessage?
    ensures
      var q := P.Apply(c, p, a);
      && q.db == p.db && a.w < |p.workers| && !p.workers[a.w].Calling? && q.workers == p.workers[a.w := q.workers[a.w]]
      && (q.workers[a.w].Calling? ==> !q.workers[a.w].stored)
  {
    hide Worker.Effects, Worker.FateOf;
  }

  lemma OutsideKeeps(c: P.Config, p: P.State, a: P.Action)
    requires OutsideCalls(a) && P.Enabled(c, p, a)
    ensures
      var q := P.Apply(c, p, a);
      && q.db == p.db && |q.workers| == |p.workers|
      && (forall w :: 0 <= w < |p.workers| && p.workers[w].Calling? ==> q.workers[w] == p.workers[w])
      && forall w :: 0 <= w < |p.workers| && q.workers[w].Calling? ==>
                       q.workers[w] == p.workers[w] || !q.workers[w].stored
  {
    hide P.Enabled, P.Apply;
    if PI.Outer(a) || a.PollMessage? || a.Enqueue? {
      DbStays(c, p, a);
      PT.OthersSilent(c, p, a);
    } else {
      WorkerMoves(c, p, a);
    }
  }

  lemma ConsumerStep(c: P.Config, s: State, a: P.Action)
    requires Joint(c, s) && OutsideCalls(a) && P.Enabled(c, s.p, a)
    ensures Joint(c, s.(p := P.Apply(c, s.p, a)))
  {
    hide P.Reachable, Whole, SameOrders, P.Enabled, P.Apply, OutsideCalls, StoredBy;
    OutsideKeeps(c, s.p, a);
    var q := PS.Then(c, s.p, a);
  }

  lemma CallsAfterReturn(t: T.Db, workers: seq<P.WorkerPhase>, calls: map<nat, nat>, w: nat, q: P.WorkerPhase)
    requires CallsOk(t, workers, calls) && w < |workers| && !q.Calling?
    ensures CallsOk(t, workers[w := q], calls - {w})
  {
    hide CallOk;
  }

  /** A call returns with what the consumer's step system allows. */
  lemma ReturnStep(c: P.Config, s: State, w: nat, r: Worker.CallResult)
    requires Joint(c, s) && CallingAt(s, w) && P.MayReturn(s.p.db, s.p.workers[w].d, s.p.workers[w].stored, r)
    ensures Joint(c, s.(p := Returned(s.p, w, r), calls := s.calls - {w}))
  {
    hide P.Reachable, Whole, SameOrders, P.Enabled, P.Apply, P.MayReturn, P.AfterReturn, CallsOk;
    ReturnEnabled(c, s.p, w, r);
    ReturnLeaves(s.p.workers[w].d, s.p.workers[w].results, r);
    CallsAfterReturn(s.t, s.p.workers, s.calls, w, P.AfterReturn(s.p.workers[w].d, s.p.workers[w].results, r));
    var q := PS.Then(c, s.p, P.Return(w, r));
  }

  lemma ReturnEnabled(c: P.Config, p: P.State, w: nat, r: Worker.CallResult)
    requires w < |p.workers| && p.workers[w].Calling? && P.MayReturn(p.db, p.workers[w].d, p.workers[w].stored, r)
    ensures P.Enabled(c, p, P.Return(w, r)) && P.Apply(c, p, P.Return(w, r)) == Returned(p, w, r)
  {
    hide P.MayReturn, P.AfterReturn;
  }

  lemma ReturnLeaves(d: P.Job, results: seq<Worker.CallResult>, r: Worker.CallResult)
    ensures !P.AfterReturn(d, results, r).Calling?
  {
    hide Worker.Effects, Worker.IsTransient;
  }

  lemma EarlyAllowed(s: State, w: nat, r: Worker.CallResult)
    requires CallsOk(s.t, s.p.workers, s.calls) && CallingAt(s, w) && w !in s.calls && BeforeStore(r)
    ensures P.MayReturn(s.p.db, s.p.workers[w].d, s.p.workers[w].stored, r)
  {
    hide Errors.Is;
  }

  lemma EndAllowed(c: P.Config, s: State, w: nat)
    requires Joint(c, s) && CallingAt(s, w) && w in s.calls && s.calls[w] in s.t.reports
    ensures P.MayReturn(s.p.db, s.p.workers[w].d, s.p.workers[w].stored, ResultOf(s.t.reports[s.calls[w]]))
  {
    hide P.Reachable, Whole, P.MayReturn, ResultOf, SameUids;
    ReportReturnsAsAssumed(s.t, s.calls[w], s.p.workers[w].d, s.p.db);
  }

  /** Steps of the database that commit nothing leave every call as it is. */
  lemma QuietStep(c: P.Config, s: State, t: T.Db)
    requires Joint(c, s) && Whole(t) && Extends(s.t, t) && t.ledger == s.t.ledger
    ensures Joint(c, s.(t := t))
  {
    hide P.Reachable, Whole;
    assert forall tx :: StoredBy(t, tx) == StoredBy(s.t, tx);
    forall w | w in s.calls ensures CallOk(t, s.p.workers[w], s.calls[w]) {
      assert CallOk(s.t, s.p.workers[w], s.calls[w]);
    }
  }

  lemma NewTransaction(t: T.Db, tx: nat)
    requires Whole(t) && tx !in t.open && tx !in t.reports
    ensures tx !in t.begun && !StoredBy(t, tx)
  {
    hide T.Inv, Truthful;
  }

  lemma BeginStep(c: P.Config, s: State, w: nat, tx: nat, now: int)
    requires Joint(c, s) && Enabled(c, s, BeginCall(w, tx, now))
    ensures Joint(c, Apply(c, s, BeginCall(w, tx, now)))
  {
    hide P.Reachable, Whole, StoredBy, Extends, SameOrders;
    var o := s.p.workers[w].d.msg.decoded.value;
    var t := T.Apply(s.t, T.Begin(tx, o, now));
    NewTransaction(s.t, tx);
    DbStep(s.t, T.Begin(tx, o, now));
    QuietStep(c, s, t);
    StoredSame(s.t, t, tx);
  }

  lemma StoredSame(s: T.Db, t: T.Db, tx: nat)
    requires s.ledger == t.ledger
    ensures StoredBy(s, tx) == StoredBy(t, tx)
  {
  }

  lemma DbStep(t: T.Db, b: T.Action)
    requires Whole(t) && T.Enabled(t, b)
    ensures Whole(T.Apply(t, b)) && Extends(t, T.Apply(t, b))
    ensures !TakesEffect(b) ==> T.Apply(t, b).ledger == t.ledger
  {
    hide T.Inv, Accounted, Truthful, T.Enabled, T.Apply, Extends;
    WholeStep(t, b);
    StepExtends(t, b);
  }

  /** What a commit that takes effect does to the record: one new receipt under a uid that was free. */
  lemma CommitRecords(t: T.Db, b: T.Action)
    requires Whole(t) && T.Enabled(t, b) && TakesEffect(b)
    ensures b.t in t.open && b.t in t.begun && t.open[b.t].order == t.begun[b.t] && !StoredBy(t, b.t)
    ensures
      var tx := t.open[b.t];
      && tx.orderId !in t.ledger
      && T.Apply(t, b).ledger == t.ledger[tx.orderId := T.Receipt(tx.order, tx.itemIds, tx.now, b.t)]
      && forall id :: id in t.ledger ==> t.ledger[id].order.orderUID != tx.order.orderUID
  {
    hide T.Inv, Accounted, Truthful, T.Merge, StoredBy;
    OpenOwned(t, b.t);
    OrderIdFresh(t, b.t);
    UidFree(t, b.t);
  }

  lemma OpenOwned(t: T.Db, tx: nat)
    requires Accounted(t) && tx in t.open
    ensures tx in t.begun && t.open[tx].order == t.begun[tx] && !StoredBy(t, tx)
  {
  }

  lemma UidFree(t: T.Db, tx: nat)
    requires T.Inv(t) && tx in t.open && t.open[tx].done > 0
    ensures forall id :: id in t.ledger ==> t.ledger[id].order.orderUID != t.open[tx].order.orderUID
  {
    hide T.RowsDone, T.Apart, T.Sound;
    assert T.IdsDrawn(t, t.open[tx]);
    forall id | id in t.ledger ensures t.ledger[id].order.orderUID != t.open[tx].order.orderUID {
      UidOf(t, id);
    }
  }

  lemma OrdersGrow(t: T.Db, t': T.Db, db: map<string, P.Row>, id: nat, r: T.Receipt, row: P.Row)
    requires SameOrders(t, db) && t'.ledger == t.ledger[id := r] && id !in t.ledger && row.order == r.order
    requires forall i :: i in t.ledger ==> t.ledger[i].order.orderUID != r.order.orderUID
    ensures r.order.orderUID !in db && SameOrders(t', db[r.order.orderUID := row])
  {
    var db' := db[r.order.orderUID := row];
    forall uid ensures uid in db' <==> exists i :: i in t'.ledger && t'.ledger[i].order.orderUID == uid {
      if uid in db {
        var i :| i in t.ledger && t.ledger[i].order.orderUID == uid;
        assert t'.ledger[i].order.orderUID == uid;
      } else if uid == r.order.orderUID {
        assert t'.ledger[id].order.orderUID == uid;
      }
    }
  }

  /** A new receipt concerns only its own transaction. */
  lemma StoredGrows(t: T.Db, t': T.Db, id: nat, r: T.Receipt, tx: nat)
    requires t'.ledger == t.ledger[id := r] && id !in t.ledger
    ensures StoredBy(t', tx) <==> StoredBy(t, tx) || tx == r.tx
  {
    if StoredBy(t, tx) {
      var i :| i in t.ledger && t.ledger[i].tx == tx;
      assert t'.ledger[i].tx == tx;
    }
    if tx == r.tx { assert t'.ledger[id].tx == tx; }
  }

  /** The calls after a commit, whether a worker's or another writer's. */
  lemma CallsAfterCommit(t: T.Db, t': T.Db, id: nat, r: T.Receipt, workers: seq<P.WorkerPhase>,
      workers': seq<P.WorkerPhase>, calls: map<nat, nat>)
    requires CallsOk(t, workers, calls) && Extends(t, t') && t'.ledger == t.ledger[id := r] && id !in t.ledger
    requires |workers'| == |workers|
    requires forall v :: v in calls && calls[v] == r.tx && workers[v].Calling? ==>
               workers'[v] == P.Calling(workers[v].d, workers[v].results, true)
    requires forall v :: 0 <= v < |workers| && (v !in calls || calls[v] != r.tx) ==> workers'[v] == workers[v]
    ensures CallsOk(t', workers', calls)
  {
    hide StoredBy, Extends;
    forall v | v in calls ensures v < |workers'| && CallOk(t', workers'[v], calls[v]) {
      assert CallOk(t, workers[v], calls[v]);
      StoredGrows(t, t', id, r, calls[v]);
      ExtendsBegun(t, t', calls[v]);
    }
  }

  lemma WorkerEnabled(c: P.Config, s: State, w: nat, tx: nat)
    requires CallsOk(s.t, s.p.workers, s.calls) && CallingAt(s, w) && w in s.calls && s.calls[w] == tx
    requires tx in s.t.open && tx in s.t.begun && s.t.open[tx].order == s.t.begun[tx] && !StoredBy(s.t, tx)
    requires s.t.open[tx].order.orderUID !in s.p.db
    ensures P.Enabled(c, s.p, P.StoreOrder(w)) && P.Apply(c, s.p, P.StoreOrder(w)) == Published(s, tx)
  {
    hide StoredBy, Published, P.MayReturn;
    assert CallOk(s.t, s.p.workers[w], tx);
    PublishedByWorker(s, w, tx);
  }

  lemma CommitByWorker(c: P.Config, s: State, w: nat, b: T.Action)
    requires Joint(c, s) && T.Enabled(s.t, b) && TakesEffect(b) && w in s.calls && s.calls[w] == b.t && CallingAt(s, w)
    ensures P.Enabled(c, s.p, P.StoreOrder(w)) && b.t in s.t.open
    ensures P.Apply(c, s.p, P.StoreOrder(w)) == Published(s, b.t)
    ensures Joint(c, s.(t := T.Apply(s.t, b), p := Published(s, b.t)))
  {
    hide Joint, P.Reachable, Whole, StoredBy, Extends, SameOrders, T.Apply, T.Enabled, P.Enabled, P.Apply, Published,
      CallsOk;
    JointParts(c, s);
    CommitRecords(s.t, b);
    JointParts(c, s.(t := T.Apply(s.t, b), p := Published(s, b.t)));
    var q := s.p.workers[w];
    DbStep(s.t, b);
    var tx := s.t.open[b.t];
    var t, r := T.Apply(s.t, b), T.Receipt(tx.order, tx.itemIds, tx.now, b.t);
    OrdersGrow(s.t, t, s.p.db, tx.orderId, r, P.Row(tx.order, Some(q.d)));
    WorkerEnabled(c, s, w, b.t);
    PublishedByWorker(s, w, b.t);
    var p := PS.Then(c, s.p, P.StoreOrder(w));
    OneCaller(s, w);
    CallsAfterCommit(s.t, t, tx.orderId, r, s.p.workers, p.workers, s.calls);
  }

  lemma OneCaller(s: State, w: nat)
    requires CallsOk(s.t, s.p.workers, s.calls) && w in s.calls
    ensures forall v :: v in s.calls && s.calls[v] == s.calls[w] ==> v == w
  {
    hide CallOk;
  }

  lemma ExtendsBegun(t: T.Db, t': T.Db, tx: nat)
    requires Extends(t, t') && tx in t.begun
    ensures tx in t'.begun && t'.begun[tx] == t.begun[tx]
  {
  }

  lemma StatementIs(c: P.Config, s: State, b: T.Action)
    requires Enabled(c, s, Statement(b)) && (TakesEffect(b) ==> b.t in s.t.open)
    ensures
      var p := if TakesEffect(b) then Published(s, b.t) else s.p;
      Apply(c, s, Statement(b)) == s.(t := T.Apply(s.t, b), p := p)
  {
  }

  lemma PublishedByWorker(s: State, w: nat, tx: nat)
    requires tx in s.t.open && CallsOk(s.t, s.p.workers, s.calls) && w in s.calls && s.calls[w] == tx && CallingAt(s, w)
    ensures
      var o, q := s.t.open[tx].order, s.p.workers[w];
      Published(s, tx) ==
      s.p.(db := s.p.db[o.orderUID := P.Row(o, Some(q.d))],
             workers := s.p.workers[w := P.Calling(q.d, q.results, true)])
  {
    hide CallOk;
  }

  lemma PublishedByOther(s: State, tx: nat)
    requires tx in s.t.open && forall w :: w in s.calls && CallingAt(s, w) ==> s.calls[w] != tx
    ensures
      var o := s.t.open[tx].order;
      Published(s, tx) == s.p.(db := s.p.db[o.orderUID := P.Row(o, None)])
  {
  }

  lemma OtherEnabled(c: P.Config, p: P.State, o: Order)
    requires o.orderUID !in p.db
    ensures P.Enabled(c, p, P.StoreElsewhere(o))
    ensures P.Apply(c, p, P.StoreElsewhere(o)) == p.(db := p.db[o.orderUID := P.Row(o, None)])
  {
  }

  lemma CommitByOther(c: P.Config, s: State, b: T.Action)
    requires Joint(c, s) && T.Enabled(s.t, b) && TakesEffect(b)
    requires forall w :: w in s.calls && CallingAt(s, w) ==> s.calls[w] != b.t
    ensures b.t in s.t.open && Joint(c, s.(t := T.Apply(s.t, b), p := Published(s, b.t)))
  {
    hide Joint, P.Reachable, Whole, StoredBy, Extends, SameOrders, T.Apply, T.Enabled, P.Enabled, P.Apply, Published,
      CallsOk;
    JointParts(c, s);
    CommitRecords(s.t, b);
    JointParts(c, s.(t := T.Apply(s.t, b), p := Published(s, b.t)));
    DbStep(s.t, b);
    var tx := s.t.open[b.t];
    var t, r := T.Apply(s.t, b), T.Receipt(tx.order, tx.itemIds, tx.now, b.t);
    OrdersGrow(s.t, t, s.p.db, tx.orderId, r, P.Row(tx.order, None));
    PublishedByOther(s, b.t);
    OtherEnabled(c, s.p, tx.order);
    var p := PS.Then(c, s.p, P.StoreElsewhere(tx.order));
    AllCalling(s);
    CallsAfterCommit(s.t, t, tx.orderId, r, s.p.workers, p.workers, s.calls);
  }

  lemma AllCalling(s: State)
    requires CallsOk(s.t, s.p.workers, s.calls)
    ensures forall w :: w in s.calls ==> CallingAt(s, w)
  {
    hide StoredBy;
  }

  lemma QuietStatement(c: P.Config, s: State, b: T.Action)
    requires Joint(c, s) && T.Enabled(s.t, b) && !TakesEffect(b)
    ensures Joint(c, s.(t := T.Apply(s.t, b)))
  {
    hide Joint, Whole, Extends, T.Apply, T.Enabled, TakesEffect;
    JointParts(c, s);
    DbStep(s.t, b);
    QuietStep(c, s, T.Apply(s.t, b));
  }

  lemma JointStep(c: P.Config, s: State, a: Action)
    requires Joint(c, s) && Enabled(c, s, a)
    ensures Joint(c, Apply(c, s, a))
  {
    hide Joint, P.Enabled, P.Apply, T.Enabled, T.Apply, Published, P.MayReturn, CallsOk, ResultOf, BeforeStore;
    JointParts(c, s);
    match a
    case Consumer(b) => ConsumerStep(c, s, b);
    case FailEarly(w, r) =>
      EarlyAllowed(s, w, r);
      ReturnStep(c, s, w, r);
      assert s.calls - {w} == s.calls;
    case BeginCall(w, tx, now) => BeginStep(c, s, w, tx, now);
    case Statement(b) =>
      if !TakesEffect(b) {
        QuietStatement(c, s, b);
        StatementIs(c, s, b);
      } else if w :| w in s.calls && s.calls[w] == b.t && CallingAt(s, w) {
        CommitByWorker(c, s, w, b);
        StatementIs(c, s, b);
      } else {
        CommitByOther(c, s, b);
        StatementIs(c, s, b);
      }
    case EndCall(w, panicked) =>
      EndAllowed(c, s, w);
      PanicAllowed(s, w);
      ReturnStep(c, s, w, if panicked then Worker.Panicked else ResultOf(s.t.reports[s.calls[w]]));
  }

  lemma PanicAllowed(s: State, w: nat)
    requires CallingAt(s, w)
    ensures P.MayReturn(s.p.db, s.p.workers[w].d, s.p.workers[w].stored, Worker.Panicked)
  {
  }

  lemma {:induction false} JointRun(c: P.Config, s: State, actions: seq<Action>, t: State)
    requires Joint(c, s) && Run(c, s, actions, t)
    ensures Joint(c, t)
    decreases |actions|
  {
    hide Joint, Enabled, Apply;
    if actions != [] {
      JointStep(c, s, actions[0]);
      JointRun(c, Apply(c, s, actions[0]), actions[1..], t);
    }
  }

  /** The consumer starts beside a database with any history. */
  ghost predicate Begins(c: P.Config, s: State) {
    && Whole(s.t) && s.calls == map[]
    && exists healthy, db :: P.Earlier(db) && SameOrders(s.t, db) && s.p == P.Start(c, healthy, db)
  }

  /**
   The consumer against the real store is the consumer of the step system. Whatever the workers' transactions,
   other writers and the database do, every state of the consumer is reachable in the step system, and the
   orders it takes for stored are exactly those committed, under any interleaving of statements.
   */
  lemma StoreIsAsAssumed(c: P.Config, s: State, actions: seq<Action>, t: State)
    requires Begins(c, s) && Run(c, s, actions, t)
    ensures P.Reachable(c, t.p)
    ensures forall uid :: uid in t.p.db <==> exists id :: id in t.t.ledger && t.t.ledger[id].order.orderUID == uid
    ensures forall id :: id in t.t.ledger && t.t.ledger[id].order.orderUID in t.p.db ==>
              t.p.db[t.t.ledger[id].order.orderUID].order == t.t.ledger[id].order
  {
    hide P.Reachable, Run, Whole, Joint;
    StartJoint(c, s);
    JointRun(c, s, actions, t);
    JointParts(c, t);
  }

  lemma StartJoint(c: P.Config, s: State)
    requires Begins(c, s)
    ensures Joint(c, s)
  {
    hide P.Reachable, Whole, SameOrders, CallOk;
    var healthy, db :| P.Earlier(db) && SameOrders(s.t, db) && s.p == P.Start(c, healthy, db);
    PS.StartReachable(c, healthy, db);
  }
}
