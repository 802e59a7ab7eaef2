/**
 DBStore of internal/store/store.go, running its statements one by one on a database that other
 transactions use at the same time.
 */
module Store {
  import opened Domain
  import opened Queries
  import opened Transactions
  import opened StoreTheorems

  /**
   What happens just before a statement: steps of other transactions, and then perhaps a fault. A
   fault in a commit comes after or before the commit took effect, as applied says.
   */
  datatype Weather = Weather(others: seq<Action>, fault: Fault, applied: bool)

  datatype Fault = NoFault | ConnectionLost | Rejected

  function FaultReport(f: Fault): Report
    requires f != NoFault
  {
    if f == ConnectionLost then ConnectionFailed else Other
  }

  predicate Mine(a: Action, t: nat) {
    !a.BurnIds? && a.t == t
  }

  /** The steps of a trace that belong to transaction t. */
  ghost function Own(trace: seq<Action>, t: nat): seq<Action> {
    if trace == [] then [] else
      var init := Own(trace[..|trace| - 1], t);
      if Mine(trace[|trace| - 1], t) then init + [trace[|trace| - 1]] else init
  }

  /** The statements Insert issues for an order, in sequence. */
  ghost function Script(t: nat, o: Order, now: int): seq<Action> {
    [Begin(t, o, now), InsertOrder(t), InsertDelivery(t), InsertPayment(t)] + seq(|o.items|, _ => InsertItem(t))
  }

  /** Since base, transaction t has issued the first p statements of a script. */
  ghost predicate Issued(trace: seq<Action>, t: nat, base: seq<Action>, script: seq<Action>, p: nat) {
    p <= |script| && Own(trace, t) == base + script[..p]
  }

  /** Since base, transaction t has issued the first p statements of a script and then last. */
  ghost predicate Ended(trace: seq<Action>, t: nat, base: seq<Action>, script: seq<Action>, p: nat, last: Action) {
    p <= |script| && Own(trace, t) == base + script[..p] + [last]
  }

  lemma OwnGrows(trace: seq<Action>, a: Action, t: nat)
    ensures Own(trace + [a], t) == Own(trace, t) + if Mine(a, t) then [a] else []
  {
    assert (trace + [a])[..|trace|] == trace;
  }

  lemma IssuedGrows(trace: seq<Action>, t: nat, base: seq<Action>, script: seq<Action>, p: nat, a: Action)
    requires Issued(trace, t, base, script, p) && Mine(a, t)
    ensures Ended(trace + [a], t, base, script, p, a)
    ensures p < |script| && script[p] == a ==> Issued(trace + [a], t, base, script, p + 1)
  {
    OwnGrows(trace, a, t);
    if p < |script| {
      assert script[..p + 1] == script[..p] + [script[p]];
    }
  }

  lemma ScriptAt(t: nat, o: Order, now: int, p: nat)
    ensures |Script(t, o, now)| == 4 + |o.items|
    ensures p < 4 ==> Script(t, o, now)[p] == [Begin(t, o, now), InsertOrder(t), InsertDelivery(t), InsertPayment(t)][p]
    ensures 4 <= p < 4 + |o.items| ==> Script(t, o, now)[p] == InsertItem(t)
  {
  }

  lemma RunGrows(s: Db, trace: seq<Action>, a: Action)
    requires Runs(s, trace) && Enabled(After(s, trace), a)
    ensures Runs(s, trace + [a]) && After(s, trace + [a]) == Apply(After(s, trace), a)
  {
    assert (trace + [a])[..|trace|] == trace;
  }

  /** The steps of others leave a transaction as it is. */
  lemma OthersLeave(s: Db, a: Action, t: nat)
    requires Enabled(s, a) && !Mine(a, t)
    ensures t in Apply(s, a).open <==> t in s.open
    ensures t in s.open ==> Apply(s, a).open[t] == s.open[t]
    ensures t in Apply(s, a).reports <==> t in s.reports
    ensures t in s.reports ==> Apply(s, a).reports[t] == s.reports[t]
    ensures t in s.begun ==> t in Apply(s, a).begun && Apply(s, a).begun[t] == s.begun[t]
  {
    hide UidTaken, UidLocked, Merge, OrdersValues, ItemsValues, PaymentsValues, DeliveriesValues;
  }

  /** Steps taken one after the other, those that cannot be taken left out. */
  ghost function Taking(db: Db, steps: seq<Action>): Db {
    if steps == [] then db else
      var d := Taking(db, steps[..|steps| - 1]);
      if Enabled(d, steps[|steps| - 1]) then Apply(d, steps[|steps| - 1]) else d
  }

  /** The database server and the record of what was done on it since start. */
  class Server {
    var db: Db
    ghost var start: Db
    ghost var trace: seq<Action>

    ghost predicate Valid()
      reads this
    {
      Runs(start, trace) && db == After(start, trace)
    }

    constructor ()
      ensures Valid() && db == start == EMPTY && trace == []
    {
      db := EMPTY;
      start := EMPTY;
      trace := [];
    }

    /** One statement takes effect. */
    method Do(a: Action)
      requires Valid() && Enabled(db, a)
      modifies `db, `trace
      ensures Valid() && db == Apply(old(db), a) && trace == old(trace) + [a]
    {
      hide Enabled, Apply, Runs;
      RunGrows(start, trace, a);
      db := Apply(db, a);
      trace := trace + [a];
    }

    /** Other transactions move on; a step that cannot be taken now is not taken. */
    method Others(steps: seq<Action>, ghost t: nat)
      requires Valid() && forall a :: a in steps ==> !Mine(a, t)
      modifies `db, `trace
      ensures Valid() && Own(trace, t) == Own(old(trace), t) && db == Taking(old(db), steps)
      ensures t in db.open <==> t in old(db.open)
      ensures t in db.open ==> db.open[t] == old(db.open[t])
      ensures t in db.reports <==> t in old(db.reports)
      ensures t in db.reports ==> db.reports[t] == old(db.reports[t])
      ensures t in old(db.begun) ==> t in db.begun && db.begun[t] == old(db.begun[t])
    {
      hide Enabled, Apply, Runs, Mine;
      for i := 0 to |steps|
        invariant Valid() && Own(trace, t) == Own(old(trace), t) && db == Taking(old(db), steps[..i])
        invariant t in db.open <==> t in old(db.open)
        invariant t in db.open ==> db.open[t] == old(db.open[t])
        invariant t in db.reports <==> t in old(db.reports)
        invariant t in db.reports ==> db.reports[t] == old(db.reports[t])
        invariant t in old(db.begun) ==> t in db.begun && db.begun[t] == old(db.begun[t])
      {
        assert steps[..i + 1][..i] == steps[..i];
        if Enabled(db, steps[i]) {
          assert steps[i] in steps;
          OthersLeave(db, steps[i], t);
          OwnGrows(trace, steps[i], t);
          Do(steps[i]);
        }
      }
      assert steps[..|steps|] == steps;
    }
  }

  /** Transaction t is open with order o, begun at time now, and has done that many statements. */
  ghost predicate Doing(db: Db, t: nat, o: Order, now: int, done: nat) {
    && t in db.open && db.open[t].order == o && db.open[t].now == now && db.open[t].done == done
    && t in db.begun && db.begun[t] == o
  }

  /** Transaction t for order o is over and reported r. */
  ghost predicate Over(db: Db, t: nat, o: Order, r: Report) {
    t !in db.open && t in db.reports && db.reports[t] == r && t in db.begun && db.begun[t] == o
  }

  /** Transaction t committed this order with this time. */
  ghost predicate CommittedAt(db: Db, t: nat, o: Order, now: int) {
    exists id :: id in db.ledger && db.ledger[id].tx == t && db.ledger[id].order == o && db.ledger[id].now == now
  }

  /** The statement that takes a transaction with that many statements done one further. */
  predicate IsNext(a: Action, t: nat, done: nat, n: nat) {
    match a
    case InsertDelivery(u) => u == t && done == 1
    case InsertPayment(u) => u == t && done == 2
    case InsertItem(u) => u == t && 3 <= done < 3 + n
    case _ => false
  }

  lemma NextAdvances(db: Db, a: Action, t: nat, o: Order, now: int, done: nat)
    requires Doing(db, t, o, now, done) && IsNext(a, t, done, |o.items|)
    ensures Enabled(db, a) && Doing(Apply(db, a), t, o, now, done + 1) && Mine(a, t)
  {
    hide OrdersValues, ItemsValues, PaymentsValues, DeliveriesValues;
  }

  lemma FailCloses(db: Db, t: nat, o: Order, now: int, done: nat, r: Report)
    requires Doing(db, t, o, now, done) && (r == ConnectionFailed || r == Other)
    ensures Enabled(db, Fail(t, r)) && Over(Apply(db, Fail(t, r)), t, o, r) && Mine(Fail(t, r), t)
    ensures Apply(db, Fail(t, r)).ledger == db.ledger
  {
  }

  /** What the first statement finds: the uid held by an open transaction, taken, or free. */
  lemma OrderCases(db: Db, t: nat, o: Order, now: int)
    requires Doing(db, t, o, now, 0) && !UidLocked(db, t, o.orderUID)
    ensures UidTaken(db.committed, o.orderUID) ==>
              Enabled(db, RejectDuplicate(t)) && Over(Apply(db, RejectDuplicate(t)), t, o, AlreadyExists)
    ensures !UidTaken(db.committed, o.orderUID) ==>
              Enabled(db, InsertOrder(t)) && Doing(Apply(db, InsertOrder(t)), t, o, now, 1)
    ensures Mine(RejectDuplicate(t), t) && Mine(InsertOrder(t), t)
    ensures Apply(db, RejectDuplicate(t)).ledger == db.ledger
  {
    hide OrdersValues, UidTaken, UidLocked;
  }

  lemma CommitCloses(db: Db, t: nat, o: Order, now: int, applied: bool)
    requires Doing(db, t, o, now, 3 + |o.items|)
    ensures Enabled(db, Commit(t)) && Over(Apply(db, Commit(t)), t, o, Stored) && Mine(Commit(t), t)
    ensures Enabled(db, CommitError(t, applied)) && Mine(CommitError(t, applied), t)
    ensures Over(Apply(db, CommitError(t, applied)), t, o, Other)
  {
    hide Merge;
  }

  /** A commit that takes effect is on record; one that does not leaves no trace. */
  lemma CommitLeaves(db: Db, t: nat, o: Order, now: int)
    requires Doing(db, t, o, now, 3 + |o.items|)
    ensures CommittedAt(Apply(db, Commit(t)), t, o, now) && CommittedAt(Apply(db, CommitError(t, true)), t, o, now)
    ensures Apply(db, CommitError(t, false)).ledger == db.ledger
  {
    hide Merge;
    var id := db.open[t].orderId;
    assert Apply(db, Commit(t)).ledger[id].tx == t && Apply(db, CommitError(t, true)).ledger[id].tx == t;
  }

  lemma CommittedIsStored(db: Db, t: nat, o: Order, now: int)
    requires CommittedAt(db, t, o, now)
    ensures StoredBy(db, t)
  {
  }

  /** A transaction that is still open has stored nothing. */
  lemma NotYetStored(start: Db, trace: seq<Action>, t: nat, after: Db)
    requires Runs(start, trace) && t in After(start, trace).open && after.ledger == After(start, trace).ledger
    ensures Whole(start) ==> !StoredBy(after, t)
  {
    hide Runs, After, Inv, Truthful;
    if Whole(start) { WholeRun(start, trace); }
  }

  lemma DoingIsOpen(db: Db, t: nat, o: Order, now: int, done: nat)
    requires Doing(db, t, o, now, done)
    ensures t in db.open
  {
  }

  /** tx.ExecContext and its error branch: it fails iff there is a fault, which decides the report. */
  method Exec(s: Server, t: nat, a: Action, w: Weather, ghost o: Order, ghost now: int, ghost base: seq<Action>,
      ghost script: seq<Action>, ghost p: nat)
    returns (fault: Option<Report>)
    requires s.Valid() && p > 0 && Doing(s.db, t, o, now, p - 1) && IsNext(a, t, p - 1, |o.items|)
    requires Issued(s.trace, t, base, script, p) && p < |script| && script[p] == a
    requires forall b :: b in w.others ==> !Mine(b, t)
    modifies s`db, s`trace
    ensures s.Valid()
    ensures fault.None? <==> w.fault == NoFault
    ensures w.fault == ConnectionLost ==> fault == Some(ConnectionFailed)
    ensures w.fault == Rejected ==> fault == Some(Other)
    ensures fault.None? ==> Doing(s.db, t, o, now, p) && Issued(s.trace, t, base, script, p + 1)
    ensures fault.Some? ==>
              && Over(s.db, t, o, fault.value) && (Whole(s.start) ==> !StoredBy(s.db, t))
              && Ended(s.trace, t, base, script, p, Fail(t, fault.value))
  {
    s.Others(w.others, t);
    assert Doing(s.db, t, o, now, p - 1) && Issued(s.trace, t, base, script, p);
    hide Doing, Over, IsNext, Enabled, Apply, Runs, Mine, Issued, Ended, Own, Whole, StoredBy, Taking;
    if w.fault != NoFault {
      var r := FaultReport(w.fault);
      FailCloses(s.db, t, o, now, p - 1, r);
      IssuedGrows(s.trace, t, base, script, p, Fail(t, r));
      DoingIsOpen(s.db, t, o, now, p - 1);
      NotYetStored(s.start, s.trace, t, Apply(s.db, Fail(t, r)));
      s.Do(Fail(t, r));
      return Some(r);
    }
    NextAdvances(s.db, a, t, o, now, p - 1);
    IssuedGrows(s.trace, t, base, script, p, a);
    s.Do(a);
    return None;
  }

  /** No open transaction but t holds the uid, and no committed order has it. */
  ghost predicate Free(db: Db, t: nat, uid: string) {
    !UidLocked(db, t, uid) && !UidTaken(db.committed, uid)
  }

  /** The insert into orders succeeds iff there is no fault and the uid is neither locked nor taken. */
  ghost predicate OrderPasses(at: Db, t: nat, o: Order, fault: Fault) {
    fault == NoFault && Free(at, t, o.orderUID)
  }

  /**
   The insert into orders: a uid still locked by an open transaction makes it wait until its context
   ends, a taken uid is a unique violation. at is the database as the statement finds it.
   */
  method ExecOrder(s: Server, t: nat, o: Order, w: Weather, ghost now: int, ghost base: seq<Action>,
      ghost script: seq<Action>)
    returns (fault: Option<Report>, ghost at: Db)
    requires s.Valid() && Doing(s.db, t, o, now, 0)
    requires Issued(s.trace, t, base, script, 1) && 1 < |script| && script[1] == InsertOrder(t)
    requires forall b :: b in w.others ==> !Mine(b, t)
    modifies s`db, s`trace
    ensures s.Valid() && at == Taking(old(s.db), w.others)
    ensures fault.None? <==> OrderPasses(at, t, o, w.fault)
    ensures w.fault == ConnectionLost ==> fault == Some(ConnectionFailed)
    ensures w.fault == Rejected ==> fault == Some(Other)
    ensures w.fault == NoFault && UidLocked(at, t, o.orderUID) ==> fault == Some(ConnectionFailed)
    ensures w.fault == NoFault && !UidLocked(at, t, o.orderUID) && UidTaken(at.committed, o.orderUID) ==>
              fault == Some(AlreadyExists)
    ensures fault.None? ==> Doing(s.db, t, o, now, 1) && Issued(s.trace, t, base, script, 2)
    ensures fault.Some? ==>
              && Over(s.db, t, o, fault.value) && (Whole(s.start) ==> !StoredBy(s.db, t))
              && Ended(s.trace, t, base, script, 1,
                       if fault.value == AlreadyExists then RejectDuplicate(t) else Fail(t, fault.value))
  {
    s.Others(w.others, t);
    at := s.db;
    assert Doing(s.db, t, o, now, 0) && Issued(s.trace, t, base, script, 1);
    hide Doing, Over, Enabled, Apply, Runs, Mine, UidTaken, UidLocked, Issued, Ended, Own, Whole, StoredBy, Taking;
    DoingIsOpen(s.db, t, o, now, 0);
    if w.fault != NoFault || UidLocked(s.db, t, o.orderUID) {
      var r := if w.fault != NoFault then FaultReport(w.fault) else ConnectionFailed;
      FailCloses(s.db, t, o, now, 0, r);
      IssuedGrows(s.trace, t, base, script, 1, Fail(t, r));
      NotYetStored(s.start, s.trace, t, Apply(s.db, Fail(t, r)));
      s.Do(Fail(t, r));
      return Some(r), at;
    }
    OrderCases(s.db, t, o, now);
    if UidTaken(s.db.committed, o.orderUID) {
      IssuedGrows(s.trace, t, base, script, 1, RejectDuplicate(t));
      NotYetStored(s.start, s.trace, t, Apply(s.db, RejectDuplicate(t)));
      s.Do(RejectDuplicate(t));
      return Some(AlreadyExists), at;
    }
    IssuedGrows(s.trace, t, base, script, 1, InsertOrder(t));
    s.Do(InsertOrder(t));
    return None, at;
  }

  /** tx.Commit, whose error is passed on unmapped. */
  method ExecCommit(s: Server, t: nat, o: Order, w: Weather, ghost now: int, ghost base: seq<Action>,
      ghost script: seq<Action>)
    returns (r: Report)
    requires s.Valid() && Doing(s.db, t, o, now, 3 + |o.items|) && Issued(s.trace, t, base, script, |script|)
    requires forall b :: b in w.others ==> !Mine(b, t)
    modifies s`db, s`trace
    ensures s.Valid() && Over(s.db, t, o, r)
    ensures r == if w.fault == NoFault then Stored else Other
    ensures w.fault == NoFault || w.applied ==> CommittedAt(s.db, t, o, now)
    ensures w.fault != NoFault && !w.applied && Whole(s.start) ==> !StoredBy(s.db, t)
    ensures Ended(s.trace, t, base, script, |script|, if r == Stored then Commit(t) else CommitError(t, w.applied))
  {
    s.Others(w.others, t);
    assert Doing(s.db, t, o, now, 3 + |o.items|) && Issued(s.trace, t, base, script, |script|);
    hide Doing, Over, Enabled, Apply, Runs, Mine, Issued, Ended, Own, Whole, StoredBy, CommittedAt, Taking;
    CommitCloses(s.db, t, o, now, w.applied);
    CommitLeaves(s.db, t, o, now);
    DoingIsOpen(s.db, t, o, now, 3 + |o.items|);
    var a := if w.fault == NoFault then Commit(t) else CommitError(t, w.applied);
    IssuedGrows(s.trace, t, base, script, |script|, a);
    if w.fault != NoFault && !w.applied {
      NotYetStored(s.start, s.trace, t, Apply(s.db, a));
    }
    s.Do(a);
    r := if w.fault == NoFault then Stored else Other;
  }

  /** The steps of others in the weather are never those of t. */
  ghost predicate Foreign(env: nat -> Weather, t: nat) {
    forall k: nat, b :: b in env(k).others ==> !Mine(b, t)
  }

  /** No fault at the statements from index from up to index to. */
  ghost predicate Quiet(env: nat -> Weather, from: nat, to: nat) {
    forall k: nat :: from <= k < to ==> env(k).fault == NoFault
  }

  /** No fault at all, and nobody else about. */
  ghost predicate Calm(env: nat -> Weather) {
    forall k: nat :: env(k).fault == NoFault && env(k).others == []
  }

  /**
   How Insert's own steps end, given its report: only Stored commits without doubt, and only after
   the whole script; a connection failure or a duplicate never reaches the commit.
   */
  predicate EndsWith(last: Action, t: nat, done: nat, all: nat, r: Report) {
    match r
    case Stored => done == all && last == Commit(t)
    case AlreadyExists => done == 1 && last == RejectDuplicate(t)
    case ConnectionFailed => last == Fail(t, ConnectionFailed)
    case Other => last == Fail(t, Other) || (done == all && last.CommitError? && last.t == t)
  }

  /**
   The report once the orders row is in, for n items: the first fault before the commit decides it, a lost
   connection being told from the rest; with none, the commit does, and no fault there is told apart.
   */
  ghost predicate FirstFaultDecides(env: nat -> Weather, n: nat, r: Report) {
    && (forall k: nat :: 1 <= k < n + 3 && Quiet(env, 1, k) && env(k).fault == ConnectionLost ==> r == ConnectionFailed)
    && (forall k: nat :: 1 <= k < n + 3 && Quiet(env, 1, k) && env(k).fault == Rejected ==> r == Other)
    && (Quiet(env, 1, n + 3) ==> r == if env(n + 3).fault == NoFault then Stored else Other)
  }

  /** Whether the transaction stores its order: all statements pass, and the commit takes effect. */
  ghost predicate TakesEffect(env: nat -> Weather, n: nat) {
    Quiet(env, 1, n + 3) && (env(n + 3).fault == NoFault || env(n + 3).applied)
  }

  /** A fault at statement k, none before it, decides the report. */
  lemma FaultAt(env: nat -> Weather, n: nat, k: nat, r: Report)
    requires 1 <= k < n + 3 && Quiet(env, 1, k) && env(k).fault != NoFault
    requires r == if env(k).fault == ConnectionLost then ConnectionFailed else Other
    ensures FirstFaultDecides(env, n, r) && !TakesEffect(env, n)
  {
    forall j: nat | 1 <= j < n + 3 && Quiet(env, 1, j) && env(j).fault != NoFault ensures j == k {
      var faults := (env(j).fault, env(k).fault);
    }
  }

  lemma QuietGrows(env: nat -> Weather, k: nat)
    requires Quiet(env, 1, k) && env(k).fault == NoFault
    ensures Quiet(env, 1, k + 1)
  {
  }

  /**
   DBStore.Insert: one transaction for the order, its items in sequence, among any interleaved steps
   of other transactions. What it reports is what its own steps did; if it cannot even begin, nothing.
   at is the database as the insert into orders finds it.
   */
  method Insert(s: Server, t: nat, o: Order, now: int, begin: Fault, env: nat -> Weather)
    returns (r: Report, ghost done: nat, ghost last: Action, ghost at: Db)
    requires s.Valid() && t !in s.db.open && t !in s.db.reports && Foreign(env, t)
    modifies s`db, s`trace
    ensures s.Valid()
    ensures begin != NoFault ==> s.db == old(s.db) && s.trace == old(s.trace)
    ensures begin == ConnectionLost ==> r == ConnectionFailed
    ensures begin == Rejected ==> r == Other
    ensures begin == NoFault ==>
              && Over(s.db, t, o, r)
              && Ended(s.trace, t, Own(old(s.trace), t), Script(t, o, now), done, last)
              && EndsWith(last, t, done, |Script(t, o, now)|, r)
    ensures begin == NoFault ==> at == Taking(Apply(old(s.db), Begin(t, o, now)), env(0).others)
    ensures begin == NoFault && env(0).fault == ConnectionLost ==> r == ConnectionFailed
    ensures begin == NoFault && env(0).fault == Rejected ==> r == Other
    ensures begin == NoFault && env(0).fault == NoFault && UidLocked(at, t, o.orderUID) ==> r == ConnectionFailed
    ensures begin == NoFault && env(0).fault == NoFault && !UidLocked(at, t, o.orderUID) ==>
              UidTaken(at.committed, o.orderUID) ==> r == AlreadyExists
    ensures begin == NoFault && OrderPasses(at, t, o, env(0).fault) ==> FirstFaultDecides(env, |o.items|, r)
    ensures begin == NoFault && Whole(s.start) ==>
              (StoredBy(s.db, t) <==> OrderPasses(at, t, o, env(0).fault) && TakesEffect(env, |o.items|))
    ensures r == Stored ==> CommittedAt(s.db, t, o, now)
    ensures r == Stored && Whole(s.start) ==> GetOrder(s.db.committed, o.orderUID) == Some(o)
    ensures begin == NoFault && Calm(env) && Free(old(s.db), t, o.orderUID) ==> r == Stored
  {
    hide Doing, Over, Enabled, Apply, Runs, Mine, Own, Script, Issued, Ended, Whole, StoredBy, Taking, Quiet, Calm;
    hide FirstFaultDecides, TakesEffect, CommittedAt, UidLocked, UidTaken, GetOrder;
    if begin != NoFault {
      return FaultReport(begin), 0, Begin(t, o, now), s.db;
    }
    ghost var base, script := Own(s.trace, t), Script(t, o, now);
    BeginStarts(s.db, t, o, now);
    BeginLeaves(s.db, t, o, now);
    CalmIs(env, Apply(s.db, Begin(t, o, now)), |o.items|);
    ScriptAt(t, o, now, 0);
    ScriptAt(t, o, now, 1);
    IssuedNothing(s.trace, t, script);
    IssuedGrows(s.trace, t, base, script, 0, Begin(t, o, now));
    s.Do(Begin(t, o, now));
    var fault: Option<Report>;
    fault, at := ExecOrder(s, t, o, env(0), now, base, script);
    if fault.Some? {
      return fault.value, 1, if fault.value == AlreadyExists then RejectDuplicate(t) else Fail(t, fault.value), at;
    }
    r, done, last := InsertDetails(s, t, o, now, env, base);
    ReadsBackNow(s.start, s.trace, t, o, r);
  }

  /** The statements after the orders row. */
  method InsertDetails(s: Server, t: nat, o: Order, ghost now: int, env: nat -> Weather, ghost base: seq<Action>)
    returns (r: Report, ghost done: nat, ghost last: Action)
    requires s.Valid() && Doing(s.db, t, o, now, 1) && Foreign(env, t) && Issued(s.trace, t, base, Script(t, o, now), 2)
    modifies s`db, s`trace
    ensures s.Valid() && Over(s.db, t, o, r) && r != AlreadyExists
    ensures FirstFaultDecides(env, |o.items|, r)
    ensures Whole(s.start) ==> (StoredBy(s.db, t) <==> TakesEffect(env, |o.items|))
    ensures r == Stored ==> CommittedAt(s.db, t, o, now)
    ensures Ended(s.trace, t, base, Script(t, o, now), done, last)
    ensures EndsWith(last, t, done, |Script(t, o, now)|, r)
  {
    hide Doing, Over, Enabled, Apply, Runs, Mine, Own, Script, Issued, Ended, Whole, StoredBy, Quiet, TakesEffect;
    hide FirstFaultDecides, CommittedAt;
    var n := |o.items|;
    ghost var script := Script(t, o, now);
    ScriptAt(t, o, now, 2);
    ScriptAt(t, o, now, 3);
    QuietAtFirst(env);
    var fault := Exec(s, t, InsertDelivery(t), env(1), o, now, base, script, 2);
    if fault.Some? {
      FaultAt(env, n, 1, fault.value);
      return fault.value, 2, Fail(t, fault.value);
    }
    QuietGrows(env, 1);
    fault := Exec(s, t, InsertPayment(t), env(2), o, now, base, script, 3);
    if fault.Some? {
      FaultAt(env, n, 2, fault.value);
      return fault.value, 3, Fail(t, fault.value);
    }
    QuietGrows(env, 2);
    ghost var p: nat;
    fault, p := InsertItems(s, t, o, now, env, base);
    if fault.Some? {
      return fault.value, p, Fail(t, fault.value);
    }
    r := ExecCommit(s, t, o, env(n + 3), now, base, script);
    CommitDecides(env, n, r);
    if env(n + 3).fault == NoFault || env(n + 3).applied { CommittedIsStored(s.db, t, o, now); }
    done, last := |script|, if r == Stored then Commit(t) else CommitError(t, env(n + 3).applied);
  }

  /** The loop over the items. */
  method InsertItems(s: Server, t: nat, o: Order, ghost now: int, env: nat -> Weather, ghost base: seq<Action>)
    returns (fault: Option<Report>, ghost p: nat)
    requires s.Valid() && Doing(s.db, t, o, now, 3) && Foreign(env, t) && Issued(s.trace, t, base, Script(t, o, now), 4)
    requires Quiet(env, 1, 3)
    modifies s`db, s`trace
    ensures s.Valid()
    ensures fault.None? ==>
              && Doing(s.db, t, o, now, 3 + |o.items|) && Quiet(env, 1, 3 + |o.items|)
              && Issued(s.trace, t, base, Script(t, o, now), 4 + |o.items|)
    ensures fault.Some? ==>
              && (fault.value == ConnectionFailed || fault.value == Other)
              && Over(s.db, t, o, fault.value) && (Whole(s.start) ==> !StoredBy(s.db, t))
              && FirstFaultDecides(env, |o.items|, fault.value) && !TakesEffect(env, |o.items|)
              && Ended(s.trace, t, base, Script(t, o, now), p, Fail(t, fault.value))
  {
    hide Doing, Over, Enabled, Apply, Runs, Mine, Own, Script, Issued, Ended, Whole, StoredBy, Quiet, TakesEffect;
    hide FirstFaultDecides;
    for i := 0 to |o.items|
      invariant s.Valid() && Doing(s.db, t, o, now, 3 + i) && Issued(s.trace, t, base, Script(t, o, now), 4 + i)
      invariant Quiet(env, 1, 3 + i)
    {
      ScriptAt(t, o, now, 4 + i);
      fault := Exec(s, t, InsertItem(t), env(3 + i), o, now, base, Script(t, o, now), 4 + i);
      if fault.Some? {
        FaultAt(env, |o.items|, 3 + i, fault.value);
        return fault, 4 + i;
      }
      QuietGrows(env, 3 + i);
    }
    return None, 0;
  }

  lemma QuietAtFirst(env: nat -> Weather)
    ensures Quiet(env, 1, 1)
  {
  }

  lemma CommitDecides(env: nat -> Weather, n: nat, r: Report)
    requires Quiet(env, 1, n + 3) && r == if env(n + 3).fault == NoFault then Stored else Other
    ensures FirstFaultDecides(env, n, r)
    ensures TakesEffect(env, n) <==> env(n + 3).fault == NoFault || env(n + 3).applied
  {
  }

  /** In calm weather the statements find what was there, and all pass. */
  lemma CalmIs(env: nat -> Weather, db: Db, n: nat)
    ensures Calm(env) ==> Taking(db, env(0).others) == db && env(0).fault == NoFault
    ensures Calm(env) ==> forall r :: FirstFaultDecides(env, n, r) ==> r == Stored
  {
  }

  lemma BeginLeaves(db: Db, t: nat, o: Order, now: int)
    requires t !in db.open
    ensures UidLocked(Apply(db, Begin(t, o, now)), t, o.orderUID) <==> UidLocked(db, t, o.orderUID)
    ensures Apply(db, Begin(t, o, now)).committed == db.committed
  {
    var db' := Apply(db, Begin(t, o, now));
    assert forall u :: u in db.open ==> u in db'.open && db'.open[u] == db.open[u];
    assert forall u :: u in db'.open && u != t ==> u in db.open && db'.open[u] == db.open[u];
  }

  lemma ReadsBackNow(start: Db, trace: seq<Action>, t: nat, o: Order, r: Report)
    requires Runs(start, trace) && Over(After(start, trace), t, o, r)
    ensures Whole(start) && r == Stored ==> GetOrder(After(start, trace).committed, o.orderUID) == Some(o)
  {
    hide Runs, After, Over, Whole, GetOrder;
    if Whole(start) { StoredReadsBack(start, trace, t, o, r); }
  }

  lemma BeginStarts(db: Db, t: nat, o: Order, now: int)
    requires t !in db.open && t !in db.reports
    ensures Enabled(db, Begin(t, o, now)) && Mine(Begin(t, o, now), t)
    ensures Doing(Apply(db, Begin(t, o, now)), t, o, now, 0)
  {
  }

  lemma IssuedNothing(trace: seq<Action>, t: nat, script: seq<Action>)
    ensures Issued(trace, t, Own(trace, t), script, 0)
  {
    assert Own(trace, t) + script[..0] == Own(trace, t);
  }

  /** After an Insert that reported Stored, the order reads back, whatever else went on. */
  lemma StoredReadsBack(s: Db, trace: seq<Action>, t: nat, o: Order, r: Report)
    requires Whole(s) && Runs(s, trace) && Over(After(s, trace), t, o, r)
    ensures r == Stored ==> GetOrder(After(s, trace).committed, o.orderUID) == Some(o)
    ensures r == AlreadyExists || r == ConnectionFailed ==> !StoredBy(After(s, trace), t)
    ensures r == AlreadyExists ==> Preceded(After(s, trace), t)
  {
    hide Inv, GetOrder, Runs, Preceded;
    WholeRun(s, trace);
    var db := After(s, trace);
    if r == Stored {
      var id :| id in db.ledger && db.ledger[id].tx == t;
      assert CommittedAs(db, o);
      GetOrderExact(db, o.orderUID, o);
    }
  }

  // ----- GetLatestOrders -----

  datatype Rows = Rows(orders: seq<Order>) | RowsFailed(report: Report)

  /** One row of the result set: an order, or a scan or unmarshal error. */
  datatype Row = Row(order: Order) | BadRow

  /** GetLatestOrders: all rows in query order, or the first error met. */
  method GetLatestOrders(query: Fault, rows: seq<Row>, iteration: Fault) returns (r: Rows)
    ensures query == ConnectionLost ==> r == RowsFailed(ConnectionFailed)
    ensures query == Rejected ==> r == RowsFailed(Other)
    ensures query == NoFault && BadRow in rows ==> r == RowsFailed(Other)
    ensures query == NoFault && BadRow !in rows && iteration == ConnectionLost ==> r == RowsFailed(ConnectionFailed)
    ensures query == NoFault && BadRow !in rows && iteration == Rejected ==> r == RowsFailed(Other)
    ensures query == NoFault && BadRow !in rows && iteration == NoFault ==>
              && r.Rows? && |r.orders| == |rows|
              && forall i :: 0 <= i < |rows| ==> rows[i] == Row(r.orders[i])
  {
    if query != NoFault {
      return RowsFailed(FaultReport(query));
    }
    var orders: seq<Order> := [];
    for i := 0 to |rows|
      invariant |orders| == i
      invariant forall j :: 0 <= j < i ==> rows[j] == Row(orders[j])
    {
      if rows[i] == BadRow {
        return RowsFailed(Other);
      }
      orders := orders + [rows[i].order];
    }
    if iteration != NoFault {
      return RowsFailed(FaultReport(iteration));
    }
    return Rows(orders);
  }
}
