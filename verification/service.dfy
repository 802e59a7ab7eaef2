/** The order service between worker and store: what the step system assumes of a call, the store proves. */
module Service {
  import opened Domain
  import Errors
  import Worker
  import P = Pipeline
  import T = Transactions
  import opened StoreTheorems

  /** The error DBStore.Insert returns; a raw commit error is neither of its sentinels. */
  function ErrorOf(r: T.Report): Option<Errors.Error> {
    match r
    case Stored => None
    case AlreadyExists => Some(Errors.Leaf(Errors.AlreadyExists))
    case ConnectionFailed => Some(Errors.Leaf(Errors.ConnectionFailed))
    case Other => Some(Errors.Leaf(Errors.Unknown))
  }

  /** What the worker's call of the service returns after a valid order's Insert. */
  function ResultOf(r: T.Report): Worker.CallResult {
    match Errors.ProcessNewOrder(None, ErrorOf(r))
    case None => Worker.Nil
    case Some(e) => Worker.Failed(e)
  }

  /** What the worker makes of each report: accepted, a duplicate, a reason to retry, or none of these. */
  lemma ReportsAreTold(r: T.Report)
    ensures ResultOf(r) == Worker.Nil <==> r == T.Stored
    ensures Worker.IsTransient(ResultOf(r)) <==> r == T.ConnectionFailed
    ensures r != T.Stored ==> ResultOf(r).Failed?
    ensures r == T.AlreadyExists ==> Errors.Root(ResultOf(r).error) == Errors.AlreadyExists
    ensures r == T.ConnectionFailed ==> Errors.Root(ResultOf(r).error) == Errors.ConnectionFailed
    ensures r == T.Other ==> Errors.Root(ResultOf(r).error) == Errors.Unknown
  {
    var e := ErrorOf(r);
    Errors.ServiceIsTransparent(None, e, Errors.ConnectionFailed);
    if ResultOf(r).Failed? {
      Errors.IsRoot(ResultOf(r).error, Errors.ConnectionFailed);
    }
  }

  /** The uids of a consumer's store are those committed in the database. */
  ghost predicate SameUids(s: T.Db, db: map<string, P.Row>) {
    forall uid :: uid in db <==> exists id :: id in s.ledger && s.ledger[id].order.orderUID == uid
  }

  /** What a call returns for a transaction that has reported is what the step system allows for it. */
  lemma ReportReturnsAsAssumed(s: T.Db, t: nat, d: P.Job, db: map<string, P.Row>)
    requires Whole(s) && t in s.reports && t in s.begun && d.msg.decoded == Some(s.begun[t]) && SameUids(s, db)
    ensures P.MayReturn(db, d, StoredBy(s, t), ResultOf(s.reports[t]))
  {
    hide T.Inv, StoredBy, Errors.Is;
    ReportTells(s, t);
    var e := ErrorOf(s.reports[t]);
    Errors.ServiceIsTransparent(None, e, Errors.AlreadyExists);
    Errors.ServiceIsTransparent(None, e, Errors.ConnectionFailed);
    Errors.ServiceIsTransparent(None, e, Errors.InvalidOrder);
  }

  lemma ReportTells(s: T.Db, t: nat)
    requires Whole(s) && t in s.reports
    ensures s.reports[t] == T.Stored ==> StoredBy(s, t)
    ensures s.reports[t] == T.AlreadyExists || s.reports[t] == T.ConnectionFailed ==> !StoredBy(s, t)
    ensures s.reports[t] == T.AlreadyExists ==> Preceded(s, t)
  {
    hide T.Inv, Preceded;
  }

  /**
   After any run of transactions, what a call of the service returns for one of them is among the
   results the step system of the consumer allows, given whether that transaction committed.
   */
  lemma CallsReturnAsAssumed(actions: seq<T.Action>, t: nat, d: P.Job, db: map<string, P.Row>)
    requires T.Runs(T.EMPTY, actions) && t in T.After(T.EMPTY, actions).reports
    requires t in T.After(T.EMPTY, actions).begun
    requires d.msg.decoded == Some(T.After(T.EMPTY, actions).begun[t]) && SameUids(T.After(T.EMPTY, actions), db)
    ensures
      var s := T.After(T.EMPTY, actions);
      P.MayReturn(db, d, StoredBy(s, t), ResultOf(s.reports[t]))
  {
    hide T.Runs, T.After, Whole, StoredBy, P.MayReturn;
    EmptyWhole();
    WholeRun(T.EMPTY, actions);
    ReportReturnsAsAssumed(T.After(T.EMPTY, actions), t, d, db);
  }
}
