/** Which outcomes a job can have whose own call stored its order. */
module PipelineOwner {
  import opened Domain
  import opened Errors
  import opened Worker
  import opened Pipeline
  import opened PipelineInv
  import opened PipelineTheorems
  import opened PipelineWatermark

  /** Success, an error that is none of the sentinels, such as a raw commit error, or a panic. */
  predicate MayHaveStored(fate: Fate) {
    fate.Crashed? || (fate.Processed? && (fate.error.Some? ==> Root(fate.error.value) == Unknown))
  }

  /** A worker whose job's call may have committed. */
  predicate MayOwn(p: WorkerPhase) {
    match p
    case Calling(_, _, stored) => stored
    case Emitting(_, _, fate, _) => MayHaveStored(fate)
    case _ => false
  }

  ghost predicate OwnedAtWorker(s: State, d: Job) {
    exists w :: 0 <= w < |s.workers| && d in HeldBy(s.workers[w]) && MayOwn(s.workers[w])
  }

  ghost predicate OwnedByFinished(s: State, d: Job) {
    exists k :: 0 <= k < |s.finished| && s.finished[k].d == d && MayHaveStored(s.finished[k].fate)
  }

  /** Every job that stored its order is at a worker that may own it, or has finished accordingly. */
  ghost predicate Owned(s: State) {
    forall uid :: uid in s.db && s.db[uid].storer.Some? ==>
      OwnedAtWorker(s, s.db[uid].storer.value) || OwnedByFinished(s, s.db[uid].storer.value)
  }

  /** One worker moves on, keeping what it may own. */
  lemma OwnedMove(s: State, t: State, w: nat, p: WorkerPhase)
    requires Owned(s) && w < |s.workers| && t.workers == s.workers[w := p] && t.db == s.db && t.finished == s.finished
    requires MayOwn(s.workers[w]) ==> HeldBy(p) == HeldBy(s.workers[w]) && MayOwn(p)
    ensures Owned(t)
  {
    hide HeldBy, MayOwn, MayHaveStored;
    forall uid | uid in t.db && t.db[uid].storer.Some?
      ensures OwnedAtWorker(t, t.db[uid].storer.value) || OwnedByFinished(t, t.db[uid].storer.value)
    {
      var d := s.db[uid].storer.value;
      if OwnedAtWorker(s, d) {
        var v :| 0 <= v < |s.workers| && d in HeldBy(s.workers[v]) && MayOwn(s.workers[v]);
        assert d in HeldBy(t.workers[v]) && MayOwn(t.workers[v]);
      } else {
        assert OwnedByFinished(s, d);
      }
    }
  }

  lemma OwnedSame(s: State, t: State)
    requires Owned(s) && t.workers == s.workers && t.finished == s.finished
    requires forall uid :: uid in t.db && t.db[uid].storer.Some? ==> uid in s.db && s.db[uid] == t.db[uid]
    ensures Owned(t)
  {
    hide HeldBy, MayOwn, MayHaveStored;
    forall d ensures OwnedAtWorker(t, d) == OwnedAtWorker(s, d) && OwnedByFinished(t, d) == OwnedByFinished(s, d) {
    }
  }

  lemma OwnedStore(c: Config, s: State, w: nat)
    requires Owned(s) && Enabled(c, s, StoreOrder(w))
    ensures Owned(Apply(c, s, StoreOrder(w)))
  {
    var p, t := s.workers[w], Apply(c, s, StoreOrder(w));
    OwnedMove(s, t.(db := s.db), w, t.workers[w]);
    hide HeldBy, MayHaveStored;
    forall uid | uid in t.db && t.db[uid].storer.Some?
      ensures OwnedAtWorker(t, t.db[uid].storer.value) || OwnedByFinished(t, t.db[uid].storer.value)
    {
      var d := t.db[uid].storer.value;
      if uid == Uid(p.d) {
        StorerHeld(t, w, p);
      } else {
        assert OwnedAtWorker(t.(db := s.db), d) ==> OwnedAtWorker(t, d);
        assert OwnedByFinished(t.(db := s.db), d) ==> OwnedByFinished(t, d);
      }
    }
  }

  lemma StorerHeld(t: State, w: nat, p: WorkerPhase)
    requires w < |t.workers| && p.Calling? && t.workers[w] == Calling(p.d, p.results, true)
    ensures OwnedAtWorker(t, p.d)
  {
    assert p.d in HeldBy(t.workers[w]) && MayOwn(t.workers[w]);
  }

  lemma OwnedFinish(c: Config, s: State, w: nat)
    requires Owned(s) && Enabled(c, s, FinishMessage(w))
    ensures Owned(Apply(c, s, FinishMessage(w)))
  {
    hide MayHaveStored;
    var p, t := s.workers[w], Apply(c, s, FinishMessage(w));
    forall uid | uid in t.db && t.db[uid].storer.Some?
      ensures OwnedAtWorker(t, t.db[uid].storer.value) || OwnedByFinished(t, t.db[uid].storer.value)
    {
      var d := s.db[uid].storer.value;
      if OwnedByFinished(s, d) {
        var k :| 0 <= k < |s.finished| && s.finished[k].d == d && MayHaveStored(s.finished[k].fate);
        assert t.finished[k] == s.finished[k];
      } else {
        var v :| 0 <= v < |s.workers| && d in HeldBy(s.workers[v]) && MayOwn(s.workers[v]);
        if v == w {
          assert t.finished[|s.finished|] == Finish(p.d, p.results, p.fate);
        } else {
          assert t.workers[v] == s.workers[v];
        }
      }
    }
  }

  /** A call that committed reports neither a connection failure nor an invalid or known order. */
  lemma ReturnOwns(c: Config, s: State, w: nat, r: CallResult)
    requires Enabled(c, s, Return(w, r)) && s.workers[w].stored
    ensures
      var p := AfterReturn(s.workers[w].d, s.workers[w].results, r);
      HeldBy(p) == HeldBy(s.workers[w]) && MayOwn(p)
  {
    hide Effects;
    if r.Failed? {
      IsRoot(r.error, ConnectionFailed);
      IsRoot(r.error, InvalidOrder);
      IsRoot(r.error, AlreadyExists);
    }
  }

  lemma OwnedStep(c: Config, s: State, a: Action)
    requires Owned(s) && Enabled(c, s, a)
    ensures Owned(Apply(c, s, a))
  {
    hide Owned, MayHaveStored, MayReturn, AfterDecode, AfterReturn, AfterSleep, HealthAfterStore, HeldBy, Uid;
    var t := Apply(c, s, a);
    match a
    case StoreOrder(w) => OwnedStore(c, s, w);
    case FinishMessage(w) => OwnedFinish(c, s, w);
    case Return(w, r) =>
      if s.workers[w].stored { ReturnOwns(c, s, w, r); }
      OwnedMove(s, t, w, t.workers[w]);
    case Take(w) => OwnedMove(s, t, w, t.workers[w]);
    case Handoff(w) => OwnedMove(s, t, w, t.workers[w]);
    case ExitCancelled(w) => OwnedMove(s, t, w, t.workers[w]);
    case ExitClosed(w) => OwnedMove(s, t, w, t.workers[w]);
    case Decode(w) => OwnedMove(s, t, w, t.workers[w]);
    case Wake(w) => OwnedMove(s, t, w, t.workers[w]);
    case Emit(w, ok) => EmitHolds(s.workers[w]); OwnedMove(s, t, w, t.workers[w]);
    case _ => OwnedSame(s, t);
  }

  lemma EmitHolds(p: WorkerPhase)
    requires p.Emitting? && p.todo != []
    ensures HeldBy(p.(todo := p.todo[1..])) == HeldBy(p)
  {
  }

  lemma {:induction false} OwnedRun(c: Config, s: State, actions: seq<Action>, t: State)
    requires Owned(s) && Run(c, s, actions, t)
    ensures Owned(t)
    decreases |actions|
  {
    hide Enabled, Apply, Owned;
    if actions != [] {
      OwnedStep(c, s, actions[0]);
      OwnedRun(c, Apply(c, s, actions[0]), actions[1..], t);
    }
  }

  lemma StartOwned(c: Config, healthy: bool, db: map<string, Row>)
    requires Earlier(db)
    ensures Owned(Start(c, healthy, db))
  {
  }

  lemma ReachableOwned(c: Config, s: State)
    requires Reachable(c, s)
    ensures Owned(s)
  {
    hide Run, Start, Owned;
    var actions, healthy, db :| Earlier(db) && Run(c, Start(c, healthy, db), actions, s);
    StartOwned(c, healthy, db);
    OwnedRun(c, Start(c, healthy, db), actions, s);
  }

  /**
   A finished job whose own call stored its order ended in success, in an error that is no sentinel, or
   in a panic: never undecodable, invalid, a duplicate, or given up for want of a connection.
   */
  lemma StoredJobsEndSo(c: Config, s: State, k: nat)
    requires Reachable(c, s) && k < |s.finished| && OwnStored(s.db, s.finished[k].d)
    ensures MayHaveStored(s.finished[k].fate)
  {
    hide Reachable, MayHaveStored, Shape, Progress, Logged, Owned;
    ReachableInv(c, s);
    ReachableOwned(c, s);
    var d := s.finished[k].d;
    OwnerOf(s, d);
    if OwnedAtWorker(s, d) {
      var w :| 0 <= w < |s.workers| && d in HeldBy(s.workers[w]) && MayOwn(s.workers[w]);
      OnlyAtWorker(s, w, d);
    } else {
      var l :| 0 <= l < |s.finished| && s.finished[l].d == d && MayHaveStored(s.finished[l].fate);
      FinishedOnce(s, k, l);
    }
  }

  lemma OwnerOf(s: State, d: Job)
    requires Owned(s) && OwnStored(s.db, d)
    ensures OwnedAtWorker(s, d) || OwnedByFinished(s, d)
  {
    hide OwnedAtWorker, OwnedByFinished;
  }

  /** A finished job whose own call stored its order was also dead-lettered iff it did not end in success. */
  lemma StoredAndDeadLetteredExactly(c: Config, s: State, k: nat)
    requires Reachable(c, s) && k < |s.finished| && OwnStored(s.db, s.finished[k].d)
    ensures DeadLettered(s.log, s.finished[k].d) <==> s.finished[k].fate != Processed(None)
  {
    hide Reachable, OwnStored, Shape, Conserved, Progress, Effects, EffectsOf;
    ReachableInv(c, s);
    StoredJobsEndSo(c, s, k);
    var f := s.finished[k];
    assert EffectsOf(s.log, f.d) == Effects(f.fate);
    if f.fate == Processed(None) {
      forall i | 0 <= i < |s.log| && s.log[i].d == f.d ensures s.log[i].effect in Effects(f.fate) {
        LoggedEffect(s.log, i);
      }
      SuccessEffects();
    } else {
      NotExhausted(f.fate);
      ProduceAmongEffects(f.fate);
      var i :| 0 <= i < |Effects(f.fate)| && Effects(f.fate)[i].Produce?;
      EffectLogged(s.log, f.d, Effects(f.fate)[i]);
    }
  }

  lemma SuccessEffects()
    ensures Effects(Processed(None)) == [CountProcessed(Valid), Commit]
  {
  }

  lemma NotExhausted(fate: Fate)
    requires MayHaveStored(fate)
    ensures fate != Undecodable && !Exhausted(fate)
  {
  }
}
