/** Conservation, settlement, exactly-once storage and counters over every run of the consumer. */
module PipelineTheorems {
  import opened Domain
  import opened Errors
  import opened Worker
  import opened WorkerTheorems
  import opened Pipeline
  import opened PipelineInv

  // ----- Conservation -----

  lemma {:induction false} HeldSize(ws: seq<WorkerPhase>)
    ensures |Held(ws)| <= |ws|
  {
    if ws != [] { HeldSize(ws[..|ws| - 1]); }
  }

  /**
   In every reachable state each polled job is in exactly one place: dropped by the paused poller, at
   the poller's send, in the channel, with one worker, or finished; the channel holds at most
   jobBuffer jobs and at most jobBuffer + workerCount + 1 are pending.
   */
  lemma EachJobInOnePlace(c: Config, s: State, d: Job)
    requires Reachable(c, s)
    ensures d in s.polled <==> Census(s)[d] == 1
    ensures d !in s.polled <==> Census(s)[d] == 0
    ensures Census(s)[d] == multiset(s.dropped)[d] + multiset(AtPoller(s.poller))[d] + multiset(s.queue)[d]
                            + multiset(FinishedJobs(s.finished))[d] + Held(s.workers)[d]
    ensures |s.queue| <= c.jobBuffer
    ensures |AtPoller(s.poller)| + |s.queue| + |Held(s.workers)| <= c.jobBuffer + c.workerCount + 1
  {
    hide Reachable, Progress, Logged;
    ReachableInv(c, s);
    NumberedOnce(s.polled, d);
    HeldSize(s.workers);
    assert d in s.polled <==> d in multiset(s.polled);
  }

  // ----- Outcomes in the pipeline -----

  /** Whatever the interleaving, a finished job's logged effects are those of the worker's contract. */
  lemma FinishedAsContracted(c: Config, s: State, k: nat)
    requires Reachable(c, s) && k < |s.finished|
    ensures
      var f := s.finished[k];
      && EffectsOf(s.log, f.d) == Effects(f.fate)
      && FateOfMessage(f.d.msg, ScriptOf(f.results), 0, |f.results|, c.maxRetries, f.fate)
      && StoredIfAccepted(c, s.db, f.d, f.fate)
  {
    hide Reachable, Effects, EffectsOf, FateOfMessage, StoredIfAccepted;
    ReachableInv(c, s);
  }

  /**
   Whatever the interleaving, what has been done about a finished job is decided by the last result of its
   calls: the very error it returned.
   */
  lemma FinishedByLastResult(c: Config, s: State, k: nat)
    requires Reachable(c, s) && c.maxRetries >= 1 && k < |s.finished|
    ensures
      var f, done := s.finished[k], Core(EffectsOf(s.log, s.finished[k].d));
      && (f.d.msg.decoded == None ==> f.results == [] && done == [Commit])
      && (f.d.msg.decoded.Some? ==> f.results != [] && done == Handling(f.results[|f.results| - 1]))
  {
    hide Reachable, Effects, EffectsOf, FateOfMessage, StoredIfAccepted, Core, Handling;
    var f := s.finished[k];
    FinishedAsContracted(c, s, k);
    HandledByLastResult(f.d.msg, ScriptOf(f.results), 0, |f.results|, c.maxRetries, f.fate);
  }

  // ----- Exactly-once storage -----

  lemma CountsLast(js: seq<Job>, x: Job, d: Job)
    ensures multiset(js + [x])[d] == multiset(js)[d] + if x == d then 1 else 0
  {
    assert multiset(js + [x]) == multiset(js) + multiset{x};
  }

  lemma {:induction false} FinishedTwice(fs: seq<Finish>, k: nat, l: nat)
    requires k < l < |fs| && fs[k].d == fs[l].d
    ensures multiset(FinishedJobs(fs))[fs[k].d] >= 2
  {
    hide FinishedJobs;
    var n := |fs| - 1;
    FinishedLast(fs);
    CountsLast(FinishedJobs(fs[..n]), fs[n].d, fs[k].d);
    if l < n {
      FinishedTwice(fs[..n], k, l);
    } else {
      FinishedAt(fs[..n], k);
    }
  }

  lemma FinishedLast(fs: seq<Finish>)
    requires fs != []
    ensures FinishedJobs(fs) == FinishedJobs(fs[..|fs| - 1]) + [fs[|fs| - 1].d]
  {
  }

  lemma FinishedOnce(s: State, k: nat, l: nat)
    requires Conserved(s) && k < |s.finished| && l < |s.finished| && s.finished[k].d == s.finished[l].d
    ensures k == l
  {
    NumberedOnce(s.polled, s.finished[k].d);
    assert multiset(FinishedJobs(s.finished))[s.finished[k].d] <= Census(s)[s.finished[k].d] <= 1;
    if k < l {
      FinishedTwice(s.finished, k, l);
    } else if l < k {
      FinishedTwice(s.finished, l, k);
    }
  }

  /**
   The stored orders only grow along a run, and among all jobs finished as accepted, through any
   retries, redeliveries and workers, there is at most one for each uid: the one that is stored.
   */
  lemma AcceptedOncePerUid(c: Config, s: State, k: nat, l: nat)
    requires Reachable(c, s) && c.maxRetries >= 1 && k < |s.finished| && l < |s.finished|
    requires s.finished[k].fate == Processed(None) && s.finished[l].fate == Processed(None)
    ensures OwnStored(s.db, s.finished[k].d)
    ensures Uid(s.finished[k].d) == Uid(s.finished[l].d) ==> k == l
  {
    hide Reachable, Effects, EffectsOf, FateFits, Shape, Logged, Conserved;
    ReachableInv(c, s);
    if Uid(s.finished[k].d) == Uid(s.finished[l].d) {
      FinishedOnce(s, k, l);
    }
  }

  lemma StoredOrdersStay(c: Config, s: State, actions: seq<Action>, t: State, uid: string)
    requires Reachable(c, s) && Run(c, s, actions, t) && uid in s.db
    ensures uid in t.db && t.db[uid] == s.db[uid]
  {
    hide Reachable, Run, Inv;
    ReachableInv(c, s);
    RunInv(c, s, actions, t);
  }

  // ----- Counters -----

  /** How often an effect was caused. */
  function Tally(log: seq<Event>, e: Effect): nat {
    if log == [] then 0 else Tally(log[..|log| - 1], e) + One(log[|log| - 1].effect, e)
  }

  /** The messages counted as processed: valid, invalid or error. */
  function Counted(log: seq<Event>): nat {
    Tally(log, CountProcessed(Valid)) + Tally(log, CountProcessed(Invalid)) + Tally(log, CountProcessed(Erroneous))
  }

  function One(x: Effect, e: Effect): nat {
    if x == e then 1 else 0
  }

  function LogBalance(which: Ledger, log: seq<Event>): int {
    if log == [] then 0 else LogBalance(which, log[..|log| - 1]) + Weight(which, log[|log| - 1].effect)
  }

  /** What the effects still to be caused will add. */
  function Pending(which: Ledger, ws: seq<WorkerPhase>): int {
    if ws == [] then 0 else Pending(which, ws[..|ws| - 1]) + PendingOf(which, ws[|ws| - 1])
  }

  function PendingOf(which: Ledger, p: WorkerPhase): int {
    if p.Emitting? then Balance(which, p.todo) - (if which == Ledger.Finished then 1 else 0) else 0
  }

  lemma {:induction false} PendingUpdate(which: Ledger, ws: seq<WorkerPhase>, i: nat, p: WorkerPhase)
    requires i < |ws|
    ensures Pending(which, ws[i := p]) == Pending(which, ws) - PendingOf(which, ws[i]) + PendingOf(which, p)
  {
    hide PendingOf;
    var n := |ws| - 1;
    var us := ws[i := p];
    if i == n {
      assert us[..n] == ws[..n];
    } else {
      PendingUpdate(which, ws[..n], i, p);
      assert us[..n] == ws[..n][i := p] && us[n] == ws[n];
    }
  }

  lemma {:induction false} BalanceHead(which: Ledger, es: seq<Effect>)
    requires es != []
    ensures Balance(which, es) == Weight(which, es[0]) + Balance(which, es[1..])
  {
    var n := |es| - 1;
    if n > 0 {
      BalanceHead(which, es[..n]);
      assert es[..n][1..] == es[1..][..n - 1];
    }
  }

  /** The books: finished jobs, dead letters and commits, with what is still pending. */
  ghost predicate Balanced(which: Ledger, s: State) {
    LogBalance(which, s.log) + Pending(which, s.workers) == if which == Ledger.Finished then |s.finished| else 0
  }

  /** One worker moves on without logging. */
  lemma BalancedWorker(which: Ledger, s: State, t: State, w: nat, p: WorkerPhase)
    requires Balanced(which, s) && w < |s.workers| && t.workers == s.workers[w := p]
    requires t.log == s.log && t.finished == s.finished && PendingOf(which, p) == PendingOf(which, s.workers[w])
    ensures Balanced(which, t)
  {
    hide PendingOf;
    PendingUpdate(which, s.workers, w, p);
  }

  lemma PendingStart(which: Ledger, d: Job, results: seq<CallResult>, fate: Fate)
    ensures PendingOf(which, Emitted(d, results, fate)) == 0
  {
    hide Effects, Balance;
    FateBalances(fate);
  }

  lemma BalancedCall(c: Config, which: Ledger, s: State, a: Action)
    requires Balanced(which, s) && Enabled(c, s, a) && (a.Decode? || a.Return? || a.Wake?)
    ensures Balanced(which, Apply(c, s, a))
  {
    hide Balanced, Emitted, PendingOf, FateOf, MayReturn, IsTransient;
    CallPending(c, which, s.workers[a.w], s.workers[a.w].d);
    BalancedWorker(which, s, Apply(c, s, a), a.w, Apply(c, s, a).workers[a.w]);
  }

  lemma CallPending(c: Config, which: Ledger, p: WorkerPhase, d: Job)
    ensures !p.Emitting? ==> PendingOf(which, p) == 0
    ensures PendingOf(which, AfterDecode(c, d)) == 0
    ensures forall results :: PendingOf(which, AfterSleep(c, d, results)) == 0
    ensures forall results, r :: PendingOf(which, AfterReturn(d, results, r)) == 0
  {
    hide Emitted, FateOf, IsTransient;
    forall results: seq<CallResult>, fate ensures PendingOf(which, Emitted(d, results, fate)) == 0 {
      PendingStart(which, d, results, fate);
    }
  }

  lemma LogBalanceGrows(which: Ledger, log: seq<Event>, e: Event)
    ensures LogBalance(which, log + [e]) == LogBalance(which, log) + Weight(which, e.effect)
  {
    hide Weight;
    assert (log + [e])[..|log|] == log;
  }

  lemma PendingEmit(which: Ledger, p: WorkerPhase)
    requires p.Emitting? && p.todo != []
    ensures PendingOf(which, p.(todo := p.todo[1..])) == PendingOf(which, p) - Weight(which, p.todo[0])
  {
    hide Weight, Balance;
    BalanceHead(which, p.todo);
  }

  lemma BalancedEmit(c: Config, which: Ledger, s: State, w: nat, ok: bool)
    requires Balanced(which, s) && Enabled(c, s, Emit(w, ok))
    ensures Balanced(which, Apply(c, s, Emit(w, ok)))
  {
    hide Weight, LogBalance, Pending, PendingOf;
    var t, p := Apply(c, s, Emit(w, ok)), s.workers[w];
    LogBalanceGrows(which, s.log, Event(p.d, p.todo[0]));
    PendingEmit(which, p);
    PendingUpdate(which, s.workers, w, t.workers[w]);
  }

  lemma BalancedFinish(c: Config, which: Ledger, s: State, w: nat)
    requires Balanced(which, s) && Enabled(c, s, FinishMessage(w))
    ensures Balanced(which, Apply(c, s, FinishMessage(w)))
  {
    hide Weight;
    PendingUpdate(which, s.workers, w, Idle);
  }

  lemma BalancedMove(c: Config, which: Ledger, s: State, a: Action)
    requires Balanced(which, s) && Enabled(c, s, a)
    requires a.Take? || a.Handoff? || a.ExitCancelled? || a.ExitClosed? || a.StoreOrder?
    ensures Balanced(which, Apply(c, s, a))
  {
    hide Balanced;
    BalancedWorker(which, s, Apply(c, s, a), a.w, Apply(c, s, a).workers[a.w]);
  }

  lemma BalancedStep(c: Config, which: Ledger, s: State, a: Action)
    requires Balanced(which, s) && Enabled(c, s, a)
    ensures Balanced(which, Apply(c, s, a))
  {
    hide Enabled, Apply, Pending, LogBalance;
    match a
    case Decode(_) => BalancedCall(c, which, s, a);
    case Return(_, _) => BalancedCall(c, which, s, a);
    case Wake(_) => BalancedCall(c, which, s, a);
    case Emit(w, ok) => BalancedEmit(c, which, s, w, ok);
    case FinishMessage(w) => BalancedFinish(c, which, s, w);
    case Take(_) => BalancedMove(c, which, s, a);
    case Handoff(_) => BalancedMove(c, which, s, a);
    case ExitCancelled(_) => BalancedMove(c, which, s, a);
    case ExitClosed(_) => BalancedMove(c, which, s, a);
    case StoreOrder(_) => BalancedMove(c, which, s, a);
    case _ => OthersSilent(c, s, a);
  }

  lemma OthersSilent(c: Config, s: State, a: Action)
    requires Enabled(c, s, a) && (Outer(a) || a.PollMessage? || a.Enqueue?)
    ensures Apply(c, s, a).log == s.log && Apply(c, s, a).workers == s.workers && Apply(c, s, a).finished == s.finished
  {
    if Outer(a) { OuterKeeps(c, s, a); }
  }

  lemma {:induction false} BalancedRun(c: Config, which: Ledger, s: State, actions: seq<Action>, t: State)
    requires Balanced(which, s) && Run(c, s, actions, t)
    ensures Balanced(which, t)
    decreases |actions|
  {
    hide Enabled, Apply, Balanced;
    if actions != [] {
      BalancedStep(c, which, s, actions[0]);
      BalancedRun(c, which, Apply(c, s, actions[0]), actions[1..], t);
    }
  }

  lemma {:induction false} PendingIdle(which: Ledger, n: nat)
    ensures Pending(which, seq(n, _ => Idle)) == 0
  {
    if n > 0 {
      PendingIdle(which, n - 1);
      assert seq(n, _ => Idle)[..n - 1] == seq(n - 1, _ => Idle);
    }
  }

  /** How many workers are causing the effects of a result. */
  function Emitters(ws: seq<WorkerPhase>): nat {
    if ws == [] then 0 else Emitters(ws[..|ws| - 1]) + if ws[|ws| - 1].Emitting? then 1 else 0
  }

  lemma {:induction false} BalanceSplit(which: Ledger, es: seq<Effect>, fs: seq<Effect>)
    ensures Balance(which, es + fs) == Balance(which, es) + Balance(which, fs)
  {
    hide Weight;
    if fs == [] {
      assert es + fs == es;
    } else {
      var n := |fs| - 1;
      assert (es + fs)[..|es| + n] == es + fs[..n];
      BalanceSplit(which, es, fs[..n]);
    }
  }

  /** What the effects caused so far of one fate add to the books. */
  lemma PartBalances(fate: Fate, caused: seq<Effect>, todo: seq<Effect>)
    requires caused + todo == Effects(fate)
    ensures 0 <= Balance(Ledger.Finished, todo) <= 1
    ensures -1 <= Balance(Ledger.DeadLetters, todo) <= 0
    ensures 0 <= Balance(Ledger.Commits, todo) <= 1
  {
    hide Is, Balance;
    var es := Effects(fate);
    assert es[..|caused|] == caused;
    FateBalances(fate);
    forall which: Ledger ensures Balance(which, todo) == Balance(which, es) - Sum(which, es, |caused|) {
      BalanceSplit(which, caused, todo);
      SumIs(which, es, |caused|);
    }
  }

  lemma {:induction false} PendingBounds(log: seq<Event>, ws: seq<WorkerPhase>)
    requires forall i :: 0 <= i < |ws| ==> WorkerLogged(log, ws[i])
    ensures 0 <= Emitters(ws) + Pending(Ledger.Finished, ws) && Pending(Ledger.Finished, ws) <= 0
    ensures 0 <= Emitters(ws) + Pending(Ledger.DeadLetters, ws) && Pending(Ledger.DeadLetters, ws) <= 0
    ensures 0 <= Pending(Ledger.Commits, ws) <= Emitters(ws)
  {
    hide Effects, EffectsOf, Balance;
    if ws != [] {
      var p := ws[|ws| - 1];
      PendingBounds(log, ws[..|ws| - 1]);
      assert WorkerLogged(log, p);
      if p.Emitting? { PartBalances(p.fate, EffectsOf(log, p.d), p.todo); }
    }
  }

  lemma WeightIsOnes(x: Effect)
    ensures Weight(Ledger.Finished, x) ==
            One(x, CountProcessed(Valid)) + One(x, CountProcessed(Invalid)) + One(x, CountProcessed(Erroneous))
            + One(x, CountDlq(PanicReason))
    ensures Weight(Ledger.DeadLetters, x) ==
            (One(x, CountDlq(InvalidOrderReason)) + One(x, CountDlq(AlreadyExistsReason))
             + One(x, CountDlq(UnhandledReason)) + One(x, CountDlq(PanicReason)))
            - (One(x, Produce(InvalidOrderReason)) + One(x, Produce(AlreadyExistsReason))
               + One(x, Produce(UnhandledReason)) + One(x, Produce(PanicReason)))
    ensures Weight(Ledger.Commits, x) ==
            One(x, Commit) + One(x, MarkUnhealthy)
            - (One(x, CountProcessed(Valid)) + One(x, CountProcessed(Invalid)) + One(x, CountProcessed(Erroneous)))
  {
    match x
    case CountProcessed(status) => match status { case Valid => case Invalid => case Erroneous => }
    case CountDlq(reason) =>
      match reason {
        case InvalidOrderReason =>
        case AlreadyExistsReason =>
        case UnhandledReason =>
        case PanicReason =>
      }
    case Produce(reason) =>
      match reason {
        case InvalidOrderReason =>
        case AlreadyExistsReason =>
        case UnhandledReason =>
        case PanicReason =>
      }
    case _ =>
  }

  lemma {:induction false} BalanceIsTally(log: seq<Event>)
    ensures LogBalance(Ledger.Finished, log) ==
            Counted(log) + Tally(log, CountDlq(PanicReason))
    ensures LogBalance(Ledger.DeadLetters, log) ==
            (Tally(log, CountDlq(InvalidOrderReason)) + Tally(log, CountDlq(AlreadyExistsReason))
             + Tally(log, CountDlq(UnhandledReason)) + Tally(log, CountDlq(PanicReason)))
            - (Tally(log, Produce(InvalidOrderReason)) + Tally(log, Produce(AlreadyExistsReason))
               + Tally(log, Produce(UnhandledReason)) + Tally(log, Produce(PanicReason)))
    ensures LogBalance(Ledger.Commits, log) ==
            Tally(log, Commit) + Tally(log, MarkUnhealthy)
            - Counted(log)
  {
    hide One, Weight;
    if log != [] {
      BalanceIsTally(log[..|log| - 1]);
      WeightIsOnes(log[|log| - 1].effect);
    }
  }

  /**
   Counter conservation. In every reachable state, up to the workers that are causing effects just then:
   the jobs finished are those counted valid, invalid, error or panicked; the dead-letter counters add
   up to the dead-letter sends; and the counted messages are the commit attempts and mark-unhealthy
   calls. When no worker is at it, the three are equalities.
   */
  lemma CountersConserved(c: Config, s: State)
    requires Reachable(c, s)
    ensures
      var counted := Counted(s.log);
      && |s.finished| <= counted + Tally(s.log, CountDlq(PanicReason)) <= |s.finished| + Emitters(s.workers)
      && Tally(s.log, Commit) + Tally(s.log, MarkUnhealthy) <= counted
      && counted <= Tally(s.log, Commit) + Tally(s.log, MarkUnhealthy) + Emitters(s.workers)
    ensures
      var counted := Tally(s.log, CountDlq(InvalidOrderReason)) + Tally(s.log, CountDlq(AlreadyExistsReason))
                     + Tally(s.log, CountDlq(UnhandledReason)) + Tally(s.log, CountDlq(PanicReason));
      var sent := Tally(s.log, Produce(InvalidOrderReason)) + Tally(s.log, Produce(AlreadyExistsReason))
                  + Tally(s.log, Produce(UnhandledReason)) + Tally(s.log, Produce(PanicReason));
      sent <= counted <= sent + Emitters(s.workers)
  {
    hide Run, Inv, Pending, LogBalance, Tally, Emitters, WorkerLogged;
    ReachableInv(c, s);
    AllBalanced(c, s);
    AllLogged(c, s);
    PendingBounds(s.log, s.workers);
    BalanceIsTally(s.log);
  }

  lemma AllLogged(c: Config, s: State)
    requires Inv(c, s)
    ensures forall i :: 0 <= i < |s.workers| ==> WorkerLogged(s.log, s.workers[i])
  {
    hide WorkerLogged, Shape, Conserved, Progress, Silent;
  }

  lemma AllBalanced(c: Config, s: State)
    requires Reachable(c, s)
    ensures Balanced(Ledger.Finished, s) && Balanced(Ledger.DeadLetters, s) && Balanced(Ledger.Commits, s)
  {
    hide Run, Balanced, Start;
    var actions, healthy, db :| Earlier(db) && Run(c, Start(c, healthy, db), actions, s);
    forall which: Ledger ensures Balanced(which, s) {
      StartBalanced(c, which, healthy, db);
      BalancedRun(c, which, Start(c, healthy, db), actions, s);
    }
  }

  lemma StartBalanced(c: Config, which: Ledger, healthy: bool, db: map<string, Row>)
    ensures Balanced(which, Start(c, healthy, db))
  {
    PendingIdle(which, c.workerCount);
  }
}
