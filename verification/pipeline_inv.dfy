/** What every step of the consumer keeps. */
module PipelineInv {
  import opened Domain
  import opened Errors
  import opened Worker
  import opened Pipeline

  // ----- Where jobs are -----

  function HeldBy(p: WorkerPhase): multiset<Job> {
    if p.Idle? || p.Exited? then multiset{} else multiset{p.d}
  }

  function Held(ws: seq<WorkerPhase>): multiset<Job> {
    if ws == [] then multiset{} else Held(ws[..|ws| - 1]) + HeldBy(ws[|ws| - 1])
  }

  function AtPoller(p: Poller): seq<Job> {
    if p.Sending? then [p.d] else []
  }

  function FinishedJobs(fs: seq<Finish>): seq<Job> {
    if fs == [] then [] else FinishedJobs(fs[..|fs| - 1]) + [fs[|fs| - 1].d]
  }

  /** The jobs no worker holds. */
  function Elsewhere(s: State): multiset<Job> {
    multiset(s.dropped) + multiset(AtPoller(s.poller)) + multiset(s.queue) + multiset(FinishedJobs(s.finished))
  }

  /** Every place a polled job can be in. */
  function Census(s: State): multiset<Job> {
    Elsewhere(s) + Held(s.workers)
  }

  ghost predicate Numbered(polled: seq<Job>) {
    forall i :: 0 <= i < |polled| ==> polled[i].id == i
  }

  /** Each polled job is in exactly one place. */
  ghost predicate Conserved(s: State) {
    Numbered(s.polled) && Census(s) == multiset(s.polled)
  }

  lemma {:induction false} HeldUpdate(ws: seq<WorkerPhase>, i: nat, p: WorkerPhase)
    requires i < |ws|
    ensures Held(ws[i := p]) + HeldBy(ws[i]) == Held(ws) + HeldBy(p)
  {
    hide HeldBy;
    var n := |ws| - 1;
    var us := ws[i := p];
    if i == n {
      assert us[..n] == ws[..n];
    } else {
      HeldUpdate(ws[..n], i, p);
      assert us[..n] == ws[..n][i := p] && us[n] == ws[n];
      assert Held(us) == Held(us[..n]) + HeldBy(ws[n]);
      assert Held(us) + HeldBy(ws[i]) == (Held(us[..n]) + HeldBy(ws[..n][i])) + HeldBy(ws[n]);
    }
  }

  lemma {:induction false} HeldAtLeast(ws: seq<WorkerPhase>, i: nat)
    requires i < |ws|
    ensures HeldBy(ws[i]) <= Held(ws)
  {
    if i < |ws| - 1 { HeldAtLeast(ws[..|ws| - 1], i); }
  }

  lemma {:induction false} HeldTwice(ws: seq<WorkerPhase>, i: nat, j: nat)
    requires i < j < |ws|
    ensures HeldBy(ws[i]) + HeldBy(ws[j]) <= Held(ws)
  {
    if j < |ws| - 1 {
      HeldTwice(ws[..|ws| - 1], i, j);
    } else {
      HeldAtLeast(ws[..|ws| - 1], i);
    }
  }

  lemma {:induction false} NumberedOnce(polled: seq<Job>, d: Job)
    requires Numbered(polled)
    ensures multiset(polled)[d] <= 1
    ensures d in multiset(polled) ==> d.id < |polled| && polled[d.id] == d
  {
    if polled != [] {
      var n := |polled| - 1;
      NumberedOnce(polled[..n], d);
      assert polled == polled[..n] + [polled[n]];
    }
  }

  lemma {:induction false} FinishedAt(fs: seq<Finish>, k: nat)
    requires k < |fs|
    ensures fs[k].d in FinishedJobs(fs)
    ensures |FinishedJobs(fs)| == |fs| && FinishedJobs(fs)[k] == fs[k].d
  {
    if k < |fs| - 1 {
      FinishedAt(fs[..|fs| - 1], k);
    } else if k > 0 {
      FinishedAt(fs[..|fs| - 1], k - 1);
    }
  }

  /** A job held by a worker is nowhere else. */
  lemma OnlyAtWorker(s: State, w: nat, d: Job)
    requires Conserved(s) && w < |s.workers| && d in HeldBy(s.workers[w])
    ensures d !in s.dropped && d !in s.queue && d !in AtPoller(s.poller)
    ensures forall k :: 0 <= k < |s.finished| ==> s.finished[k].d != d
    ensures forall v :: 0 <= v < |s.workers| && v != w ==> d !in HeldBy(s.workers[v])
    ensures d.id < |s.polled| && s.polled[d.id] == d
  {
    NumberedOnce(s.polled, d);
    HeldAtLeast(s.workers, w);
    assert Census(s)[d] <= 1;
    forall k | 0 <= k < |s.finished| ensures s.finished[k].d != d {
      FinishedAt(s.finished, k);
    }
    forall v | 0 <= v < |s.workers| && v != w ensures d !in HeldBy(s.workers[v]) {
      if v < w { HeldTwice(s.workers, v, w); } else { HeldTwice(s.workers, w, v); }
    }
  }

  /** A job moves between one worker and the other places, or stays. */
  lemma ConservedMove(s: State, t: State, w: nat, p: WorkerPhase)
    requires Conserved(s) && w < |s.workers| && t.workers == s.workers[w := p] && t.polled == s.polled
    requires Elsewhere(t) + HeldBy(p) == Elsewhere(s) + HeldBy(s.workers[w])
    ensures Conserved(t)
  {
    hide Elsewhere, HeldBy, Held, Numbered;
    HeldUpdate(s.workers, w, p);
    MultisetSwap(Elsewhere(s), Elsewhere(t), Held(s.workers), Held(t.workers), HeldBy(s.workers[w]), HeldBy(p));
  }

  lemma MultisetSwap<T>(a: multiset<T>, b: multiset<T>, h: multiset<T>, k: multiset<T>, x: multiset<T>, y: multiset<T>)
    requires b + y == a + x && k + x == h + y
    ensures b + k == a + h
  {
    forall j ensures (b + k)[j] == (a + h)[j] {
      assert (b + y)[j] == (a + x)[j] && (k + x)[j] == (h + y)[j];
    }
  }

  lemma ElsewherePoll(s: State, m: Message)
    requires s.poller.Polling?
    ensures
      var d := Job(|s.polled|, m);
      && Elsewhere(s.(dropped := s.dropped + [d], poller := AtTop)) == Elsewhere(s) + multiset{d}
      && Elsewhere(s.(poller := Sending(d))) == Elsewhere(s) + multiset{d}
  {
  }

  lemma ConservedPoll(c: Config, s: State, m: Message)
    requires Conserved(s) && s.poller.Polling?
    ensures Conserved(Apply(c, s, PollMessage(m)))
  {
    hide Elsewhere;
    var d, t := Job(|s.polled|, m), Apply(c, s, PollMessage(m));
    ElsewherePoll(s, m);
    assert Elsewhere(t) == Elsewhere(s) + multiset{d} by {
      ElsewhereSame(t, if s.paused then s.(dropped := s.dropped + [d], poller := AtTop) else s.(poller := Sending(d)));
    }
    assert multiset(s.polled + [d]) == multiset(s.polled) + multiset{d};
    assert Census(t) == Census(s) + multiset{d};
  }

  lemma ElsewhereSame(s: State, t: State)
    requires s.dropped == t.dropped && AtPoller(s.poller) == AtPoller(t.poller) && s.queue == t.queue
             && s.finished == t.finished
    ensures Elsewhere(s) == Elsewhere(t)
  {
  }

  lemma ConservedEnqueue(c: Config, s: State)
    requires Conserved(s) && Enabled(c, s, Enqueue)
    ensures Conserved(Apply(c, s, Enqueue))
  {
    hide FinishedJobs, Held, Numbered;
    assert multiset(s.queue + [s.poller.d]) == multiset(s.queue) + multiset{s.poller.d};
    assert Elsewhere(Apply(c, s, Enqueue)) == Elsewhere(s);
  }

  lemma ConservedTake(c: Config, s: State, w: nat)
    requires Conserved(s) && Enabled(c, s, Take(w))
    ensures Conserved(Apply(c, s, Take(w)))
  {
    hide FinishedJobs, Held, Conserved;
    assert s.queue == [s.queue[0]] + s.queue[1..];
    ConservedMove(s, Apply(c, s, Take(w)), w, Decoding(s.queue[0]));
  }

  lemma ConservedHandoff(c: Config, s: State, w: nat)
    requires Conserved(s) && Enabled(c, s, Handoff(w))
    ensures Conserved(Apply(c, s, Handoff(w)))
  {
    hide FinishedJobs, Held, Conserved;
    ConservedMove(s, Apply(c, s, Handoff(w)), w, Decoding(s.poller.d));
  }

  lemma ConservedFinish(c: Config, s: State, w: nat)
    requires Conserved(s) && Enabled(c, s, FinishMessage(w))
    ensures Conserved(Apply(c, s, FinishMessage(w)))
  {
    hide Held, Conserved;
    var t := Apply(c, s, FinishMessage(w));
    assert t.finished[..|s.finished|] == s.finished;
    ConservedMove(s, t, w, Idle);
  }

  /** One worker moves on with the job it has, or with none. */
  lemma ConservedInner(s: State, t: State, w: nat, p: WorkerPhase)
    requires Conserved(s) && w < |s.workers| && t.workers == s.workers[w := p] && HeldBy(p) == HeldBy(s.workers[w])
    requires t.polled == s.polled && t.dropped == s.dropped && t.poller == s.poller && t.queue == s.queue
    requires t.finished == s.finished
    ensures Conserved(t)
  {
    hide Conserved, HeldBy;
    ConservedMove(s, t, w, p);
  }

  lemma CallKeepsJob(c: Config, d: Job, results: seq<CallResult>)
    ensures HeldBy(AfterDecode(c, d)) == multiset{d}
    ensures HeldBy(AfterSleep(c, d, results)) == multiset{d}
    ensures forall r :: HeldBy(AfterReturn(d, results, r)) == multiset{d}
  {
    hide Effects, FateOf, IsTransient;
  }

  lemma ConservedCall(c: Config, s: State, a: Action)
    requires Conserved(s) && Enabled(c, s, a) && (a.Decode? || a.Return? || a.Wake?)
    ensures Conserved(Apply(c, s, a))
  {
    hide Effects, FateOf, MayReturn, Conserved, IsTransient, AfterDecode, AfterReturn, AfterSleep;
    CallKeepsJob(c, s.workers[a.w].d, if a.Decode? then [] else s.workers[a.w].results);
    match a
    case Decode(w) => ConservedInner(s, Apply(c, s, a), w, AfterDecode(c, s.workers[w].d));
    case Return(w, r) => ConservedInner(s, Apply(c, s, a), w, AfterReturn(s.workers[w].d, s.workers[w].results, r));
    case Wake(w) => ConservedInner(s, Apply(c, s, a), w, AfterSleep(c, s.workers[w].d, s.workers[w].results));
    case _ =>
  }

  lemma ConservedEffect(c: Config, s: State, a: Action)
    requires Conserved(s) && Enabled(c, s, a) && (a.StoreOrder? || a.Emit? || a.ExitCancelled? || a.ExitClosed?)
    ensures Conserved(Apply(c, s, a))
  {
    hide Effects, Conserved;
    ConservedInner(s, Apply(c, s, a), a.w, Apply(c, s, a).workers[a.w]);
  }

  /** Actions of the poll loop's control, the health checker and the world outside: no job moves. */
  predicate Outer(a: Action) {
    a.Cancel? || a.CheckContext? || a.LoadFirst? || a.PauseDone? || a.LoadSecond? || a.ResumeDone? || a.PollNothing?
    || a.Ping? || a.Load? || a.StoreHealth? || a.StoreElsewhere?
  }

  /** No job is elsewhere than before, and nothing was logged or committed. */
  predicate Unmoved(s: State, t: State) {
    && AtPoller(t.poller) == AtPoller(s.poller) && t.queue == s.queue && t.workers == s.workers && t.log == s.log
    && t.polled == s.polled && t.dropped == s.dropped && t.finished == s.finished
    && t.committed == s.committed && t.acked == s.acked
  }

  lemma OuterKeeps(c: Config, s: State, a: Action)
    requires Enabled(c, s, a) && Outer(a)
    ensures Unmoved(s, Apply(c, s, a))
  {
    hide Enabled, Apply;
    if a.Cancel? || a.Ping? || a.Load? || a.StoreHealth? || a.StoreElsewhere? {
      OutsideKeeps(c, s, a);
    } else {
      ControlKeeps(c, s, a);
    }
  }

  lemma OutsideKeeps(c: Config, s: State, a: Action)
    requires Enabled(c, s, a) && (a.Cancel? || a.Ping? || a.Load? || a.StoreHealth? || a.StoreElsewhere?)
    ensures Unmoved(s, Apply(c, s, a))
  {
    hide Enabled, HealthAfterStore;
  }

  lemma ControlKeeps(c: Config, s: State, a: Action)
    requires Enabled(c, s, a)
    requires a.CheckContext? || a.LoadFirst? || a.PauseDone? || a.LoadSecond? || a.ResumeDone? || a.PollNothing?
    ensures Unmoved(s, Apply(c, s, a))
  {
    hide Enabled;
    NotSending(c, s, a);
  }

  /** The poll loop's control steps begin in phases without a message. */
  lemma NotSending(c: Config, s: State, a: Action)
    requires Enabled(c, s, a)
    ensures a.CheckContext? || a.LoadFirst? || a.PauseDone? || a.LoadSecond? || a.ResumeDone? || a.PollNothing? ==>
              !s.poller.Sending?
  {
  }

  lemma ConservedSame(s: State, t: State)
    requires Conserved(s) && Elsewhere(s) == Elsewhere(t) && s.workers == t.workers && s.polled == t.polled
    ensures Conserved(t)
  {
  }

  lemma ConservedStep(c: Config, s: State, a: Action)
    requires Conserved(s) && Enabled(c, s, a)
    ensures Conserved(Apply(c, s, a))
  {
    hide Enabled, Apply, Conserved, Elsewhere;
    match a
    case PollMessage(m) => PollEnabled(c, s, m); ConservedPoll(c, s, m);
    case Enqueue => ConservedEnqueue(c, s);
    case Take(w) => ConservedTake(c, s, w);
    case Handoff(w) => ConservedHandoff(c, s, w);
    case FinishMessage(w) => ConservedFinish(c, s, w);
    case Decode(_) => ConservedCall(c, s, a);
    case Return(_, _) => ConservedCall(c, s, a);
    case Wake(_) => ConservedCall(c, s, a);
    case StoreOrder(_) => ConservedEffect(c, s, a);
    case Emit(_, _) => ConservedEffect(c, s, a);
    case ExitCancelled(_) => ConservedEffect(c, s, a);
    case ExitClosed(_) => ConservedEffect(c, s, a);
    case _ =>
      OuterKeeps(c, s, a);
      ElsewhereSame(s, Apply(c, s, a));
      ConservedSame(s, Apply(c, s, a));
  }

  lemma PollEnabled(c: Config, s: State, m: Message)
    requires Enabled(c, s, PollMessage(m))
    ensures s.poller.Polling?
  {
  }

  // ----- The shape of a state -----

  ghost predicate Shape(c: Config, s: State) {
    && |s.workers| == c.workerCount
    && |s.queue| <= c.jobBuffer
    && s.paused == s.brokerPaused
    && (s.poller.Pausing? || s.poller.Sending? ==> !s.paused)
    && (s.poller.Resuming? ==> s.paused)
    && (s.poller.Closed? ==> s.cancelled)
    && (forall w :: 0 <= w < |s.workers| && s.workers[w].Exited? ==> s.cancelled)
    && (s.pinger.Loaded? && !s.pinger.was ==> !s.healthy)
  }

  lemma ShapeStep(c: Config, s: State, a: Action)
    requires Shape(c, s) && Enabled(c, s, a)
    ensures Shape(c, Apply(c, s, a))
  {
    hide Effects, FateOf, MayReturn, Is;
  }

  // ----- What workers and finished jobs have done -----

  ghost predicate AllTransient(results: seq<CallResult>) {
    forall i :: 0 <= i < |results| ==> IsTransient(results[i])
  }

  /** A fate agrees with the results of the calls, as the contract of the worker's ProcessMessage says. */
  ghost predicate FateFits(c: Config, d: Job, results: seq<CallResult>, fate: Fate) {
    FateOfMessage(d.msg, ScriptOf(results), 0, |results|, c.maxRetries, fate)
  }

  /** This very job's call stored the order under its uid. */
  predicate OwnStored(db: map<string, Row>, d: Job) {
    Uid(d) in db && db[Uid(d)].storer == Some(d)
  }

  /** Success means this very job's order is the one stored under its uid. */
  ghost predicate StoredIfAccepted(c: Config, db: map<string, Row>, d: Job, fate: Fate) {
    fate == Processed(None) && c.maxRetries >= 1 ==> OwnStored(db, d)
  }

  ghost predicate WorkerOk(c: Config, db: map<string, Row>, p: WorkerPhase) {
    match p
    case Calling(d, results, stored) =>
      && d.msg.decoded.Some? && |results| < c.maxRetries && AllTransient(results)
      && (stored ==> OwnStored(db, d))
    case Sleeping(d, results) =>
      d.msg.decoded.Some? && 0 < |results| <= c.maxRetries && AllTransient(results)
    case Emitting(d, results, fate, _) =>
      FateFits(c, d, results, fate) && StoredIfAccepted(c, db, d, fate)
    case _ => true
  }

  ghost predicate WorkersOk(c: Config, db: map<string, Row>, ws: seq<WorkerPhase>) {
    forall i :: 0 <= i < |ws| ==> WorkerOk(c, db, ws[i])
  }

  ghost predicate FinishedOk(c: Config, db: map<string, Row>, fs: seq<Finish>) {
    forall k :: 0 <= k < |fs| ==>
      FateFits(c, fs[k].d, fs[k].results, fs[k].fate) && StoredIfAccepted(c, db, fs[k].d, fs[k].fate)
  }

  /** Orders are stored under their own uids, and those of a job are that job's. */
  ghost predicate DbOk(db: map<string, Row>) {
    forall uid :: uid in db ==>
      && db[uid].order.orderUID == uid
      && (db[uid].storer.Some? ==> db[uid].storer.value.msg.decoded == Some(db[uid].order))
  }

  /** A store grows. */
  ghost predicate Grows(db: map<string, Row>, db': map<string, Row>) {
    forall uid :: uid in db ==> uid in db' && db'[uid] == db[uid]
  }

  lemma WorkerOkGrows(c: Config, db: map<string, Row>, db': map<string, Row>, p: WorkerPhase)
    requires WorkerOk(c, db, p) && Grows(db, db')
    ensures WorkerOk(c, db', p)
  {
    hide FateFits, AllTransient;
  }

  lemma TransientFits(c: Config, d: Job, results: seq<CallResult>)
    requires d.msg.decoded.Some? && AllTransient(results) && 0 < |results| == c.maxRetries
    ensures FateFits(c, d, results, FateOf(ScriptOf(results), 0, |results|))
    ensures FateOf(ScriptOf(results), 0, |results|) != Processed(None)
  {
    hide Is;
    assert IsTransient(results[|results| - 1]);
  }

  lemma ReturnFits(c: Config, d: Job, results: seq<CallResult>, r: CallResult)
    requires d.msg.decoded.Some? && AllTransient(results) && |results| < c.maxRetries && !IsTransient(r)
    ensures FateFits(c, d, results + [r], FateOfResult(r))
  {
    hide IsTransient;
    var all := results + [r];
    assert forall i :: 0 <= i < |results| ==> ScriptOf(all)(i) == results[i];
  }

  lemma AfterReturnOk(c: Config, db: map<string, Row>, p: WorkerPhase, r: CallResult)
    requires p.Calling? && WorkerOk(c, db, p) && MayReturn(db, p.d, p.stored, r)
    ensures WorkerOk(c, db, AfterReturn(p.d, p.results, r))
  {
    hide IsTransient, Effects, FateFits, Is;
    if !IsTransient(r) {
      ReturnFits(c, p.d, p.results, r);
    }
  }

  lemma AfterSleepOk(c: Config, db: map<string, Row>, p: WorkerPhase)
    requires p.Sleeping? && WorkerOk(c, db, p)
    ensures WorkerOk(c, db, AfterSleep(c, p.d, p.results))
  {
    hide Effects, FateFits, FateOf, AllTransient;
    if |p.results| >= c.maxRetries {
      TransientFits(c, p.d, p.results);
    }
  }

  lemma AfterDecodeOk(c: Config, db: map<string, Row>, d: Job)
    ensures WorkerOk(c, db, AfterDecode(c, d))
  {
    hide Effects;
  }

  lemma WorkersOkUpdate(c: Config, db: map<string, Row>, ws: seq<WorkerPhase>, w: nat, p: WorkerPhase)
    requires WorkersOk(c, db, ws) && w < |ws| && WorkerOk(c, db, p)
    ensures WorkersOk(c, db, ws[w := p])
  {
    hide WorkerOk;
  }

  lemma StoreOrderOk(c: Config, s: State, w: nat)
    requires WorkersOk(c, s.db, s.workers) && FinishedOk(c, s.db, s.finished) && DbOk(s.db)
    requires Enabled(c, s, StoreOrder(w))
    ensures
      var t := Apply(c, s, StoreOrder(w));
      WorkersOk(c, t.db, t.workers) && FinishedOk(c, t.db, t.finished) && DbOk(t.db) && Grows(s.db, t.db)
  {
    hide FateFits, AllTransient;
    var t := Apply(c, s, StoreOrder(w));
    assert WorkerOk(c, s.db, s.workers[w]);
    forall i | 0 <= i < |t.workers| ensures WorkerOk(c, t.db, t.workers[i]) {
      if i != w {
        WorkerOkGrows(c, s.db, t.db, s.workers[i]);
      }
    }
  }

  lemma StoreElsewhereOk(c: Config, s: State, o: Order)
    requires WorkersOk(c, s.db, s.workers) && FinishedOk(c, s.db, s.finished) && DbOk(s.db) && o.orderUID !in s.db
    ensures
      var db := s.db[o.orderUID := Row(o, None)];
      WorkersOk(c, db, s.workers) && FinishedOk(c, db, s.finished) && DbOk(db) && Grows(s.db, db)
  {
    hide FateFits, AllTransient;
    var db := s.db[o.orderUID := Row(o, None)];
    forall i | 0 <= i < |s.workers| ensures WorkerOk(c, db, s.workers[i]) {
      WorkerOkGrows(c, s.db, db, s.workers[i]);
    }
  }

  ghost predicate Progress(c: Config, s: State) {
    WorkersOk(c, s.db, s.workers) && FinishedOk(c, s.db, s.finished) && DbOk(s.db)
  }

  lemma ProgressStep(c: Config, s: State, a: Action)
    requires Progress(c, s) && Enabled(c, s, a)
    ensures Progress(c, Apply(c, s, a)) && Grows(s.db, Apply(c, s, a).db)
  {
    hide WorkersOk, FinishedOk, DbOk, Effects, FateOf, MayReturn, Is, HealthAfterStore, FateFits;
    hide AfterDecode, AfterReturn, AfterSleep;
    var t := Apply(c, s, a);
    match a
    case StoreOrder(w) => StoreOrderOk(c, s, w);
    case Take(w) => WorkersOkUpdate(c, s.db, s.workers, w, t.workers[w]);
    case Handoff(w) => WorkersOkUpdate(c, s.db, s.workers, w, t.workers[w]);
    case ExitCancelled(w) => WorkersOkUpdate(c, s.db, s.workers, w, t.workers[w]);
    case ExitClosed(w) => WorkersOkUpdate(c, s.db, s.workers, w, t.workers[w]);
    case Decode(w) =>
      AfterDecodeOk(c, s.db, s.workers[w].d);
      WorkersOkUpdate(c, s.db, s.workers, w, t.workers[w]);
    case Return(w, r) =>
      WorkerAt(c, s.db, s.workers, w);
      AfterReturnOk(c, s.db, s.workers[w], r);
      WorkersOkUpdate(c, s.db, s.workers, w, t.workers[w]);
    case Wake(w) =>
      WorkerAt(c, s.db, s.workers, w);
      AfterSleepOk(c, s.db, s.workers[w]);
      WorkersOkUpdate(c, s.db, s.workers, w, t.workers[w]);
    case Emit(w, _) =>
      WorkerAt(c, s.db, s.workers, w);
      WorkersOkUpdate(c, s.db, s.workers, w, t.workers[w]);
    case FinishMessage(w) =>
      WorkerAt(c, s.db, s.workers, w);
      WorkersOkUpdate(c, s.db, s.workers, w, t.workers[w]);
      FinishedGrows(c, s.db, s.finished, Finish(s.workers[w].d, s.workers[w].results, s.workers[w].fate));
    case StoreElsewhere(o) => StoreElsewhereOk(c, s, o);
    case _ =>
  }

  lemma WorkerAt(c: Config, db: map<string, Row>, ws: seq<WorkerPhase>, w: nat)
    requires WorkersOk(c, db, ws) && w < |ws|
    ensures WorkerOk(c, db, ws[w])
  {
  }

  lemma FinishedGrows(c: Config, db: map<string, Row>, fs: seq<Finish>, f: Finish)
    requires FinishedOk(c, db, fs) && FateFits(c, f.d, f.results, f.fate) && StoredIfAccepted(c, db, f.d, f.fate)
    ensures FinishedOk(c, db, fs + [f])
  {
    hide FateFits, StoredIfAccepted;
  }

  // ----- The effect log -----

  /** The effects logged for one job, in order. */
  ghost function EffectsOf(log: seq<Event>, d: Job): seq<Effect> {
    if log == [] then [] else
      var init := EffectsOf(log[..|log| - 1], d);
      if log[|log| - 1].d == d then init + [log[|log| - 1].effect] else init
  }

  lemma LogGrows(log: seq<Event>, e: Event, d: Job)
    ensures EffectsOf(log + [e], d) == EffectsOf(log, d) + if e.d == d then [e.effect] else []
  {
    assert (log + [e])[..|log|] == log;
  }

  ghost predicate Silent(log: seq<Event>, js: seq<Job>) {
    forall i :: 0 <= i < |js| ==> EffectsOf(log, js[i]) == []
  }

  /** An emitting worker has logged what it no longer has to do; the others have logged nothing. */
  ghost predicate WorkerLogged(log: seq<Event>, p: WorkerPhase) {
    match p
    case Idle => true
    case Exited => true
    case Emitting(d, _, fate, todo) => EffectsOf(log, d) + todo == Effects(fate)
    case _ => EffectsOf(log, p.d) == []
  }

  ghost predicate Logged(s: State) {
    && (forall i :: 0 <= i < |s.log| ==> s.log[i].d.id < |s.polled|)
    && Silent(s.log, s.dropped) && Silent(s.log, s.queue) && Silent(s.log, AtPoller(s.poller))
    && (forall i :: 0 <= i < |s.workers| ==> WorkerLogged(s.log, s.workers[i]))
    && forall k :: 0 <= k < |s.finished| ==> EffectsOf(s.log, s.finished[k].d) == Effects(s.finished[k].fate)
  }

  lemma {:induction false} UnknownSilent(log: seq<Event>, d: Job, n: nat)
    requires (forall i :: 0 <= i < |log| ==> log[i].d.id < n) && d.id >= n
    ensures EffectsOf(log, d) == []
  {
    if log != [] { UnknownSilent(log[..|log| - 1], d, n); }
  }

  /** One more effect of the job at worker w, which is nowhere else. */
  lemma LoggedEvent(s: State, t: State, w: nat, d: Job)
    requires Logged(s) && w < |s.workers| == |t.workers|
    requires t.polled == s.polled && t.dropped == s.dropped && t.queue == s.queue && t.poller == s.poller
             && t.finished == s.finished
    requires forall j :: j != d ==> EffectsOf(t.log, j) == EffectsOf(s.log, j)
    requires forall i :: 0 <= i < |t.log| ==> t.log[i].d.id < |t.polled|
    requires d !in s.dropped && d !in s.queue && d !in AtPoller(s.poller)
    requires forall k :: 0 <= k < |s.finished| ==> s.finished[k].d != d
    requires forall v :: 0 <= v < |s.workers| && v != w ==> d !in HeldBy(s.workers[v]) && t.workers[v] == s.workers[v]
    requires WorkerLogged(t.log, t.workers[w])
    ensures Logged(t)
  {
    hide Effects, EffectsOf;
    forall i | 0 <= i < |t.workers| ensures WorkerLogged(t.log, t.workers[i]) {
      if i != w { assert WorkerLogged(s.log, s.workers[i]); }
    }
  }

  lemma LoggedEmit(c: Config, s: State, w: nat, ok: bool)
    requires Logged(s) && Conserved(s) && Enabled(c, s, Emit(w, ok))
    ensures Logged(Apply(c, s, Emit(w, ok)))
  {
    hide Effects, Conserved, EffectsOf, Logged;
    var t := Apply(c, s, Emit(w, ok));
    var p := s.workers[w];
    OnlyAtWorker(s, w, p.d);
    LoggedAt(s, w);
    forall d ensures EffectsOf(t.log, d) == EffectsOf(s.log, d) + if p.d == d then [p.todo[0]] else [] {
      LogGrows(s.log, Event(p.d, p.todo[0]), d);
    }
    LoggedEvent(s, t, w, p.d);
  }

  lemma LoggedWorker(s: State, t: State, w: nat, p: WorkerPhase)
    requires Logged(s) && w < |s.workers| && t.workers == s.workers[w := p]
    requires t.log == s.log && t.polled == s.polled && t.dropped == s.dropped && t.finished == s.finished
    requires WorkerLogged(t.log, p) && Silent(t.log, t.queue) && Silent(t.log, AtPoller(t.poller))
    ensures Logged(t)
  {
    hide Effects, EffectsOf, WorkerLogged;
  }

  lemma LoggedAt(s: State, w: nat)
    requires Logged(s) && w < |s.workers|
    ensures WorkerLogged(s.log, s.workers[w])
    ensures forall i :: 0 <= i < |s.log| ==> s.log[i].d.id < |s.polled|
    ensures s.queue != [] ==> EffectsOf(s.log, s.queue[0]) == [] && Silent(s.log, s.queue[1..])
    ensures s.poller.Sending? ==> EffectsOf(s.log, s.poller.d) == []
    ensures Silent(s.log, s.queue) && Silent(s.log, AtPoller(s.poller))
  {
    hide Effects, EffectsOf, WorkerLogged;
    if s.poller.Sending? { assert AtPoller(s.poller)[0] == s.poller.d; }
  }

  lemma LoggedFinish(c: Config, s: State, w: nat)
    requires Logged(s) && Enabled(c, s, FinishMessage(w))
    ensures Logged(Apply(c, s, FinishMessage(w)))
  {
    hide Effects, EffectsOf, Silent;
    assert WorkerLogged(s.log, s.workers[w]);
  }

  lemma LoggedPoll(c: Config, s: State, a: Action)
    requires Logged(s) && Enabled(c, s, a) && (a.PollMessage? || a.Enqueue?)
    ensures Logged(Apply(c, s, a))
  {
    hide Effects, EffectsOf, WorkerLogged;
    if a.PollMessage? { UnknownSilent(s.log, Job(|s.polled|, a.msg), |s.polled|); }
  }

  /** Actions after which the log, the jobs and the workers are as before. */
  lemma LoggedSame(s: State, t: State)
    requires Logged(s) && t.log == s.log && t.polled == s.polled && t.dropped == s.dropped && t.queue == s.queue
    requires AtPoller(t.poller) == AtPoller(s.poller) && t.workers == s.workers && t.finished == s.finished
    ensures Logged(t)
  {
    hide Effects, EffectsOf, WorkerLogged;
  }

  /** A worker takes a job or moves on without logging. */
  lemma LoggedMove(c: Config, s: State, a: Action)
    requires Logged(s) && Enabled(c, s, a)
    requires
      || a.Take? || a.Handoff? || a.ExitCancelled? || a.ExitClosed?
      || a.Decode? || a.StoreOrder? || a.Return? || a.Wake?
    ensures Logged(Apply(c, s, a))
  {
    hide Effects, FateOf, MayReturn, Is, EffectsOf, IsTransient, Logged, Silent;
    var t := Apply(c, s, a);
    LoggedAt(s, a.w);
    SilentNone(s.log);
    LoggedWorker(s, t, a.w, t.workers[a.w]);
  }

  lemma LoggedStep(c: Config, s: State, a: Action)
    requires Logged(s) && Conserved(s) && Enabled(c, s, a)
    ensures Logged(Apply(c, s, a))
  {
    hide Enabled, Apply, Conserved, Logged;
    match a
    case PollMessage(_) => LoggedPoll(c, s, a);
    case Enqueue => LoggedPoll(c, s, a);
    case Emit(w, ok) => LoggedEmit(c, s, w, ok);
    case FinishMessage(w) => LoggedFinish(c, s, w);
    case Take(_) => LoggedMove(c, s, a);
    case Handoff(_) => LoggedMove(c, s, a);
    case ExitCancelled(_) => LoggedMove(c, s, a);
    case ExitClosed(_) => LoggedMove(c, s, a);
    case Decode(_) => LoggedMove(c, s, a);
    case StoreOrder(_) => LoggedMove(c, s, a);
    case Return(_, _) => LoggedMove(c, s, a);
    case Wake(_) => LoggedMove(c, s, a);
    case _ => OuterKeeps(c, s, a); LoggedSame(s, Apply(c, s, a));
  }

  lemma SilentNone(log: seq<Event>)
    ensures Silent(log, [])
  {
  }

  // ----- All together -----

  ghost predicate Inv(c: Config, s: State) {
    Shape(c, s) && Conserved(s) && Progress(c, s) && Logged(s)
  }

  lemma StartInv(c: Config, healthy: bool, db: map<string, Row>)
    requires Earlier(db)
    ensures Inv(c, Start(c, healthy, db))
  {
    AllIdle(c.workerCount);
  }

  lemma {:induction false} AllIdle(n: nat)
    ensures Held(seq(n, _ => Idle)) == multiset{}
  {
    if n > 0 {
      AllIdle(n - 1);
      assert seq(n, _ => Idle)[..n - 1] == seq(n - 1, _ => Idle);
    }
  }

  lemma StepInv(c: Config, s: State, a: Action)
    requires Inv(c, s) && Enabled(c, s, a)
    ensures Inv(c, Apply(c, s, a)) && Grows(s.db, Apply(c, s, a).db)
  {
    hide Enabled, Apply, Shape, Conserved, Progress, Logged;
    ShapeStep(c, s, a);
    ConservedStep(c, s, a);
    ProgressStep(c, s, a);
    LoggedStep(c, s, a);
  }

  lemma {:induction false} RunInv(c: Config, s: State, actions: seq<Action>, t: State)
    requires Inv(c, s) && Run(c, s, actions, t)
    ensures Inv(c, t) && Grows(s.db, t.db)
    decreases |actions|
  {
    hide Enabled, Apply, Inv;
    if actions != [] {
      StepInv(c, s, actions[0]);
      RunInv(c, Apply(c, s, actions[0]), actions[1..], t);
    }
  }

  lemma ReachableInv(c: Config, t: State)
    requires Reachable(c, t)
    ensures Inv(c, t)
  {
    hide Inv, Run;
    var actions, healthy, db :| Earlier(db) && Run(c, Start(c, healthy, db), actions, t);
    StartInv(c, healthy, db);
    RunInv(c, Start(c, healthy, db), actions, t);
  }
}
