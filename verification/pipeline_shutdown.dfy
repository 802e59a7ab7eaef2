/** Shutting the consumer down: after the context is cancelled every schedule ends. */
module PipelineShutdown {
  import opened Domain
  import opened Errors
  import opened Worker
  import opened Pipeline
  import opened PipelineInv
  import opened PipelineHealth

  /** Steps of the poller or of a worker; the others are those of the context, the health checker and other writers. */
  predicate System(a: Action) {
    !a.Cancel? && !a.Ping? && !a.Load? && !a.StoreHealth? && !a.StoreElsewhere?
  }

  function Steps(actions: seq<Action>): nat {
    if actions == [] then 0 else (if System(actions[0]) then 1 else 0) + Steps(actions[1..])
  }

  /** Messages the workers take, off the channel or straight from the poller. */
  function Taken(actions: seq<Action>): nat {
    if actions == [] then 0 else (if actions[0].Take? || actions[0].Handoff? then 1 else 0) + Taken(actions[1..])
  }

  // ----- The measure -----

  /** Retries left after the calls made. */
  function Left(c: Config, calls: nat): nat {
    if calls < c.maxRetries then c.maxRetries - calls else 0
  }

  /** A bound on a worker's steps with a message, from taking it to being idle again, and one to spare. */
  function Quota(c: Config): nat {
    7 + 3 * Left(c, 0)
  }

  function WorkerRank(c: Config, p: WorkerPhase): nat {
    match p
    case Exited => 0
    case Idle => 1
    case Emitting(_, _, _, todo) => 2 + |todo|
    case Sleeping(_, results) => 7 + 3 * Left(c, |results|)
    case Calling(_, results, stored) => 6 + 3 * Left(c, |results|) - if stored then 1 else 0
    case Decoding(_) => Quota(c)
  }

  function PollerRank(c: Config, p: Poller): nat {
    match p
    case Closed => 0
    case AtTop => 1
    case Sending(_) => Quota(c) + 2
    case Polling => Quota(c) + 3
    case Pausing => Quota(c) + 4
    case Resuming => Quota(c) + 4
    case SecondLoad => Quota(c) + 5
    case FirstLoad => Quota(c) + 6
  }

  function WorkersRank(c: Config, ws: seq<WorkerPhase>): nat {
    if ws == [] then 0 else WorkersRank(c, ws[..|ws| - 1]) + WorkerRank(c, ws[|ws| - 1])
  }

  function Measure(c: Config, s: State): nat {
    PollerRank(c, s.poller) + Quota(c) * |s.queue| + WorkersRank(c, s.workers)
  }

  lemma {:induction false} RankUpdate(c: Config, ws: seq<WorkerPhase>, i: nat, p: WorkerPhase)
    requires i < |ws|
    ensures WorkersRank(c, ws[i := p]) == WorkersRank(c, ws) - WorkerRank(c, ws[i]) + WorkerRank(c, p)
  {
    hide WorkerRank;
    var n := |ws| - 1;
    var us := ws[i := p];
    if i == n {
      assert us[..n] == ws[..n];
    } else {
      RankUpdate(c, ws[..n], i, p);
      assert us[..n] == ws[..n][i := p] && us[n] == ws[n];
    }
  }

  lemma EffectsFew(fate: Fate)
    ensures |Effects(fate)| <= 4
  {
    hide Is;
  }

  lemma CallRank(c: Config, db: map<string, Row>, p: WorkerPhase)
    requires WorkerOk(c, db, p)
    ensures p.Decoding? ==> WorkerRank(c, AfterDecode(c, p.d)) < WorkerRank(c, p)
    ensures p.Sleeping? ==> WorkerRank(c, AfterSleep(c, p.d, p.results)) < WorkerRank(c, p)
    ensures p.Calling? ==> forall r :: WorkerRank(c, AfterReturn(p.d, p.results, r)) < WorkerRank(c, p)
  {
    hide Effects, FateOf, IsTransient, FateFits, AllTransient;
    forall fate ensures |Effects(fate)| <= 4 { EffectsFew(fate); }
  }

  /** A worker's own step lowers its rank. */
  lemma WorkerStep(c: Config, s: State, a: Action)
    requires Progress(c, s) && Enabled(c, s, a)
    requires
      || a.Decode? || a.StoreOrder? || a.Return? || a.Wake?
      || a.Emit? || a.FinishMessage? || a.ExitCancelled? || a.ExitClosed?
    ensures Measure(c, Apply(c, s, a)) < Measure(c, s)
  {
    hide MayReturn, WorkerOk, DbOk, FinishedOk, AfterDecode, AfterSleep, AfterReturn;
    hide WorkersRank, PollerRank, Quota, Left;
    WorkerAt(c, s.db, s.workers, a.w);
    CallRank(c, s.db, s.workers[a.w]);
    RankUpdate(c, s.workers, a.w, Apply(c, s, a).workers[a.w]);
  }

  /** Taking a message moves its quota from the channel or the poller to the worker. */
  lemma TakeStep(c: Config, s: State, a: Action)
    requires Enabled(c, s, a) && (a.Take? || a.Handoff? || a.Enqueue?)
    ensures Measure(c, Apply(c, s, a)) < Measure(c, s)
  {
    hide WorkersRank, Left, Quota;
    var t := Apply(c, s, a);
    if !a.Enqueue? {
      RankUpdate(c, s.workers, a.w, t.workers[a.w]);
    }
    QuotaTimes(c, |s.queue|);
    if |s.queue| > 0 { QuotaTimes(c, |s.queue| - 1); }
  }

  lemma QuotaTimes(c: Config, n: nat)
    ensures Quota(c) * (n + 1) == Quota(c) * n + Quota(c)
  {
  }

  lemma PollerStep(c: Config, s: State, a: Action)
    requires s.cancelled && Enabled(c, s, a)
    requires
      || a.CheckContext? || a.LoadFirst? || a.PauseDone? || a.LoadSecond? || a.ResumeDone?
      || a.PollNothing? || a.PollMessage?
    ensures Measure(c, Apply(c, s, a)) < Measure(c, s)
  {
    hide WorkersRank, Left;
  }

  lemma SystemStep(c: Config, s: State, a: Action)
    requires Progress(c, s) && s.cancelled && Enabled(c, s, a) && System(a)
    ensures Measure(c, Apply(c, s, a)) < Measure(c, s)
  {
    hide Progress, Enabled, Apply, Measure;
    match a
    case Take(_) => TakeStep(c, s, a);
    case Handoff(_) => TakeStep(c, s, a);
    case Enqueue => TakeStep(c, s, a);
    case ExitCancelled(_) => WorkerStep(c, s, a);
    case ExitClosed(_) => WorkerStep(c, s, a);
    case Decode(_) => WorkerStep(c, s, a);
    case StoreOrder(_) => WorkerStep(c, s, a);
    case Return(_, _) => WorkerStep(c, s, a);
    case Wake(_) => WorkerStep(c, s, a);
    case Emit(_, _) => WorkerStep(c, s, a);
    case FinishMessage(_) => WorkerStep(c, s, a);
    case _ => PollerStep(c, s, a);
  }

  lemma EnvironmentStep(c: Config, s: State, a: Action)
    requires Enabled(c, s, a) && !System(a)
    ensures
      var t := Apply(c, s, a);
      t.poller == s.poller && t.queue == s.queue && t.workers == s.workers && (s.cancelled ==> t.cancelled)
  {
    hide HealthAfterStore, MayReturn, AfterDecode, AfterReturn, AfterSleep, At;
    match a
    case Cancel =>
    case Ping(_) =>
    case Load =>
    case StoreHealth =>
    case StoreElsewhere(_) =>
    case _ => assert false;
  }

  /** The steps that a worker has a part in. */
  predicate ByWorkers(a: Action) {
    a.Take? || a.Handoff? || a.ExitCancelled? || a.ExitClosed? || a.Decode? || a.StoreOrder? || a.Return? || a.Wake?
    || a.Emit? || a.FinishMessage?
  }

  lemma StaysCancelled(c: Config, s: State, a: Action)
    requires s.cancelled && Enabled(c, s, a)
    ensures Apply(c, s, a).cancelled
  {
    hide Apply, Enabled;
    if ByWorkers(a) {
      WorkerCancelled(c, s, a);
    } else {
      OtherCancelled(c, s, a);
    }
  }

  lemma WorkerCancelled(c: Config, s: State, a: Action)
    requires s.cancelled && Enabled(c, s, a) && ByWorkers(a)
    ensures Apply(c, s, a).cancelled
  {
    hide Enabled, AfterDecode, AfterReturn, AfterSleep;
  }

  lemma OtherCancelled(c: Config, s: State, a: Action)
    requires s.cancelled && Enabled(c, s, a) && (Outer(a) || a.PollMessage? || a.Enqueue?)
    ensures Apply(c, s, a).cancelled
  {
    hide Enabled, HealthAfterStore;
  }

  lemma {:induction false} MeasureRun(c: Config, s: State, actions: seq<Action>, t: State)
    requires Inv(c, s) && s.cancelled && Run(c, s, actions, t)
    ensures Steps(actions) + Measure(c, t) <= Measure(c, s) && t.cancelled
    decreases |actions|
  {
    hide Enabled, Apply, Inv, Measure, System;
    if actions != [] {
      var u := Apply(c, s, actions[0]);
      StepInv(c, s, actions[0]);
      StaysCancelled(c, s, actions[0]);
      MeasureRun(c, u, actions[1..], t);
      if System(actions[0]) {
        InvProgress(c, s);
        SystemStep(c, s, actions[0]);
      } else {
        EnvironmentStep(c, s, actions[0]);
        MeasureSame(c, s, u);
      }
    }
  }

  lemma InvProgress(c: Config, s: State)
    requires Inv(c, s)
    ensures Progress(c, s) && Shape(c, s)
  {
  }

  lemma MeasureSame(c: Config, s: State, t: State)
    requires s.poller == t.poller && s.queue == t.queue && s.workers == t.workers
    ensures Measure(c, s) == Measure(c, t)
  {
  }

  lemma {:induction false} RankBound(c: Config, db: map<string, Row>, ws: seq<WorkerPhase>)
    requires WorkersOk(c, db, ws) && forall i :: 0 <= i < |ws| && ws[i].Emitting? ==> |ws[i].todo| <= 4
    ensures WorkersRank(c, ws) <= Quota(c) * |ws|
  {
    hide WorkerOk;
    if ws != [] {
      var n := |ws| - 1;
      RankBound(c, db, ws[..n]);
      QuotaTimes(c, n);
      WorkerAt(c, db, ws, n);
      RankOfOne(c, db, ws[n]);
    }
  }

  lemma RankOfOne(c: Config, db: map<string, Row>, p: WorkerPhase)
    requires WorkerOk(c, db, p) && (p.Emitting? ==> |p.todo| <= 4)
    ensures WorkerRank(c, p) <= Quota(c)
  {
    hide FateFits, AllTransient;
  }

  lemma TodoFew(c: Config, s: State, w: nat)
    requires Inv(c, s) && w < |s.workers| && s.workers[w].Emitting?
    ensures |s.workers[w].todo| <= 4
  {
    hide Effects, EffectsOf, Conserved, Shape, Progress, Silent;
    assert WorkerLogged(s.log, s.workers[w]);
    EffectsFew(s.workers[w].fate);
  }

  // ----- Who can still move -----

  predicate ByWorker(a: Action, w: nat) {
    match a
    case Take(v) => v == w
    case ExitCancelled(v) => v == w
    case ExitClosed(v) => v == w
    case Decode(v) => v == w
    case StoreOrder(v) => v == w
    case Return(v, _) => v == w
    case Wake(v) => v == w
    case Emit(v, _) => v == w
    case FinishMessage(v) => v == w
    case _ => false
  }

  /** The next step of a worker after cancellation: a call under the ended context fails, unless it just committed. */
  ghost function NextOf(s: State, w: nat): Action
    requires w < |s.workers|
  {
    match s.workers[w]
    case Idle => ExitCancelled(w)
    case Decoding(_) => Decode(w)
    case Calling(_, _, stored) => Return(w, if stored then Nil else Failed(Leaf(ConnectionFailed)))
    case Sleeping(_, _) => Wake(w)
    case Emitting(_, _, _, todo) => if todo != [] then Emit(w, true) else FinishMessage(w)
    case Exited => Cancel
  }

  /** After cancellation a live worker can always take a step of its own, whatever the rest is doing. */
  lemma LiveWorkerCanStep(c: Config, s: State, w: nat)
    requires s.cancelled && w < |s.workers|
    ensures !s.workers[w].Exited? <==> exists a :: ByWorker(a, w) && Enabled(c, s, a)
  {
    if !s.workers[w].Exited? {
      assert ByWorker(NextOf(s, w), w) && Enabled(c, s, NextOf(s, w));
    }
  }

  /** No step of the poller or of a worker is possible. */
  ghost predicate Terminal(c: Config, s: State) {
    forall a :: System(a) ==> !Enabled(c, s, a)
  }

  predicate AllExited(s: State) {
    forall w :: 0 <= w < |s.workers| ==> s.workers[w].Exited?
  }

  predicate Blocked(c: Config, s: State) {
    s.poller.Sending? && |s.queue| >= c.jobBuffer
  }

  ghost function NextOfPoller(s: State): Action {
    match s.poller
    case AtTop => CheckContext
    case FirstLoad => LoadFirst
    case Pausing => PauseDone(true)
    case SecondLoad => LoadSecond
    case Resuming => ResumeDone(true)
    case Polling => PollNothing
    case Sending(_) => Enqueue
    case Closed => Cancel
  }

  /** After cancellation nothing moves iff all workers are gone and the poller is closed or blocked at its send. */
  lemma TerminalExact(c: Config, s: State)
    requires s.cancelled
    ensures Terminal(c, s) <==> AllExited(s) && (s.poller.Closed? || Blocked(c, s))
  {
    if Terminal(c, s) {
      forall w | 0 <= w < |s.workers| ensures s.workers[w].Exited? {
        if !s.workers[w].Exited? {
          assert System(NextOf(s, w)) && Enabled(c, s, NextOf(s, w));
        }
      }
      if !s.poller.Closed? && !Blocked(c, s) {
        assert System(NextOfPoller(s)) && Enabled(c, s, NextOfPoller(s));
      }
    }
  }

  // ----- The main theorems -----

  /**
   Shutdown terminates. From any reachable cancelled state the poller and the workers together take at
   most a number of steps fixed by the configuration and what is queued, whatever the schedule, the
   results and the health checker do.
   */
  lemma ShutdownTerminates(c: Config, s: State, actions: seq<Action>, t: State)
    requires Reachable(c, s) && s.cancelled && Run(c, s, actions, t)
    ensures Steps(actions) <= Quota(c) * (|s.queue| + c.workerCount + 2)
  {
    hide Reachable, Inv, Run;
    ReachableInv(c, s);
    MeasureRun(c, s, actions, t);
    MeasureBound(c, s);
  }

  /** A run that has used up the measure has come to the end of the shutdown. */
  lemma MeasureIsEnough(c: Config, s: State, actions: seq<Action>, t: State)
    requires Reachable(c, s) && s.cancelled && Run(c, s, actions, t)
    ensures Steps(actions) <= Measure(c, s)
    ensures Steps(actions) == Measure(c, s) ==> AllExited(t) && (t.poller.Closed? || Blocked(c, t))
  {
    hide Reachable, Inv, Run, Terminal, AllExited, Blocked;
    ReachableInv(c, s);
    MeasureRun(c, s, actions, t);
    if Steps(actions) == Measure(c, s) {
      RunInv(c, s, actions, t);
      ZeroIsTerminal(c, t);
      TerminalExact(c, t);
    }
  }

  lemma ZeroIsTerminal(c: Config, t: State)
    requires Inv(c, t) && t.cancelled && Measure(c, t) == 0
    ensures Terminal(c, t)
  {
    hide Inv, Enabled, System, Measure;
    InvProgress(c, t);
    forall a | System(a) ensures !Enabled(c, t, a) {
      if Enabled(c, t, a) { SystemStep(c, t, a); }
    }
  }

  lemma MeasureBound(c: Config, s: State)
    requires Inv(c, s)
    ensures Measure(c, s) <= Quota(c) * (|s.queue| + c.workerCount + 2)
  {
    hide Conserved, Logged, WorkersOk, DbOk, FinishedOk, WorkersRank, WorkerOk;
    forall w | 0 <= w < |s.workers| && s.workers[w].Emitting? ensures |s.workers[w].todo| <= 4 {
      TodoFew(c, s, w);
    }
    RankBound(c, s.db, s.workers);
    Spread(Quota(c), |s.queue|, c.workerCount);
  }

  lemma Spread(q: nat, n: nat, m: nat)
    ensures q * (n + m + 2) == q * n + q * m + q + q
  {
  }

  /** A message the poller holds or may still be given. */
  function Coming(p: Poller): nat {
    if p.Closed? || p.AtTop? then 0 else 1
  }

  lemma TakenOne(a: Action)
    ensures Taken([a]) == if a.Take? || a.Handoff? then 1 else 0
  {
    assert [a][1..] == [];
  }

  lemma TakenStep(c: Config, s: State, a: Action)
    requires s.cancelled && Enabled(c, s, a)
    ensures
      var t := Apply(c, s, a);
      Taken([a]) + |t.queue| + Coming(t.poller) <= |s.queue| + Coming(s.poller)
  {
    hide Enabled, Apply, Coming;
    TakenOne(a);
    if a.Take? || a.Handoff? {
      TakersTake(c, s, a);
    } else if ByWorkers(a) {
      OthersRoom(c, s, a);
    } else {
      PollerTakes(c, s, a);
    }
  }

  lemma TakersTake(c: Config, s: State, a: Action)
    requires Enabled(c, s, a) && (a.Take? || a.Handoff?)
    ensures 1 + |Apply(c, s, a).queue| + Coming(Apply(c, s, a).poller) <= |s.queue| + Coming(s.poller)
  {
  }

  lemma PollerTakes(c: Config, s: State, a: Action)
    requires s.cancelled && Enabled(c, s, a) && (Outer(a) || a.PollMessage? || a.Enqueue?)
    ensures |Apply(c, s, a).queue| + Coming(Apply(c, s, a).poller) <= |s.queue| + Coming(s.poller)
  {
    hide Enabled, Apply, Coming;
    if System(a) {
      ControlTakes(c, s, a);
    } else {
      EnvironmentStep(c, s, a);
    }
  }

  lemma ControlTakes(c: Config, s: State, a: Action)
    requires s.cancelled && Enabled(c, s, a) && System(a) && (Outer(a) || a.PollMessage? || a.Enqueue?)
    ensures
      var t := Apply(c, s, a);
      |t.queue| + Coming(t.poller) <= |s.queue| + Coming(s.poller)
  {
    hide At, Uid, MayReturn, AfterDecode, AfterReturn, AfterSleep, HealthAfterStore;
  }

  lemma {:induction false} TakenRun(c: Config, s: State, actions: seq<Action>, t: State)
    requires s.cancelled && Run(c, s, actions, t)
    ensures Taken(actions) + |t.queue| + Coming(t.poller) <= |s.queue| + Coming(s.poller)
    decreases |actions|
  {
    hide Enabled, Apply, Coming;
    if actions != [] {
      TakenStep(c, s, actions[0]);
      StaysCancelled(c, s, actions[0]);
      TakenRun(c, Apply(c, s, actions[0]), actions[1..], t);
      TakenOne(actions[0]);
    }
  }

  /**
   After cancellation workers take at most the messages in the channel and one more, and every message
   still in the channel or at the poller in the end is one they did not take.
   */
  lemma FewTakenAfterCancel(c: Config, s: State, actions: seq<Action>, t: State)
    requires s.cancelled && Run(c, s, actions, t)
    ensures Taken(actions) <= |s.queue| + 1
    ensures Taken(actions) + |t.queue| + |AtPoller(t.poller)| <= |s.queue| + 1
  {
    hide Run, Taken;
    TakenRun(c, s, actions, t);
  }

  // ----- The poller may never close -----

  /** Once nothing can move nothing ever does: a blocked poller stays blocked. */
  lemma {:induction false} TerminalForever(c: Config, s: State, actions: seq<Action>, t: State)
    requires s.cancelled && Terminal(c, s) && Run(c, s, actions, t)
    ensures t.poller == s.poller && t.queue == s.queue && t.workers == s.workers
    ensures Steps(actions) == 0
    decreases |actions|
  {
    hide Enabled, Apply, System, Terminal;
    if actions != [] {
      var u := Apply(c, s, actions[0]);
      NotSystem(c, s, actions[0]);
      EnvironmentStep(c, s, actions[0]);
      TerminalExact(c, s);
      TerminalExact(c, u);
      TerminalForever(c, u, actions[1..], t);
    }
  }

  lemma NotSystem(c: Config, s: State, a: Action)
    requires Terminal(c, s) && Enabled(c, s, a)
    ensures !System(a)
  {
    hide Enabled, System;
  }

  /** A state in which the poll goroutine is stuck in its send for ever, the workers being gone. */
  ghost predicate Hung(c: Config, s: State) {
    s.cancelled && AllExited(s) && Blocked(c, s)
  }

  /** After cancellation no ping succeeds any more: the flag is set, or a check in progress is about to set it. */
  predicate MayBeHealthy(s: State) {
    s.healthy || s.pinger == Pinged(true) || s.pinger == Loaded(true, false)
  }

  /**
   The poller holds a message, or may still be given one that it will want to send: it is not paused, or
   it is resuming, or it has yet to load a flag that may be set by then.
   */
  predicate WillSend(s: State) {
    match s.poller
    case AtTop => false
    case Closed => false
    case FirstLoad => !s.paused || MayBeHealthy(s)
    case SecondLoad => !s.paused || MayBeHealthy(s)
    case Polling => !s.paused
    case _ => true
  }

  lemma HopeStep(c: Config, s: State, a: Action)
    requires s.cancelled && Enabled(c, s, a)
    ensures MayBeHealthy(Apply(c, s, a)) ==> MayBeHealthy(s)
  {
    hide At, Emitted, Uid, MayReturn, AfterDecode, AfterReturn, AfterSleep;
  }

  lemma WorkersRoom(c: Config, s: State, a: Action)
    requires Enabled(c, s, a) && ByWorkers(a)
    ensures
      var t := Apply(c, s, a);
      (t.poller == s.poller || t.poller.AtTop?) && t.paused == s.paused && |t.queue| <= |s.queue|
  {
    hide Enabled, Apply;
    if a.Take? || a.Handoff? {
      TakersRoom(c, s, a);
    } else {
      OthersRoom(c, s, a);
    }
  }

  lemma TakersRoom(c: Config, s: State, a: Action)
    requires Enabled(c, s, a) && (a.Take? || a.Handoff?)
    ensures
      var t := Apply(c, s, a);
      (t.poller == s.poller || t.poller.AtTop?) && t.paused == s.paused && |t.queue| <= |s.queue|
  {
    TakeFromSome(c, s, a);
    hide Enabled;
  }

  /** The step touches neither the poller nor the channel. */
  predicate Apart(s: State, t: State) {
    t.poller == s.poller && t.paused == s.paused && t.queue == s.queue
  }

  lemma OthersRoom(c: Config, s: State, a: Action)
    requires Enabled(c, s, a) && ByWorkers(a) && !a.Take? && !a.Handoff?
    ensures Apart(s, Apply(c, s, a))
  {
    hide Enabled, Apply, Apart;
    if a.Decode? || a.StoreOrder? || a.Return? || a.Wake? {
      CallsRoom(c, s, a);
    } else {
      EffectsRoom(c, s, a);
    }
  }

  lemma CallsRoom(c: Config, s: State, a: Action)
    requires Enabled(c, s, a) && (a.Decode? || a.StoreOrder? || a.Return? || a.Wake?)
    ensures Apart(s, Apply(c, s, a))
  {
    hide Enabled, AfterDecode, AfterReturn, AfterSleep, Uid;
  }

  lemma EffectsRoom(c: Config, s: State, a: Action)
    requires Enabled(c, s, a) && (a.Emit? || a.FinishMessage? || a.ExitCancelled? || a.ExitClosed?)
    ensures Apart(s, Apply(c, s, a))
  {
    hide Enabled;
  }

  lemma TakeFromSome(c: Config, s: State, a: Action)
    requires Enabled(c, s, a)
    ensures a.Take? ==> s.queue != []
  {
  }

  lemma PollerRoom(c: Config, s: State, a: Action)
    requires s.cancelled && Enabled(c, s, a) && (Outer(a) || a.PollMessage? || a.Enqueue?)
    requires (WillSend(s) ==> |s.queue| < c.jobBuffer) && (MayBeHealthy(Apply(c, s, a)) ==> MayBeHealthy(s))
    ensures WillSend(Apply(c, s, a)) ==> |Apply(c, s, a).queue| < c.jobBuffer
  {
    Hopeful(s);
    hide At, Uid, MayReturn, AfterDecode, AfterReturn, AfterSleep, HealthAfterStore, MayBeHealthy;
  }

  lemma RoomStep(c: Config, s: State, a: Action)
    requires s.cancelled && Enabled(c, s, a) && (WillSend(s) ==> |s.queue| < c.jobBuffer)
    ensures WillSend(Apply(c, s, a)) ==> |Apply(c, s, a).queue| < c.jobBuffer
  {
    hide Apply, Enabled, MayBeHealthy;
    HopeStep(c, s, a);
    if ByWorkers(a) {
      WorkersRoom(c, s, a);
    } else {
      PollerRoom(c, s, a);
    }
  }

  lemma Hopeful(s: State)
    ensures s.healthy ==> MayBeHealthy(s)
  {
  }

  lemma {:induction false} RoomRun(c: Config, s: State, actions: seq<Action>, t: State)
    requires s.cancelled && Run(c, s, actions, t) && (WillSend(s) ==> |s.queue| < c.jobBuffer)
    ensures !Blocked(c, t)
    decreases |actions|
  {
    if actions != [] {
      hide Enabled, Apply, WillSend, Blocked;
      RoomStep(c, s, actions[0]);
      StaysCancelled(c, s, actions[0]);
      RoomRun(c, Apply(c, s, actions[0]), actions[1..], t);
    }
  }

  ghost predicate Leads(c: Config, s: State, t: State) {
    exists actions :: Run(c, s, actions, t)
  }

  lemma LeadsNowhere(c: Config, s: State)
    ensures Leads(c, s, s)
  {
    assert Run(c, s, [], s);
  }

  /** A step and a run from there on. */
  lemma LeadsBy(c: Config, s: State, a: Action, t: State)
    requires Enabled(c, s, a) && Leads(c, Apply(c, s, a), t)
    ensures Leads(c, s, t)
  {
    hide Enabled, Apply, Run;
    var actions :| Run(c, Apply(c, s, a), actions, t);
    RunOne(c, s, a);
    RunAppend(c, s, [a], Apply(c, s, a), actions, t);
  }

  lemma LeadsTwice(c: Config, s: State, t: State, u: State)
    requires Leads(c, s, t) && Leads(c, t, u)
    ensures Leads(c, s, u)
  {
    hide Run;
    var xs :| Run(c, s, xs, t);
    var ys :| Run(c, t, ys, u);
    RunAppend(c, s, xs, t, ys, u);
  }

  /** A check in progress whose ping succeeded can set the flag. */
  lemma CanHeal(c: Config, s: State) returns (t: State)
    requires MayBeHealthy(s) && (s.pinger.Loaded? && !s.pinger.was ==> !s.healthy)
    ensures Leads(c, s, t) && t.healthy && t == s.(healthy := true, pinger := t.pinger)
    ensures t == s || t.pinger.Waiting?
  {
    hide Leads, AfterDecode, AfterReturn, AfterSleep, MayReturn, At;
    LeadsNowhere(c, s);
    if s.healthy {
      t := s;
    } else {
      t := s.(healthy := true, pinger := Waiting);
      LeadsNowhere(c, t);
      LeadsBy(c, s.(pinger := Loaded(true, false)), StoreHealth, t);
      if s.pinger == Pinged(true) {
        LeadsBy(c, s, Load, t);
      } else {
        assert s == s.(pinger := Loaded(true, false));
      }
    }
  }

  /** The poller's way to its next send. */
  function SendingAction(s: State): Action {
    match s.poller
    case FirstLoad => LoadFirst
    case Pausing => PauseDone(false)
    case SecondLoad => LoadSecond
    case Resuming => ResumeDone(true)
    case _ => PollMessage(Message(0, 0, None))
  }

  lemma SendingStep(c: Config, s: State)
    requires Shape(c, s) && WillSend(s) && !s.poller.Sending? && (s.poller.SecondLoad? && s.paused ==> s.healthy)
    ensures Enabled(c, s, SendingAction(s))
    ensures
      var t := Apply(c, s, SendingAction(s));
      && Shape(c, t) && WillSend(t) && PollerRank(c, t.poller) < PollerRank(c, s.poller)
      && t.queue == s.queue && t.workers == s.workers && t.db == s.db && t.finished == s.finished
      && t.cancelled == s.cancelled
  {
    hide AfterDecode, AfterReturn, AfterSleep, MayReturn, At, HealthAfterStore, Left;
  }

  /** A poller that will send can come to its send, nothing else having moved. */
  lemma CanSend(c: Config, s: State) returns (t: State)
    requires Shape(c, s) && WillSend(s)
    ensures Leads(c, s, t) && t.poller.Sending?
    ensures t.queue == s.queue && t.workers == s.workers && t.db == s.db && t.finished == s.finished
            && t.cancelled == s.cancelled
    decreases PollerRank(c, s.poller)
  {
    hide Leads, Enabled, Apply, SendingAction;
    LeadsNowhere(c, s);
    if s.poller.Sending? {
      t := s;
    } else {
      var u := s;
      if s.poller.SecondLoad? && s.paused {
        HealingShape(c, s);
        u := CanHeal(c, s);
      }
      SendingStep(c, u);
      t := CanSend(c, Apply(c, u, SendingAction(u)));
      LeadsBy(c, u, SendingAction(u), t);
      LeadsTwice(c, s, u, t);
    }
  }

  lemma HealingShape(c: Config, s: State)
    requires Shape(c, s) && WillSend(s) && s.poller.SecondLoad? && s.paused
    ensures MayBeHealthy(s) && (s.pinger.Loaded? && !s.pinger.was ==> !s.healthy)
  {
  }

  lemma NextEnabled(c: Config, s: State, w: nat)
    requires s.cancelled && w < |s.workers| && !s.workers[w].Exited?
    ensures
      var a := NextOf(s, w);
      Enabled(c, s, a) && (a.ExitCancelled? || a.Decode? || a.Return? || a.Wake? || a.Emit? || a.FinishMessage?)
  {
  }

  lemma WorkerAlone(c: Config, s: State, a: Action)
    requires Enabled(c, s, a) && (a.ExitCancelled? || a.Decode? || a.Return? || a.Wake? || a.Emit? || a.FinishMessage?)
    ensures Apply(c, s, a).poller == s.poller && Apply(c, s, a).queue == s.queue
            && Apply(c, s, a).cancelled == s.cancelled
  {
    hide AfterDecode, AfterReturn, AfterSleep, MayReturn;
  }

  lemma RankLower(c: Config, s: State, t: State)
    requires Measure(c, t) < Measure(c, s) && t.poller == s.poller && t.queue == s.queue
    ensures WorkersRank(c, t.workers) < WorkersRank(c, s.workers)
  {
  }

  /** The workers can all leave while the poller is at its send. */
  lemma CanExit(c: Config, s: State) returns (t: State)
    requires Progress(c, s) && s.cancelled && Blocked(c, s)
    ensures Leads(c, s, t) && Hung(c, t)
    decreases WorkersRank(c, s.workers)
  {
    hide Leads, Enabled, Apply, NextOf, Measure, Progress, WorkersRank;
    if AllExited(s) {
      LeadsNowhere(c, s);
      t := s;
    } else {
      var w: nat :| w < |s.workers| && !s.workers[w].Exited?;
      var a := NextOf(s, w);
      NextEnabled(c, s, w);
      var u := Apply(c, s, a);
      WorkerStep(c, s, a);
      WorkerAlone(c, s, a);
      ProgressStep(c, s, a);
      RankLower(c, s, u);
      t := CanExit(c, u);
      LeadsBy(c, s, a, t);
    }
  }

  /**
   After cancellation every complete shutdown closes the channel, unless the channel is full and the
   poller still has, or may be given, a message to send: then some schedule leaves it in that send for
   ever, all workers gone.
   */
  lemma ChannelClosesExactly(c: Config, s: State)
    requires Reachable(c, s) && s.cancelled
    ensures (forall t :: Leads(c, s, t) && Terminal(c, t) ==> t.poller.Closed?) <==>
            !(WillSend(s) && |s.queue| == c.jobBuffer)
  {
    hide Reachable, WillSend, Terminal, Blocked, Leads, Conserved, Logged, Progress, Hung, Shape;
    ReachableInv(c, s);
    FullExactly(c, s);
    if WillSend(s) && |s.queue| >= c.jobBuffer {
      var u := CanSend(c, s);
      ProgressSame(c, s, u);
      SendingFull(c, u);
      var t := CanExit(c, u);
      LeadsTwice(c, s, u, t);
      HungIs(c, t);
    } else {
      forall t | Leads(c, s, t) && Terminal(c, t) ensures t.poller.Closed? {
        RoomLeads(c, s, t);
        TerminalExact(c, t);
      }
    }
  }

  lemma FullExactly(c: Config, s: State)
    requires Shape(c, s)
    ensures |s.queue| <= c.jobBuffer
  {
  }

  lemma ProgressSame(c: Config, s: State, t: State)
    requires Progress(c, s) && s.db == t.db && s.workers == t.workers && s.finished == t.finished
    ensures Progress(c, t)
  {
  }

  lemma SendingFull(c: Config, s: State)
    requires s.poller.Sending? && |s.queue| >= c.jobBuffer
    ensures Blocked(c, s)
  {
  }

  lemma HungIs(c: Config, t: State)
    requires Hung(c, t)
    ensures Terminal(c, t) && !t.poller.Closed?
  {
    hide Terminal;
    TerminalExact(c, t);
  }

  lemma RoomLeads(c: Config, s: State, t: State)
    requires s.cancelled && (WillSend(s) ==> |s.queue| < c.jobBuffer) && Leads(c, s, t)
    ensures !Blocked(c, t) && t.cancelled
  {
    hide Run, WillSend, Blocked;
    var actions :| Run(c, s, actions, t);
    RoomRun(c, s, actions, t);
    CancelledRun(c, s, actions, t);
  }

  lemma {:induction false} CancelledRun(c: Config, s: State, actions: seq<Action>, t: State)
    requires s.cancelled && Run(c, s, actions, t)
    ensures t.cancelled
    decreases |actions|
  {
    hide Enabled, Apply;
    if actions != [] {
      StaysCancelled(c, s, actions[0]);
      CancelledRun(c, Apply(c, s, actions[0]), actions[1..], t);
    }
  }

  /**
   It happens: whatever the message, a reachable run leaves the only worker gone and the poll goroutine
   stuck in its send on the unbuffered channel.
   */
  lemma PollerMayBlock(m: Message, maxRetries: int) returns (s: State)
    ensures
      var c := Config(0, 1, maxRetries);
      Reachable(c, s) && s.cancelled && Terminal(c, s) && AllExited(s) && !s.poller.Closed?
  {
    hide Run, Reachable, Terminal;
    var c := Config(0, 1, maxRetries);
    var s3 := Polls(c, m);
    s := s3.(cancelled := true, workers := s3.workers[0 := Exited]);
    CancelThenExit(c, s3);
    TerminalExact(c, s);
  }

  lemma Polls(c: Config, m: Message) returns (s: State)
    requires c.workerCount == 1
    ensures Reachable(c, s) && s.poller.Sending? && s.workers == [Idle] && !s.cancelled && s.queue == []
  {
    hide Run, Reachable;
    StartReachable(c, true, map[]);
    var s1 := Then(c, Start(c, true, map[]), CheckContext);
    var s2 := Then(c, s1, LoadFirst);
    var s3 := Then(c, s2, LoadSecond);
    s := Then(c, s3, PollMessage(m));
  }

  lemma CancelThenExit(c: Config, s: State)
    requires Reachable(c, s) && s.workers == [Idle] && !s.cancelled
    ensures Reachable(c, s.(cancelled := true, workers := s.workers[0 := Exited]))
  {
    hide Run, Reachable;
    var t := Then(c, s, Cancel);
    var u := Then(c, t, ExitCancelled(0));
  }

  lemma StartReachable(c: Config, healthy: bool, db: map<string, Row>)
    requires Earlier(db)
    ensures Reachable(c, Start(c, healthy, db))
  {
    hide Start;
    assert Run(c, Start(c, healthy, db), [], Start(c, healthy, db));
  }

  /** One more step from a reachable state. */
  lemma Then(c: Config, s: State, a: Action) returns (t: State)
    requires Reachable(c, s) && Enabled(c, s, a)
    ensures t == Apply(c, s, a) && Reachable(c, t)
  {
    hide Enabled, Apply, Start, Run;
    t := Apply(c, s, a);
    var actions, healthy, db :| Earlier(db) && Run(c, Start(c, healthy, db), actions, s);
    RunOne(c, s, a);
    RunAppend(c, Start(c, healthy, db), actions, s, [a], t);
  }
}
