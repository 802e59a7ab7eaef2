/** What a committed offset says about the messages below it. */
module PipelineWatermark {
  import opened Domain
  import opened Errors
  import opened Worker
  import opened Pipeline
  import opened PipelineInv

  ghost predicate DeadLettered(log: seq<Event>, d: Job) {
    exists i :: 0 <= i < |log| && log[i].d == d && log[i].effect.Produce?
  }

  /** The very order of this job is stored, by this job's call or by another's. */
  predicate SameStored(db: map<string, Row>, d: Job) {
    Uid(d) in db && d.msg.decoded == Some(db[Uid(d)].order)
  }

  /** Nothing more is owed for a job: it is no order, its order is stored, or the dead-letter topic was tried. */
  ghost predicate Settled(s: State, d: Job) {
    d.msg.decoded == None || SameStored(s.db, d) || DeadLettered(s.log, d)
  }

  predicate Exhausted(fate: Fate) {
    fate.Processed? && fate.error.Some? && Root(fate.error.value) == ConnectionFailed
  }

  /** Polled and let go: dropped by the paused poller, or given up after the last connection failure. */
  ghost predicate Abandoned(s: State, d: Job) {
    d in s.dropped || exists k :: 0 <= k < |s.finished| && s.finished[k].d == d && Exhausted(s.finished[k].fate)
  }

  ghost predicate InFlight(s: State, d: Job) {
    d in AtPoller(s.poller) || d in s.queue || d in Held(s.workers)
  }

  lemma {:induction false} EffectLogged(log: seq<Event>, d: Job, e: Effect)
    requires e in EffectsOf(log, d)
    ensures exists i :: 0 <= i < |log| && log[i] == Event(d, e)
  {
    var n := |log| - 1;
    if log[n].d == d && log[n].effect == e {
      assert log[n] == Event(d, e);
    } else {
      EffectLogged(log[..n], d, e);
      var i :| 0 <= i < |log[..n]| && log[..n][i] == Event(d, e);
      assert log[i] == Event(d, e);
    }
  }

  lemma {:induction false} LoggedEffect(log: seq<Event>, i: nat)
    requires i < |log|
    ensures log[i].effect in EffectsOf(log, log[i].d)
  {
    if i < |log| - 1 {
      LoggedEffect(log[..|log| - 1], i);
    }
  }

  lemma {:induction false} FinishedIndex(fs: seq<Finish>, d: Job) returns (k: nat)
    requires d in FinishedJobs(fs)
    ensures k < |fs| && fs[k].d == d
  {
    if fs[|fs| - 1].d == d {
      k := |fs| - 1;
    } else {
      k := FinishedIndex(fs[..|fs| - 1], d);
    }
  }

  /** A dead-letter send is among the effects of every fate but the four that need none. */
  lemma ProduceAmongEffects(fate: Fate)
    requires fate != Undecodable && fate != Processed(None) && !Exhausted(fate)
    ensures |Effects(fate)| >= 2 && exists i :: 0 <= i < |Effects(fate)| && Effects(fate)[i].Produce?
  {
    if fate.Crashed? {
      assert Effects(fate)[1].Produce?;
    } else {
      IsRoot(fate.error.value, ConnectionFailed);
      assert Effects(fate)[2].Produce?;
    }
  }

  lemma FinishedIsSettled(c: Config, s: State, k: nat)
    requires Inv(c, s) && c.maxRetries >= 1 && k < |s.finished| && !Exhausted(s.finished[k].fate)
    ensures Settled(s, s.finished[k].d)
  {
    hide EffectsOf, Effects, Root, Conserved, Shape, FateOf, RetriedTo;
    var f := s.finished[k];
    assert FateFits(c, f.d, f.results, f.fate) && StoredIfAccepted(c, s.db, f.d, f.fate);
    if f.fate != Undecodable && f.fate != Processed(None) {
      ProduceAmongEffects(f.fate);
      var i :| 0 <= i < |Effects(f.fate)| && Effects(f.fate)[i].Produce?;
      assert EffectsOf(s.log, f.d) == Effects(f.fate);
      EffectLogged(s.log, f.d, Effects(f.fate)[i]);
    } else if f.fate == Undecodable {
      FateUndecodable(c, f.d, f.results);
    }
  }

  lemma FateUndecodable(c: Config, d: Job, results: seq<CallResult>)
    requires FateFits(c, d, results, Undecodable)
    ensures d.msg.decoded == None
  {
  }

  /** At any moment each polled job is settled, in flight, or abandoned. */
  lemma SettledOrNot(c: Config, s: State, d: Job)
    requires Reachable(c, s) && c.maxRetries >= 1 && d in s.polled
    ensures Settled(s, d) || InFlight(s, d) || Abandoned(s, d)
  {
    hide Reachable, Settled, Logged, Progress, Exhausted;
    ReachableInv(c, s);
    assert d in multiset(s.polled);
    assert d in Census(s);
    if d in multiset(FinishedJobs(s.finished)) {
      var k := FinishedIndex(s.finished, d);
      if !Exhausted(s.finished[k].fate) { FinishedIsSettled(c, s, k); }
    }
  }

  /** What was done about an abandoned job: nothing, or the mark. */
  lemma AbandonedEffects(c: Config, s: State, d: Job)
    requires Inv(c, s) && Abandoned(s, d)
    ensures EffectsOf(s.log, d) == [] || EffectsOf(s.log, d) == [CountProcessed(Erroneous), MarkUnhealthy]
  {
    hide Conserved, Shape, Progress, Effects, EffectsOf, Exhausted;
    if d in s.dropped {
      var k :| 0 <= k < |s.dropped| && s.dropped[k] == d;
      assert EffectsOf(s.log, s.dropped[k]) == [];
    } else {
      var k :| 0 <= k < |s.finished| && s.finished[k].d == d && Exhausted(s.finished[k].fate);
      assert EffectsOf(s.log, s.finished[k].d) == Effects(s.finished[k].fate);
      ExhaustedEffects(s.finished[k].fate);
    }
  }

  /** An abandoned job never had a dead-letter send: only its order being stored can settle it. */
  lemma AbandonedSettledExactly(c: Config, s: State, d: Job)
    requires Reachable(c, s) && Abandoned(s, d)
    ensures !DeadLettered(s.log, d)
    ensures Settled(s, d) <==> d.msg.decoded == None || SameStored(s.db, d)
  {
    hide Reachable, Inv, EffectsOf, SameStored, Abandoned;
    ReachableInv(c, s);
    AbandonedEffects(c, s, d);
    forall i | 0 <= i < |s.log| && s.log[i].d == d ensures s.log[i].effect in EffectsOf(s.log, d) {
      LoggedEffect(s.log, i);
    }
  }

  lemma ExhaustedEffects(fate: Fate)
    requires Exhausted(fate)
    ensures Effects(fate) == [CountProcessed(Erroneous), MarkUnhealthy]
  {
    IsRoot(fate.error.value, InvalidOrder);
    IsRoot(fate.error.value, AlreadyExists);
    IsRoot(fate.error.value, ConnectionFailed);
  }

  // ----- The committed offset -----

  /** The offset that the successful commits, in order, leave for a partition. */
  function OffsetAfter(acked: seq<Job>, partition: nat): Option<nat> {
    if acked == [] then None
    else if acked[|acked| - 1].msg.partition == partition then Some(acked[|acked| - 1].msg.offset + 1)
    else OffsetAfter(acked[..|acked| - 1], partition)
  }

  ghost predicate OffsetsAsAcked(s: State) {
    forall p: nat :: OffsetAfter(s.acked, p) == if p in s.committed then Some(s.committed[p]) else None
  }

  /** The last successful commit of the job's partition was for the job's offset or a later one. */
  ghost predicate Passed(s: State, d: Job) {
    exists i :: LastCommit(s, i, d.msg.partition) && d.msg.offset <= s.acked[i].msg.offset
  }

  ghost predicate LastCommit(s: State, i: int, partition: nat) {
    && 0 <= i < |s.acked| && s.acked[i].msg.partition == partition
    && forall j :: i < j < |s.acked| ==> s.acked[j].msg.partition != partition
  }

  lemma {:induction false} PassedExactly(s: State, acked: seq<Job>, d: Job)
    requires acked <= s.acked && forall j :: |acked| <= j < |s.acked| ==> s.acked[j].msg.partition != d.msg.partition
    ensures
      var o := OffsetAfter(acked, d.msg.partition);
      Passed(s, d) <==> o.Some? && d.msg.offset < o.value
  {
    if acked != [] {
      var n := |acked| - 1;
      if acked[n].msg.partition == d.msg.partition {
        assert LastCommit(s, n, d.msg.partition) && s.acked[n] == acked[n];
      } else {
        PassedExactly(s, acked[..n], d);
      }
    }
  }

  // ----- First in, first out -----

  predicate Busy(p: WorkerPhase) {
    !p.Idle? && !p.Exited?
  }

  function Waiting(s: State): seq<Job> {
    s.queue + AtPoller(s.poller)
  }

  ghost predicate Ascending(js: seq<Job>) {
    forall i, j :: 0 <= i < j < |js| ==> js[i].id < js[j].id
  }

  /** A job that was polled before all that wait, and is no longer waiting. */
  ghost predicate Ahead(s: State, d: Job) {
    d.id < |s.polled| && forall i :: 0 <= i < |Waiting(s)| ==> d.id < Waiting(s)[i].id
  }

  /** Jobs wait in polling order, behind those that workers hold and those committed. */
  ghost predicate Fifo(s: State) {
    && Ascending(Waiting(s))
    && (forall i :: 0 <= i < |Waiting(s)| ==> Waiting(s)[i].id < |s.polled|)
    && (forall w :: 0 <= w < |s.workers| && Busy(s.workers[w]) ==> Ahead(s, s.workers[w].d))
    && (forall i :: 0 <= i < |s.acked| ==> Ahead(s, s.acked[i]) && s.polled[s.acked[i].id] == s.acked[i])
  }

  ghost predicate Tracked(s: State) {
    OffsetsAsAcked(s) && Fifo(s)
  }

  /** One worker moves on; the jobs that wait are as before. */
  lemma FifoWorker(s: State, t: State, w: nat, p: WorkerPhase)
    requires Fifo(s) && w < |s.workers| && t.workers == s.workers[w := p]
    requires Busy(p) ==> Busy(s.workers[w]) && p.d == s.workers[w].d
    requires Waiting(t) == Waiting(s) && t.polled == s.polled && t.acked == s.acked
    ensures Fifo(t)
  {
    hide Waiting, Ascending;
    forall d | Ahead(s, d) ensures Ahead(t, d) {
    }
  }

  lemma FifoSame(s: State, t: State)
    requires Fifo(s) && Waiting(t) == Waiting(s) && t.workers == s.workers && t.polled == s.polled && t.acked == s.acked
    ensures Fifo(t)
  {
    hide Waiting, Ascending;
    forall d | Ahead(s, d) ensures Ahead(t, d) {
    }
  }

  lemma FifoPoll(c: Config, s: State, m: Message)
    requires Fifo(s) && s.poller.Polling?
    ensures Fifo(Apply(c, s, PollMessage(m)))
  {
    hide Busy;
    var d, t := Job(|s.polled|, m), Apply(c, s, PollMessage(m));
    assert Waiting(s) == s.queue && Waiting(t) == if s.paused then s.queue else s.queue + [d];
    forall j | Ahead(s, j) ensures Ahead(t, j) {
    }
  }

  /** The first that waits goes to a worker. */
  lemma FifoTake(s: State, t: State, w: nat)
    requires Fifo(s) && Waiting(s) != [] && w < |s.workers|
    requires t.workers == s.workers[w := Decoding(Waiting(s)[0])] && Waiting(t) == Waiting(s)[1..]
    requires t.polled == s.polled && t.acked == s.acked
    ensures Fifo(t)
  {
    hide Waiting;
    var d := Waiting(s)[0];
    forall j | Ahead(s, j) ensures Ahead(t, j) {
      forall i | 0 <= i < |Waiting(t)| ensures j.id < Waiting(t)[i].id {
        assert Waiting(t)[i] == Waiting(s)[i + 1];
      }
    }
    assert Ahead(t, d);
    forall i, j | 0 <= i < j < |Waiting(t)| ensures Waiting(t)[i].id < Waiting(t)[j].id {
      assert Waiting(t)[i] == Waiting(s)[i + 1] && Waiting(t)[j] == Waiting(s)[j + 1];
    }
  }

  /** A job that a worker holds is committed. */
  lemma FifoAcked(s: State, t: State, w: nat)
    requires Fifo(s) && w < |s.workers| && Busy(s.workers[w])
    requires s.workers[w].d.id < |s.polled| && s.polled[s.workers[w].d.id] == s.workers[w].d
    requires t == s.(acked := s.acked + [s.workers[w].d])
    ensures Fifo(t)
  {
    hide Ascending, AtPoller;
    assert Waiting(t) == Waiting(s);
    hide Waiting;
    forall j | Ahead(s, j) ensures Ahead(t, j) {
    }
  }

  lemma FifoEmit(c: Config, s: State, w: nat, ok: bool)
    requires Fifo(s) && Conserved(s) && Enabled(c, s, Emit(w, ok))
    ensures Fifo(Apply(c, s, Emit(w, ok)))
  {
    var t := Apply(c, s, Emit(w, ok));
    hide Fifo, Conserved, Waiting;
    var u := s.(acked := s.acked + [s.workers[w].d]);
    JobPolled(s, w);
    FifoAcked(s, u, w);
    WaitingSame(s, t);
    WaitingSame(u, t);
    if t.acked == s.acked {
      FifoWorker(s, t, w, t.workers[w]);
    } else {
      FifoWorker(u, t, w, t.workers[w]);
    }
  }

  lemma WaitingSame(s: State, t: State)
    requires s.queue == t.queue && AtPoller(s.poller) == AtPoller(t.poller)
    ensures Waiting(s) == Waiting(t)
  {
  }

  lemma JobPolled(s: State, w: nat)
    requires Conserved(s) && w < |s.workers| && Busy(s.workers[w])
    ensures s.workers[w].d.id < |s.polled| && s.polled[s.workers[w].d.id] == s.workers[w].d
  {
    hide Conserved;
    OnlyAtWorker(s, w, s.workers[w].d);
  }

  lemma WorkerSame(c: Config, s: State, a: Action)
    requires Enabled(c, s, a)
    requires a.ExitCancelled? || a.ExitClosed? || a.Decode? || a.StoreOrder? || a.Return? || a.Wake? || a.FinishMessage?
    ensures
      var t := Apply(c, s, a);
      && t.queue == s.queue && t.poller == s.poller && t.polled == s.polled && t.acked == s.acked
      && t.committed == s.committed && a.w < |s.workers| && t.workers == s.workers[a.w := t.workers[a.w]]
      && (Busy(t.workers[a.w]) ==> Busy(s.workers[a.w]) && t.workers[a.w].d == s.workers[a.w].d)
  {
    hide Effects, FateOf, IsTransient, MayReturn;
  }

  lemma FifoStep(c: Config, s: State, a: Action)
    requires Fifo(s) && Conserved(s) && Enabled(c, s, a)
    ensures Fifo(Apply(c, s, a))
  {
    hide Fifo, Conserved, MayReturn, AfterDecode, AfterReturn, AfterSleep, HealthAfterStore, Busy;
    var t := Apply(c, s, a);
    if Outer(a) {
      OuterKeeps(c, s, a);
      WaitingSame(s, t);
      FifoSame(s, t);
    } else if a.PollMessage? {
      FifoPoll(c, s, a.msg);
    } else if a.Enqueue? {
      assert Waiting(t) == Waiting(s);
      FifoSame(s, t);
    } else if a.Take? || a.Handoff? {
      assert Waiting(t) == Waiting(s)[1..];
      FifoTake(s, t, a.w);
    } else if a.Emit? {
      FifoEmit(c, s, a.w, a.ok);
    } else {
      WorkerSame(c, s, a);
      WaitingSame(s, t);
      FifoWorker(s, t, a.w, t.workers[a.w]);
    }
  }

  lemma OffsetsEmit(c: Config, s: State, w: nat, ok: bool)
    requires OffsetsAsAcked(s) && Enabled(c, s, Emit(w, ok))
    ensures OffsetsAsAcked(Apply(c, s, Emit(w, ok)))
  {
    var d, t := s.workers[w].d, Apply(c, s, Emit(w, ok));
    assert (s.acked + [d])[..|s.acked|] == s.acked;
    forall p: nat ensures OffsetAfter(t.acked, p) == if p in t.committed then Some(t.committed[p]) else None {
      assert OffsetAfter(s.acked, p) == if p in s.committed then Some(s.committed[p]) else None;
    }
  }

  lemma MovesCommitNothing(c: Config, s: State, a: Action)
    requires Enabled(c, s, a) && (a.PollMessage? || a.Enqueue? || a.Take? || a.Handoff?)
    ensures Apply(c, s, a).committed == s.committed && Apply(c, s, a).acked == s.acked
  {
    hide Enabled;
  }

  lemma OffsetsStep(c: Config, s: State, a: Action)
    requires OffsetsAsAcked(s) && Enabled(c, s, a)
    ensures OffsetsAsAcked(Apply(c, s, a))
  {
    hide Enabled, Apply, OffsetAfter;
    if a.Emit? {
      OffsetsEmit(c, s, a.w, a.ok);
    } else if Outer(a) {
      OuterKeeps(c, s, a);
    } else if a.PollMessage? || a.Enqueue? || a.Take? || a.Handoff? {
      MovesCommitNothing(c, s, a);
    } else {
      WorkerSame(c, s, a);
    }
  }

  lemma {:induction false} TrackedRun(c: Config, s: State, actions: seq<Action>, t: State)
    requires Inv(c, s) && Tracked(s) && Run(c, s, actions, t)
    ensures Tracked(t)
    decreases |actions|
  {
    hide Enabled, Apply, OffsetsAsAcked, Fifo, Shape, Conserved, Progress, Logged;
    if actions != [] {
      StepInv(c, s, actions[0]);
      FifoStep(c, s, actions[0]);
      OffsetsStep(c, s, actions[0]);
      TrackedRun(c, Apply(c, s, actions[0]), actions[1..], t);
    }
  }

  lemma StartTracked(c: Config, healthy: bool, db: map<string, Row>)
    ensures Tracked(Start(c, healthy, db))
  {
    hide Ahead, Ascending;
    assert Waiting(Start(c, healthy, db)) == [];
    NoneAscending();
  }

  lemma NoneAscending()
    ensures Ascending([])
  {
  }

  lemma ReachableTracked(c: Config, s: State)
    requires Reachable(c, s)
    ensures Tracked(s)
  {
    hide Run, Inv, Start, Tracked;
    var actions, healthy, db :| Earlier(db) && Run(c, Start(c, healthy, db), actions, s);
    StartInv(c, healthy, db);
    StartTracked(c, healthy, db);
    TrackedRun(c, Start(c, healthy, db), actions, s);
  }

  /** The jobs whose commits succeeded in a run, in order. */
  ghost function Acks(c: Config, s: State, actions: seq<Action>): seq<Job>
    decreases |actions|
  {
    if actions == [] || !Enabled(c, s, actions[0]) then []
    else AckOf(s, actions[0]) + Acks(c, Apply(c, s, actions[0]), actions[1..])
  }

  function AckOf(s: State, a: Action): seq<Job> {
    if a.Emit? && a.ok && At(s, a.w) && s.workers[a.w].Emitting? && s.workers[a.w].todo != []
       && s.workers[a.w].todo[0] == Commit
    then [s.workers[a.w].d]
    else []
  }

  lemma AckStep(c: Config, s: State, a: Action)
    requires Enabled(c, s, a)
    ensures Apply(c, s, a).acked == s.acked + AckOf(s, a)
    ensures AckOf(s, a) == [] ==> Apply(c, s, a).committed == s.committed
  {
    hide Apply, Enabled, AckOf;
    if a.Emit? {
      EmitAcks(c, s, a.w, a.ok);
    } else {
      NoAck(s, a);
      if Outer(a) {
        OuterKeeps(c, s, a);
      } else if a.PollMessage? || a.Enqueue? || a.Take? || a.Handoff? {
        MovesCommitNothing(c, s, a);
      } else {
        WorkerSame(c, s, a);
      }
    }
  }

  lemma NoAck(s: State, a: Action)
    requires !a.Emit?
    ensures AckOf(s, a) == []
  {
  }

  lemma EmitAcks(c: Config, s: State, w: nat, ok: bool)
    requires Enabled(c, s, Emit(w, ok))
    ensures
      var t, acks := Apply(c, s, Emit(w, ok)), AckOf(s, Emit(w, ok));
      t.acked == s.acked + acks && (acks == [] ==> t.committed == s.committed)
  {
  }

  /**
   Over any run the commits on record are those the broker acknowledged, in order; a commit that failed leaves
   the record and the committed offsets alone.
   */
  lemma {:induction false} AckedExactly(c: Config, s: State, actions: seq<Action>, t: State)
    requires Run(c, s, actions, t)
    ensures t.acked == s.acked + Acks(c, s, actions)
    ensures Acks(c, s, actions) == [] ==> t.committed == s.committed
    decreases |actions|
  {
    hide Enabled, Apply, AckOf;
    if actions != [] {
      AckStep(c, s, actions[0]);
      AckedExactly(c, Apply(c, s, actions[0]), actions[1..], t);
    }
  }

  // ----- The theorems -----

  ghost predicate BelowWatermark(s: State, d: Job) {
    d.msg.partition in s.committed && d.msg.offset < s.committed[d.msg.partition]
  }

  /** A job lies below the committed offset iff the last successful commit of its partition passed it. */
  lemma BelowIsPassed(c: Config, s: State, d: Job)
    requires Reachable(c, s)
    ensures BelowWatermark(s, d) <==> Passed(s, d)
  {
    hide Reachable, Passed, Fifo;
    ReachableTracked(c, s);
    PassedExactly(s, s.acked, d);
    var o := OffsetAfter(s.acked, d.msg.partition);
  }

  /** Nothing unsettled lies below a committed offset: what a restart will not redeliver is not owed. */
  ghost predicate WatermarkSafe(s: State) {
    forall d :: d in s.polled && BelowWatermark(s, d) ==> Settled(s, d)
  }

  /** Let go without its order being stored by anyone. */
  ghost predicate Lost(s: State, d: Job) {
    d in s.polled && Abandoned(s, d) && d.msg.decoded.Some? && !SameStored(s.db, d)
  }

  lemma SafeExactly(c: Config, s: State)
    requires Reachable(c, s) && c.maxRetries >= 1
    requires forall d :: InFlight(s, d) ==> !BelowWatermark(s, d)
    ensures WatermarkSafe(s) <==> forall d :: Lost(s, d) ==> !Passed(s, d)
  {
    hide Reachable, Settled, Abandoned, Passed, BelowWatermark, SameStored, InFlight;
    forall d | d in s.polled
      ensures Settled(s, d) || InFlight(s, d) || Abandoned(s, d)
      ensures BelowWatermark(s, d) <==> Passed(s, d)
      ensures Abandoned(s, d) ==> (Settled(s, d) <==> d.msg.decoded == None || SameStored(s.db, d))
    {
      SettledOrNot(c, s, d);
      BelowIsPassed(c, s, d);
      if Abandoned(s, d) { AbandonedSettledExactly(c, s, d); }
    }
  }

  ghost predicate Quiescent(s: State) {
    AtPoller(s.poller) == [] && s.queue == [] && Held(s.workers) == multiset{}
  }

  /**
   Watermark safety. When nothing is in flight, whatever order workers committed in and whichever
   commits failed, everything below the committed offsets is settled iff no lost job was passed by the
   last successful commit of its partition; and all polled is settled when nothing was abandoned.
   */
  lemma WatermarkSafety(c: Config, s: State)
    requires Reachable(c, s) && c.maxRetries >= 1 && Quiescent(s)
    ensures WatermarkSafe(s) <==> forall d :: Lost(s, d) ==> !Passed(s, d)
    ensures (forall d :: d in s.polled ==> !Abandoned(s, d)) ==> forall d :: d in s.polled ==> Settled(s, d)
  {
    hide Reachable, Settled, Abandoned, Passed, BelowWatermark, Lost, WatermarkSafe;
    SafeExactly(c, s);
    forall d | d in s.polled ensures Settled(s, d) || Abandoned(s, d) {
      SettledOrNot(c, s, d);
    }
  }

  /** The broker hands out each partition in increasing offsets, nothing twice. */
  ghost predicate InOrder(polled: seq<Job>) {
    forall i, j :: 0 <= i < j < |polled| && polled[i].msg.partition == polled[j].msg.partition ==>
      polled[i].msg.offset < polled[j].msg.offset
  }

  lemma WaitingPolled(s: State, i: nat)
    requires Conserved(s) && i < |Waiting(s)|
    ensures Waiting(s)[i].id < |s.polled| && s.polled[Waiting(s)[i].id] == Waiting(s)[i]
  {
    var d := Waiting(s)[i];
    assert d in multiset(s.queue) || d in multiset(AtPoller(s.poller));
    assert d in Census(s);
    NumberedOnce(s.polled, d);
  }

  /** With polls in order, what was committed comes before what still waits. */
  lemma AckedBefore(s: State, k: nat, i: nat)
    requires Conserved(s) && Fifo(s) && InOrder(s.polled) && k < |s.acked| && i < |Waiting(s)|
    requires s.acked[k].msg.partition == Waiting(s)[i].msg.partition
    ensures s.acked[k].msg.offset < Waiting(s)[i].msg.offset
  {
    hide Waiting, Conserved, Ascending;
    WaitingPolled(s, i);
    assert Ahead(s, s.acked[k]);
  }

  /** So a message still in the channel or at the send is never below the committed offset. */
  lemma WaitingNotPassed(c: Config, s: State, i: nat)
    requires Reachable(c, s) && InOrder(s.polled) && i < |Waiting(s)|
    ensures !BelowWatermark(s, Waiting(s)[i])
  {
    hide Reachable, Waiting, Shape, Progress, Logged, Conserved, OffsetsAsAcked, BelowWatermark, Fifo, InOrder;
    ReachableInv(c, s);
    ReachableTracked(c, s);
    BelowIsPassed(c, s, Waiting(s)[i]);
    forall k | 0 <= k < |s.acked| && s.acked[k].msg.partition == Waiting(s)[i].msg.partition
      ensures s.acked[k].msg.offset < Waiting(s)[i].msg.offset
    {
      AckedBefore(s, k, i);
    }
  }

  /**
   The watermark after a shutdown. With polls in order, as soon as no worker holds a message, and so
   once they have all left, the watermark is safe under the same condition, however many messages are
   left in the channel or at the blocked poller.
   */
  lemma WatermarkAtShutdown(c: Config, s: State)
    requires Reachable(c, s) && c.maxRetries >= 1 && InOrder(s.polled) && Held(s.workers) == multiset{}
    ensures WatermarkSafe(s) <==> forall d :: Lost(s, d) ==> !Passed(s, d)
  {
    hide Reachable, InOrder, BelowWatermark, Lost, WatermarkSafe, Passed;
    forall d | InFlight(s, d) ensures !BelowWatermark(s, d) {
      var i := WaitingIndex(s, d);
      WaitingNotPassed(c, s, i);
    }
    SafeExactly(c, s);
  }

  lemma WaitingIndex(s: State, d: Job) returns (i: nat)
    requires d in s.queue || d in AtPoller(s.poller)
    ensures i < |Waiting(s)| && Waiting(s)[i] == d
  {
    assert d in Waiting(s);
    i :| i < |Waiting(s)| && Waiting(s)[i] == d;
  }
}
