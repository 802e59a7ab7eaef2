/** Reachable states that show what the consumer does not promise. */
module PipelineWitnesses {
  import opened Domain
  import opened Errors
  import opened Worker
  import opened Pipeline
  import opened PipelineHealth
  import opened PipelineInv
  import opened PipelineOwner
  import opened PipelineShutdown
  import opened PipelineWatermark

  /** A healthy, unpaused poller with room in the channel polls a message into it. */
  lemma PollOne(c: Config, s: State, m: Message) returns (t: State)
    requires Reachable(c, s) && s.poller.AtTop? && !s.cancelled && s.healthy && !s.paused && |s.queue| < c.jobBuffer
    ensures
      var d := Job(|s.polled|, m);
      Reachable(c, t) && t == s.(polled := s.polled + [d], queue := s.queue + [d])
  {
    hide Reachable;
    var s1 := Then(c, s, CheckContext);
    var s2 := Then(c, s1, LoadFirst);
    var s3 := Then(c, s2, LoadSecond);
    var s4 := Then(c, s3, PollMessage(m));
    t := Then(c, s4, Enqueue);
  }

  /** The only worker takes the first job. */
  lemma TakeOne(c: Config, s: State) returns (t: State)
    requires Reachable(c, s) && s.workers == [Idle] && s.queue != []
    ensures Reachable(c, t) && t == s.(queue := s.queue[1..], workers := [AfterDecode(c, s.queue[0])])
  {
    hide Reachable;
    var s1 := Then(c, s, Take(0));
    t := Then(c, s1, Decode(0));
  }

  const NO_CONNECTION := Failed(Leaf(ConnectionFailed))
  const GIVEN_UP := Processed(Some(Leaf(ConnectionFailed)))

  /** The worker's call returns. */
  lemma ReturnOne(c: Config, s: State, r: CallResult) returns (t: State)
    requires Reachable(c, s) && |s.workers| == 1 && s.workers[0].Calling? && s.workers[0].results == []
    requires MayReturn(s.db, s.workers[0].d, s.workers[0].stored, r)
    ensures
      var d := s.workers[0].d;
      && Reachable(c, t)
      && t == s.(workers := [if IsTransient(r) then Sleeping(d, [r]) else Emitted(d, [r], FateOfResult(r))])
  {
    hide Reachable, MayReturn, IsTransient, Emitted, FateOfResult;
    t := Then(c, s, Return(0, r));
    assert s.workers[0].results + [r] == [r];
  }

  /** The worker causes its next effect. */
  lemma EmitOne(c: Config, s: State) returns (t: State)
    requires Reachable(c, s) && |s.workers| == 1 && s.workers[0].Emitting? && s.workers[0].todo != []
    ensures
      var p := s.workers[0];
      var e := p.todo[0];
      && Reachable(c, t)
      && t == s.(workers := [p.(todo := p.todo[1..])],
                 log := s.log + [Event(p.d, e)],
                 healthy := s.healthy && e != MarkUnhealthy,
                 committed := if e == Commit then s.committed[p.d.msg.partition := p.d.msg.offset + 1] else s.committed,
                 acked := if e == Commit then s.acked + [p.d] else s.acked)
  {
    hide Reachable;
    t := Then(c, s, Emit(0, true));
  }

  lemma FinishOne(c: Config, s: State) returns (t: State)
    requires Reachable(c, s) && |s.workers| == 1 && s.workers[0].Emitting? && s.workers[0].todo == []
    ensures
      var p := s.workers[0];
      Reachable(c, t) && t == s.(workers := [Idle], finished := s.finished + [Finish(p.d, p.results, p.fate)])
  {
    hide Reachable;
    t := Then(c, s, FinishMessage(0));
  }

  /** The one call allowed fails for want of a connection. */
  lemma FailCall(c: Config, s: State, d: Job) returns (t: State)
    requires Reachable(c, s) && c.maxRetries == 1 && s.workers == [Calling(d, [], false)]
    ensures
      var todo := [CountProcessed(Erroneous), MarkUnhealthy];
      Reachable(c, t) && t == s.(workers := [Emitting(d, [NO_CONNECTION], GIVEN_UP, todo)])
  {
    hide Reachable;
    var s1 := ReturnOne(c, s, NO_CONNECTION);
    assert IsTransient(NO_CONNECTION);
    assert FateOf(ScriptOf([NO_CONNECTION]), 0, 1) == GIVEN_UP
        && Effects(GIVEN_UP) == [CountProcessed(Erroneous), MarkUnhealthy];
    t := Then(c, s1, Wake(0));
  }

  /** The worker counts the failure, marks the database unhealthy and is done with the message. */
  lemma MarkAndFinish(c: Config, s: State) returns (t: State)
    requires Reachable(c, s) && |s.workers| == 1 && s.workers[0].Emitting?
    requires s.workers[0].todo == [CountProcessed(Erroneous), MarkUnhealthy]
    ensures
      var p := s.workers[0];
      && Reachable(c, t)
      && t == s.(workers := [Idle], finished := s.finished + [Finish(p.d, p.results, p.fate)],
                 log := s.log + [Event(p.d, CountProcessed(Erroneous)), Event(p.d, MarkUnhealthy)], healthy := false)
  {
    hide Reachable;
    var s1 := EmitOne(c, s);
    var s2 := EmitOne(c, s1);
    t := FinishOne(c, s2);
  }

  /** The only worker takes the first job, which is no order, and commits it. */
  lemma CommitOne(c: Config, s: State) returns (t: State)
    requires Reachable(c, s) && s.workers == [Idle] && s.queue != [] && s.queue[0].msg.decoded == None
    ensures
      var d := s.queue[0];
      && Reachable(c, t)
      && t == s.(queue := s.queue[1..], finished := s.finished + [Finish(d, [], Undecodable)],
                 log := s.log + [Event(d, CountProcessed(Invalid)), Event(d, Commit)],
                 committed := s.committed[d.msg.partition := d.msg.offset + 1], acked := s.acked + [d])
  {
    hide Reachable;
    var d := s.queue[0];
    var s1 := TakeOne(c, s);
    assert s1.workers[0] == Emitting(d, [], Undecodable, [CountProcessed(Invalid), Commit]);
    var s2 := EmitOne(c, s1);
    var s3 := EmitOne(c, s2);
    t := FinishOne(c, s3);
  }

  /**
   The watermark can pass a lost order. An order given up for want of a connection, followed in its
   partition by a message already in the channel that gets committed, ends up below the watermark
   without being stored or dead-lettered, and nothing is in flight any more.
   */
  lemma WatermarkCanPass(partition: nat, offset: nat, order: Order) returns (s: State, d: Job)
    ensures Reachable(Config(2, 1, 1), s) && Quiescent(s)
    ensures d in s.polled && d.msg == Message(partition, offset, Some(order))
    ensures Lost(s, d) && Passed(s, d) && BelowWatermark(s, d) && !Settled(s, d) && !WatermarkSafe(s)
  {
    hide Reachable;
    var c := Config(2, 1, 1);
    var m, m' := Message(partition, offset, Some(order)), Message(partition, offset + 1, None);
    StartReachable(c, true, map[]);
    var s1 := PollOne(c, Start(c, true, map[]), m);
    var s2 := PollOne(c, s1, m');
    var s3 := TakeOne(c, s2);
    var s4 := FailCall(c, s3, Job(0, m));
    var s5 := MarkAndFinish(c, s4);
    s := CommitOne(c, s5);
    d := Job(0, m);
    assert [Idle][..0] == [];
    assert s.polled[0] == d && s.finished[0] == Finish(d, [NO_CONNECTION], GIVEN_UP);
    assert s.acked[0].msg == m';
  }

  /** Both are possible: a worker is about to clear a set flag, and a check's ping has succeeded. */
  ghost predicate MarkAfterPing(c: Config, s: State) {
    && Reachable(c, s) && s.healthy && s.pinger == Pinged(true)
    && Enabled(c, s, Emit(0, true)) && s.workers[0].todo[0] == MarkUnhealthy
  }

  lemma MarkAfterPingReachable(m: Message) returns (s: State)
    requires m.decoded.Some?
    ensures MarkAfterPing(Config(1, 1, 1), s)
  {
    hide Reachable;
    var c := Config(1, 1, 1);
    StartReachable(c, true, map[]);
    var s1 := PollOne(c, Start(c, true, map[]), m);
    var s2 := TakeOne(c, s1);
    var s3 := FailCall(c, s2, Job(0, m));
    var s4 := EmitOne(c, s3);
    PingBeforeMark(c, s4);
    s := s4.(pinger := Pinged(true));
  }

  lemma PingBeforeMark(c: Config, s: State)
    requires Reachable(c, s) && s.healthy && s.pinger == Waiting && !s.cancelled
    requires |s.workers| == 1 && s.workers[0].Emitting? && s.workers[0].todo == [MarkUnhealthy]
    ensures MarkAfterPing(c, s.(pinger := Pinged(true)))
  {
    hide Reachable;
    var t := Then(c, s, Ping(true));
  }

  /**
   It happens that a check whose ping succeeded before a worker marked the database unhealthy restores
   the flag after the mark: a reachable state leads through the mark to a healthy one.
   */
  lemma StalePingHappens(m: Message) returns (s: State, t: State)
    requires m.decoded.Some?
    ensures MarkAfterPing(Config(1, 1, 1), s) && !Apply(Config(1, 1, 1), s, Emit(0, true)).healthy
    ensures Run(Config(1, 1, 1), s, [Emit(0, true), Load, StoreHealth], t) && t.healthy
  {
    hide Reachable, Run;
    s := MarkAfterPingReachable(m);
    StalePingRestores(Config(1, 1, 1), s, 0, true);
    t :| Run(Config(1, 1, 1), s, [Emit(0, true), Load, StoreHealth], t) && t.healthy;
  }

  // ----- Stored and yet not reported so -----

  function EventsFor(d: Job, es: seq<Effect>): seq<Event> {
    seq(|es|, i requires 0 <= i < |es| => Event(d, es[i]))
  }

  /** The worker causes the effects it has still to cause and is done. */
  lemma {:induction false} EmitAll(c: Config, s: State) returns (t: State)
    requires Reachable(c, s) && |s.workers| == 1 && s.workers[0].Emitting?
    ensures
      var p := s.workers[0];
      && Reachable(c, t) && t.db == s.db && t.log == s.log + EventsFor(p.d, p.todo)
      && t.finished == s.finished + [Finish(p.d, p.results, p.fate)]
    decreases |s.workers[0].todo|
  {
    hide Reachable;
    var p := s.workers[0];
    if p.todo == [] {
      t := FinishOne(c, s);
    } else {
      var u := EmitOne(c, s);
      t := EmitAll(c, u);
      assert EventsFor(p.d, p.todo) == [Event(p.d, p.todo[0])] + EventsFor(p.d, p.todo[1..]);
    }
  }

  /** A result that leads to a fate. */
  function ResultFor(fate: Fate): CallResult {
    match fate
    case Processed(Some(e)) => Failed(e)
    case Processed(None) => Nil
    case _ => Panicked
  }

  lemma ResultGives(fate: Fate, db: map<string, Row>, d: Job)
    requires MayHaveStored(fate)
    ensures MayReturn(db, d, true, ResultFor(fate)) && !IsTransient(ResultFor(fate))
            && FateOfResult(ResultFor(fate)) == fate
  {
    if fate.Processed? && fate.error.Some? {
      IsRoot(fate.error.value, ConnectionFailed);
      IsRoot(fate.error.value, InvalidOrder);
      IsRoot(fate.error.value, AlreadyExists);
    }
  }

  /** The call for the only message commits and then has that result. */
  lemma StoredWith(m: Message, fate: Fate) returns (s: State)
    requires m.decoded.Some? && MayHaveStored(fate)
    ensures Reachable(Config(1, 1, 1), s) && OwnStored(s.db, Job(0, m))
    ensures s.finished == [Finish(Job(0, m), [ResultFor(fate)], fate)] && s.log == EventsFor(Job(0, m), Effects(fate))
  {
    hide Reachable, Effects, MayReturn, IsTransient, MayHaveStored, ResultFor;
    var c, d := Config(1, 1, 1), Job(0, m);
    StartReachable(c, true, map[]);
    var s1 := PollOne(c, Start(c, true, map[]), m);
    var s2 := TakeOne(c, s1);
    var s3 := Then(c, s2, StoreOrder(0));
    ResultGives(fate, s3.db, d);
    var s4 := ReturnOne(c, s3, ResultFor(fate));
    s := EmitAll(c, s4);
  }

  /** The fates under which the order that a job's own call stored can be in the store: exactly these. */
  lemma StoredFatesExactly(fate: Fate)
    ensures
      (exists c, s, k ::
         && Reachable(c, s) && 0 <= k < |s.finished| && s.finished[k].fate == fate
         && OwnStored(s.db, s.finished[k].d))
      <==> MayHaveStored(fate)
  {
    hide Reachable, MayHaveStored, OwnStored;
    if MayHaveStored(fate) {
      var s := StoredWith(SomeMessage(), fate);
      assert s.finished[0].fate == fate;
    }
    forall c, s, k: nat | Reachable(c, s) && k < |s.finished| && OwnStored(s.db, s.finished[k].d)
      ensures MayHaveStored(s.finished[k].fate)
    {
      StoredJobsEndSo(c, s, k);
    }
  }

  function SomeMessage(): (m: Message)
    ensures m.decoded.Some?
  {
    var delivery := Delivery("", "", "", "", "", "", "");
    var payment := Payment("", "", "", "", 0, 0, "", 0, 0, 0);
    Message(0, 0, Some(Order("", "", "", delivery, payment, [], "", "", "", "", "", 0, 0, "")))
  }

  /** An order can be stored by its own call and sent to the dead-letter topic: after a raw commit error. */
  lemma StoredAndDeadLettered(m: Message) returns (s: State)
    requires m.decoded.Some?
    ensures Reachable(Config(1, 1, 1), s) && OwnStored(s.db, Job(0, m)) && DeadLettered(s.log, Job(0, m))
  {
    hide Reachable;
    var fate := Processed(Some(Leaf(Unknown)));
    s := StoredWith(m, fate);
    assert Effects(fate)[2] == Produce(UnhandledReason);
    assert s.log[2] == Event(Job(0, m), Produce(UnhandledReason));
  }
}
