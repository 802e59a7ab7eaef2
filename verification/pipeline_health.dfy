/** Pausing, resuming and the health flag over every run of the consumer. */
module PipelineHealth {
  import opened Worker
  import opened Pipeline
  import opened PipelineInv

  lemma {:induction false} RunAppend(c: Config, s: State, xs: seq<Action>, u: State, ys: seq<Action>, t: State)
    requires Run(c, s, xs, u) && Run(c, u, ys, t)
    ensures Run(c, s, xs + ys, t)
    decreases |xs|
  {
    hide Enabled, Apply;
    if xs == [] {
      assert xs + ys == ys;
    } else {
      RunAppend(c, Apply(c, s, xs[0]), xs[1..], u, ys, t);
      assert (xs + ys)[1..] == xs[1..] + ys;
    }
  }

  // ----- Pausing -----

  /** What holds from a pause to the next resume. */
  ghost predicate StaysPaused(s: State, t: State) {
    && t.paused && t.brokerPaused
    && |t.queue| <= |s.queue| && t.queue == s.queue[|s.queue| - |t.queue|..]
    && s.polled <= t.polled && t.dropped == s.dropped + t.polled[|s.polled|..]
  }

  lemma PausedStep(c: Config, s: State, a: Action)
    requires Shape(c, s) && s.brokerPaused && Enabled(c, s, a) && a != ResumeDone(true)
    ensures !a.Enqueue? && !a.Handoff? && StaysPaused(s, Apply(c, s, a))
  {
    hide MayReturn, AfterDecode, AfterReturn, AfterSleep, HealthAfterStore;
  }

  lemma PausedTwice(s: State, u: State, t: State)
    requires StaysPaused(s, u) && StaysPaused(u, t)
    ensures StaysPaused(s, t)
  {
    assert t.polled[|s.polled|..] == u.polled[|s.polled|..] + t.polled[|u.polled|..];
  }

  lemma PausedSame(c: Config, s: State)
    requires Shape(c, s) && s.brokerPaused
    ensures StaysPaused(s, s)
  {
  }

  lemma {:induction false} PausedRun(c: Config, s: State, actions: seq<Action>, t: State)
    requires Shape(c, s) && s.brokerPaused && Run(c, s, actions, t) && ResumeDone(true) !in actions
    ensures StaysPaused(s, t)
    ensures forall i :: 0 <= i < |actions| ==> !actions[i].Enqueue? && !actions[i].Handoff?
    decreases |actions|
  {
    hide Enabled, Apply, StaysPaused, Shape;
    PausedSame(c, s);
    if actions != [] {
      var u := Apply(c, s, actions[0]);
      PausedStep(c, s, actions[0]);
      ShapeStep(c, s, actions[0]);
      PausedIs(s, u);
      PausedRun(c, u, actions[1..], t);
      PausedTwice(s, u, t);
    }
  }

  lemma PausedIs(s: State, t: State)
    requires StaysPaused(s, t)
    ensures t.brokerPaused
  {
  }

  /**
   From a successful Pause to the next successful Resume no message enters the channel: nothing is sent
   or handed to a worker, the channel only drains, and whatever is polled anyway is dropped.
   */
  lemma PauseHolds(c: Config, s: State, actions: seq<Action>, t: State)
    requires Reachable(c, s) && Enabled(c, s, PauseDone(true))
    requires Run(c, Apply(c, s, PauseDone(true)), actions, t) && ResumeDone(true) !in actions
    ensures StaysPaused(Apply(c, s, PauseDone(true)), t)
    ensures forall i :: 0 <= i < |actions| ==> !actions[i].Enqueue? && !actions[i].Handoff?
  {
    hide Reachable, Run, StaysPaused, Conserved, Progress, Logged, Shape;
    ReachableInv(c, s);
    ShapeStep(c, s, PauseDone(true));
    PausedRun(c, Apply(c, s, PauseDone(true)), actions, t);
  }

  // ----- Recovering -----

  /** A check that is about to restore the flag. */
  predicate Restoring(p: Pinger) {
    p == Loaded(true, false)
  }

  /** The part of a run from just before a check's load to its end. */
  datatype Check = Check(before: seq<Action>, atLoad: State, between: seq<Action>, atStore: State, after: seq<Action>)

  /** A run from s to t during which a check that finds the flag unset and its ping successful restores it. */
  ghost predicate RestoredBy(c: Config, s: State, actions: seq<Action>, t: State, k: Check) {
    && actions == k.before + [Load] + k.between + [StoreHealth] + k.after
    && Run(c, s, k.before, k.atLoad) && k.atLoad.pinger == Pinged(true) && !k.atLoad.healthy
    && Run(c, Apply(c, k.atLoad, Load), k.between, k.atStore) && Load !in k.between && StoreHealth !in k.between
    && EndsCheck(c, k.atStore, k.after, t)
  }

  ghost predicate EndsCheck(c: Config, v: State, after: seq<Action>, t: State) {
    Restoring(v.pinger) && !v.healthy && Run(c, Apply(c, v, StoreHealth), after, t)
  }

  /** The same, for a check that has already loaded. */
  ghost predicate FinishedBy(c: Config, s: State, actions: seq<Action>, t: State, k: Check) {
    && Restoring(s.pinger)
    && actions == k.between + [StoreHealth] + k.after
    && Run(c, s, k.between, k.atStore) && Load !in k.between && StoreHealth !in k.between
    && EndsCheck(c, k.atStore, k.after, t)
  }

  lemma HealStep(c: Config, s: State, a: Action)
    requires Enabled(c, s, a) && !s.healthy
    ensures
      var t := Apply(c, s, a);
      && (t.healthy ==> a == StoreHealth && Restoring(s.pinger))
      && (Restoring(t.pinger) ==>
            (a == Load && s.pinger == Pinged(true)) || (Restoring(s.pinger) && a != Load && a != StoreHealth))
  {
    hide MayReturn, AfterDecode, AfterReturn, AfterSleep;
  }

  /** An unset flag that is set later was set by a check that loaded on the way, or had loaded it unset before. */
  lemma {:induction false} Heals(c: Config, s: State, actions: seq<Action>, t: State) returns (k: Check)
    requires Run(c, s, actions, t) && !s.healthy && t.healthy
    ensures RestoredBy(c, s, actions, t, k) || FinishedBy(c, s, actions, t, k)
    decreases |actions|
  {
    hide Enabled, Apply, Restoring;
    var a, u := actions[0], Apply(c, s, actions[0]);
    HealStep(c, s, a);
    assert actions == [a] + actions[1..];
    if u.healthy {
      k := Check([], s, [], s, actions[1..]);
      assert actions == [] + [StoreHealth] + actions[1..];
      assert FinishedBy(c, s, actions, t, k);
    } else {
      k := Heals(c, u, actions[1..], t);
      if RestoredBy(c, u, actions[1..], t, k) {
        k := LaterCheck(c, s, actions, t, k);
      } else if a == Load {
        k := k.(before := [], atLoad := s);
        assert actions == [] + [Load] + k.between + [StoreHealth] + k.after;
        LoadEnabled(c, s);
        assert RestoredBy(c, s, actions, t, k);
      } else {
        k := LongerCheck(c, s, actions, t, k);
      }
    }
  }

  lemma LoadEnabled(c: Config, s: State)
    ensures Enabled(c, s, Load) <==> s.pinger.Pinged?
  {
  }

  lemma LaterCheck(c: Config, s: State, actions: seq<Action>, t: State, k: Check) returns (l: Check)
    requires actions != [] && Enabled(c, s, actions[0])
    requires RestoredBy(c, Apply(c, s, actions[0]), actions[1..], t, k)
    ensures RestoredBy(c, s, actions, t, l)
  {
    hide Enabled, Apply, EndsCheck;
    l := k.(before := [actions[0]] + k.before);
    assert actions == [actions[0]] + actions[1..];
    assert actions == l.before + [Load] + l.between + [StoreHealth] + l.after;
    assert l.before[1..] == k.before;
  }

  lemma LongerCheck(c: Config, s: State, actions: seq<Action>, t: State, k: Check) returns (l: Check)
    requires actions != [] && Enabled(c, s, actions[0]) && actions[0] != Load && actions[0] != StoreHealth
    requires Restoring(s.pinger) && FinishedBy(c, Apply(c, s, actions[0]), actions[1..], t, k)
    ensures FinishedBy(c, s, actions, t, l)
  {
    hide Enabled, Apply, EndsCheck, Restoring;
    l := k.(between := [actions[0]] + k.between);
    assert actions == [actions[0]] + actions[1..];
    assert actions == l.between + [StoreHealth] + l.after;
    assert l.between[1..] == k.between;
  }

  /**
   After a MarkUnhealthy that flipped the flag, the consumer is healthy again only after a check whose
   ping succeeded and which loaded the flag after that mark, and found it unset.
   */
  lemma HealthyOnlyByNewCheck(c: Config, s: State, w: nat, ok: bool, actions: seq<Action>, t: State) returns (k: Check)
    requires Reachable(c, s) && Enabled(c, s, Emit(w, ok)) && s.workers[w].todo[0] == MarkUnhealthy && s.healthy
    requires Run(c, Apply(c, s, Emit(w, ok)), actions, t) && t.healthy
    ensures RestoredBy(c, Apply(c, s, Emit(w, ok)), actions, t, k)
  {
    hide Reachable, Run, Conserved, Progress, Logged, RestoredBy;
    ReachableInv(c, s);
    k := Heals(c, Apply(c, s, Emit(w, ok)), actions, t);
  }

  /** The ping itself need not be new: one that succeeded before the mark still restores the flag. */
  lemma StalePingRestores(c: Config, s: State, w: nat, ok: bool)
    requires Enabled(c, s, Emit(w, ok)) && s.workers[w].todo[0] == MarkUnhealthy && s.pinger == Pinged(true)
    ensures exists t :: Run(c, s, [Emit(w, ok), Load, StoreHealth], t) && t.healthy
    ensures !Apply(c, s, Emit(w, ok)).healthy
  {
    hide Run, MayReturn, AfterDecode, AfterReturn, AfterSleep;
    var u := Apply(c, s, Emit(w, ok));
    var v := Apply(c, u, Load);
    RunOne(c, v, StoreHealth);
    RunOne(c, u, Load);
    RunAppend(c, u, [Load], v, [StoreHealth], Apply(c, v, StoreHealth));
    RunOne(c, s, Emit(w, ok));
    RunAppend(c, s, [Emit(w, ok)], u, [Load] + [StoreHealth], Apply(c, v, StoreHealth));
    assert [Emit(w, ok)] + ([Load] + [StoreHealth]) == [Emit(w, ok), Load, StoreHealth];
  }

  lemma PingedStep(c: Config, s: State, a: Action)
    requires Enabled(c, s, a) && a != Ping(true) && Apply(c, s, a).pinger == Pinged(true)
    ensures s.pinger == Pinged(true)
  {
    hide MayReturn, AfterDecode, AfterReturn, AfterSleep, HealthAfterStore, At;
  }

  /** Without a new successful ping, a check that has one had it before. */
  lemma {:induction false} PingedBefore(c: Config, s: State, actions: seq<Action>, t: State)
    requires Run(c, s, actions, t) && Ping(true) !in actions && t.pinger == Pinged(true)
    ensures s.pinger == Pinged(true)
    decreases |actions|
  {
    hide Enabled, Apply;
    if actions != [] {
      PingedBefore(c, Apply(c, s, actions[0]), actions[1..], t);
      PingedStep(c, s, actions[0]);
    }
  }

  /** The consumer can come to be healthy with no new successful ping. */
  ghost predicate HealsUnpinged(c: Config, s: State) {
    exists actions, t :: Run(c, s, actions, t) && t.healthy && Ping(true) !in actions
  }

  /**
   When a recovery keeps the promise to wait for a new response of the database, exactly: after a mark that
   flipped the flag it can be set again without a new successful ping iff, at the mark, a check was past its
   successful ping and had not loaded the flag yet.
   */
  lemma HealsUnpingedExactly(c: Config, s: State, w: nat, ok: bool)
    requires Reachable(c, s) && Enabled(c, s, Emit(w, ok)) && s.workers[w].todo[0] == MarkUnhealthy && s.healthy
    ensures HealsUnpinged(c, Apply(c, s, Emit(w, ok))) <==> s.pinger == Pinged(true)
  {
    hide Reachable, Run, RestoredBy;
    var u := Apply(c, s, Emit(w, ok));
    if s.pinger == Pinged(true) {
      StaleRun(c, u);
    }
    if HealsUnpinged(c, u) {
      var actions, t :| Run(c, u, actions, t) && t.healthy && Ping(true) !in actions;
      var k := HealthyOnlyByNewCheck(c, s, w, ok, actions, t);
      BeforeLoad(c, u, actions, t, k);
      PingedBefore(c, u, k.before, k.atLoad);
    }
  }

  lemma StaleRun(c: Config, u: State)
    requires u.pinger == Pinged(true) && !u.healthy
    ensures HealsUnpinged(c, u)
  {
    hide Run, MayReturn, AfterDecode, AfterReturn, AfterSleep;
    var v := Apply(c, u, Load);
    RunOne(c, v, StoreHealth);
    RunOne(c, u, Load);
    RunAppend(c, u, [Load], v, [StoreHealth], Apply(c, v, StoreHealth));
  }

  lemma BeforeLoad(c: Config, u: State, actions: seq<Action>, t: State, k: Check)
    requires RestoredBy(c, u, actions, t, k) && Ping(true) !in actions
    ensures Run(c, u, k.before, k.atLoad) && Ping(true) !in k.before && k.atLoad.pinger == Pinged(true)
  {
    hide Run, Enabled, Apply;
    forall i | 0 <= i < |k.before| ensures k.before[i] != Ping(true) {
      assert actions[i] == k.before[i];
    }
  }

  lemma RunOne(c: Config, s: State, a: Action)
    requires Enabled(c, s, a)
    ensures Run(c, s, [a], Apply(c, s, a))
  {
    hide Enabled, Apply;
    assert [a][1..] == [];
    assert Run(c, Apply(c, s, a), [], Apply(c, s, a));
  }
}
