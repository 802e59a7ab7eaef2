/** internal/pkg/health/dbhealth.go: an atomic flag that workers clear and a periodic check maintains. */
module Health {
  import opened Pipeline
  import Worker

  /** One periodic check: the ping's result, and how often workers mark the flag around the check's load. */
  datatype Check = Check(pingOk: bool, marksBeforeLoad: nat, marksAfterLoad: nat)

  /** The flag after a check that began with it. */
  function AfterCheck(healthy: bool, k: Check): bool {
    var was := healthy && k.marksBeforeLoad == 0;
    HealthAfterStore(k.pingOk, was, was && k.marksAfterLoad == 0)
  }

  function AfterChecks(healthy: bool, checks: seq<Check>): bool {
    if checks == [] then healthy else AfterCheck(AfterChecks(healthy, checks[..|checks| - 1]), checks[|checks| - 1])
  }

  class DBHealthChecker {
    var isHealthy: bool
    /** How often a mark found the flag set. */
    var marked: nat
    var uptime: bool

    /** A new checker has checked nothing yet: the flag is unset. */
    constructor ()
      ensures !isHealthy && marked == 0 && !uptime
    {
      isHealthy, marked, uptime := false, 0, false;
    }

    /** Compare-and-swap: only a mark that finds the flag set is reported. */
    method MarkUnhealthy()
      modifies `isHealthy, `marked
      ensures !isHealthy
      ensures marked == old(marked) + if old(isHealthy) then 1 else 0
    {
      if isHealthy {
        isHealthy := false;
        marked := marked + 1;
      }
    }

    method MarkOften(times: nat)
      modifies `isHealthy, `marked
      ensures isHealthy == (old(isHealthy) && times == 0)
      ensures marked == old(marked) + if old(isHealthy) && times > 0 then 1 else 0
    {
      for i := 0 to times
        invariant isHealthy == (old(isHealthy) && i == 0)
        invariant marked == old(marked) + if old(isHealthy) && i > 0 then 1 else 0
      {
        MarkUnhealthy();
      }
    }

    /**
     checkHealth among the marks of workers. A failed ping leaves the flag unset; a successful one sets
     it, unless it was found set and then cleared by a mark after the load, which is not undone.
     */
    method CheckHealth(k: Check)
      modifies this
      ensures isHealthy == AfterCheck(old(isHealthy), k)
      ensures isHealthy <==>
              k.pingOk && (k.marksAfterLoad == 0 || !old(isHealthy) || k.marksBeforeLoad > 0)
      ensures uptime == k.pingOk
      ensures old(isHealthy) ==> marked == old(marked) + if k.marksBeforeLoad + k.marksAfterLoad > 0 then 1 else 0
      ensures !old(isHealthy) ==> marked == old(marked)
    {
      MarkOften(k.marksBeforeLoad);
      var wasHealthy := isHealthy;
      MarkOften(k.marksAfterLoad);
      if !k.pingOk {
        if wasHealthy {
          isHealthy := false;
        }
        uptime := false;
        return;
      }
      if !wasHealthy {
        isHealthy := true;
      }
      uptime := true;
    }

    /** Start: a first check at once, then one a tick until the context ends. */
    method Start(checks: seq<Check>, done: nat -> bool) returns (n: nat)
      requires checks != []
      modifies this
      ensures 1 <= n <= |checks| && isHealthy == AfterChecks(old(isHealthy), checks[..n])
      ensures (n < |checks| ==> done(n)) && forall i :: 1 <= i < n ==> !done(i)
    {
      hide AfterCheck;
      CheckHealth(checks[0]);
      n := 1;
      while n < |checks| && !done(n)
        invariant 1 <= n <= |checks| && isHealthy == AfterChecks(old(isHealthy), checks[..n])
        invariant forall i :: 1 <= i < n ==> !done(i)
      {
        CheckHealth(checks[n]);
        assert checks[..n + 1][..n] == checks[..n];
        n := n + 1;
      }
    }
  }

  /** A check that leaves a set flag set: the ping succeeds and no mark clears the flag after the load. */
  predicate Clears(k: Check) {
    k.pingOk && (k.marksAfterLoad == 0 || k.marksBeforeLoad > 0)
  }

  /** The flag is set after every check of a row iff every ping succeeds and no mark clears it after a load. */
  lemma {:induction false} SteadyExactly(checks: seq<Check>)
    ensures (forall n :: 0 <= n <= |checks| ==> AfterChecks(true, checks[..n]))
            <==> forall i :: 0 <= i < |checks| ==> Clears(checks[i])
  {
    if checks != [] {
      var m := |checks| - 1;
      var init := checks[..m];
      SteadyExactly(init);
      assert checks[..|checks|] == checks && forall n :: 0 <= n <= m ==> init[..n] == checks[..n];
      assert init[..m] == init;
      if forall n :: 0 <= n <= |checks| ==> AfterChecks(true, checks[..n]) {
        assert AfterChecks(true, checks[..m]) && AfterChecks(true, checks[..|checks|]);
        assert Clears(checks[m]);
      }
      if forall i :: 0 <= i < |checks| ==> Clears(checks[i]) {
        assert forall i :: 0 <= i < m ==> init[i] == checks[i];
        assert Clears(checks[m]);
      }
    }
  }

  // ----- The checker is the one of the step system -----

  /** The checks a run has completed, and what is known of the next one. */
  datatype Trace = Trace(past: seq<Check>, now: Check)

  const NO_CHECKS := Trace([], Check(false, 0, 0))

  /** A worker's step that marks the database unhealthy. */
  predicate Marks(s: State, a: Action) {
    a.Emit? && a.w < |s.workers| && s.workers[a.w].Emitting? && s.workers[a.w].todo != []
    && s.workers[a.w].todo[0] == Worker.MarkUnhealthy
  }

  function Marked(s: State, k: Check): Check {
    if s.pinger.Loaded? then k.(marksAfterLoad := k.marksAfterLoad + 1)
    else k.(marksBeforeLoad := k.marksBeforeLoad + 1)
  }

  /** What a step adds to the record: the ping's result, a mark before or after the load, the end of a check. */
  function Noted(s: State, a: Action, trace: Trace): Trace {
    if a.Ping? then trace.(now := trace.now.(pingOk := a.ok))
    else if a.StoreHealth? then Trace(trace.past + [trace.now], Check(false, 0, 0))
    else if Marks(s, a) then trace.(now := Marked(s, trace.now))
    else trace
  }

  /** The checks read off a run. */
  ghost function Recorded(c: Config, s: State, actions: seq<Action>, trace: Trace): Trace
    decreases |actions|
  {
    if actions == [] || !Enabled(c, s, actions[0]) then trace
    else Recorded(c, Apply(c, s, actions[0]), actions[1..], Noted(s, actions[0], trace))
  }

  /** The flag and the checker are where the recorded checks leave them. */
  ghost predicate Follows(healthy: bool, s: State, trace: Trace) {
    var h, k := AfterChecks(healthy, trace.past), trace.now;
    match s.pinger
    case Waiting => k.marksAfterLoad == 0 && s.healthy == (h && k.marksBeforeLoad == 0)
    case Pinged(ok) => k.marksAfterLoad == 0 && s.healthy == (h && k.marksBeforeLoad == 0) && ok == k.pingOk
    case Loaded(ok, was) =>
      was == (h && k.marksBeforeLoad == 0) && s.healthy == (was && k.marksAfterLoad == 0) && ok == k.pingOk
  }

  lemma CheckEnds(healthy: bool, trace: Trace)
    ensures AfterChecks(healthy, trace.past + [trace.now]) == AfterCheck(AfterChecks(healthy, trace.past), trace.now)
  {
    assert (trace.past + [trace.now])[..|trace.past|] == trace.past;
  }

  /** Steps that neither mark nor check leave the flag and the checker alone. */
  lemma OthersLeave(c: Config, s: State, a: Action)
    requires Enabled(c, s, a) && !a.Ping? && !a.Load? && !a.StoreHealth?
    ensures Apply(c, s, a).pinger == s.pinger
    ensures Apply(c, s, a).healthy == (s.healthy && !Marks(s, a))
  {
    hide MayReturn, AfterDecode, AfterReturn, AfterSleep;
  }

  lemma CheckerSteps(c: Config, healthy: bool, s: State, a: Action, trace: Trace)
    requires Follows(healthy, s, trace) && Enabled(c, s, a) && (a.Ping? || a.Load? || a.StoreHealth?)
    ensures Follows(healthy, Apply(c, s, a), Noted(s, a, trace))
  {
    hide AfterChecks;
    CheckEnds(healthy, trace);
  }

  lemma FollowsStep(c: Config, healthy: bool, s: State, a: Action, trace: Trace)
    requires Follows(healthy, s, trace) && Enabled(c, s, a)
    ensures Follows(healthy, Apply(c, s, a), Noted(s, a, trace))
  {
    hide AfterChecks, Enabled, Apply;
    if a.Ping? || a.Load? || a.StoreHealth? {
      CheckerSteps(c, healthy, s, a, trace);
    } else {
      OthersLeave(c, s, a);
    }
  }

  lemma {:induction false} RunFollows(c: Config, healthy: bool, s: State, actions: seq<Action>, t: State, trace: Trace)
    requires Follows(healthy, s, trace) && Run(c, s, actions, t)
    ensures Follows(healthy, t, Recorded(c, s, actions, trace))
    decreases |actions|
  {
    hide Enabled, Apply, Follows;
    if actions != [] {
      FollowsStep(c, healthy, s, actions[0], trace);
      RunFollows(c, healthy, Apply(c, s, actions[0]), actions[1..], t, Noted(s, actions[0], trace));
    }
  }

  /**
   The flag of the step system is the checker's. Read the checks off any run between two states in which no
   check is under way: each ping's result and the marks that came in before and after its load. The checker's
   contract on exactly these checks gives the flag, unset if a mark came in since the last of them.
   */
  lemma FlagIsChecked(c: Config, s: State, actions: seq<Action>, t: State)
    requires Run(c, s, actions, t) && s.pinger.Waiting? && t.pinger.Waiting?
    ensures
      var trace := Recorded(c, s, actions, NO_CHECKS);
      t.healthy <==> AfterChecks(s.healthy, trace.past) && trace.now.marksBeforeLoad == 0
  {
    hide Run, Recorded;
    RunFollows(c, s.healthy, s, actions, t, NO_CHECKS);
  }
}
