/** What the worker's retries, sleeps and effects amount to. */
module WorkerTheorems {
  import opened Domain
  import opened Errors
  import opened Worker

  // ----- Retries -----

  /** The number of service calls is determined: as many as it takes, and no more than maxRetries. */
  lemma CallsAreDetermined(script: nat -> CallResult, from: nat, c: nat, d: nat, maxRetries: int)
    requires RetriedTo(script, from, c, maxRetries) && RetriedTo(script, from, d, maxRetries)
    ensures c == d
  {
    var lastOfC := c > 0 && IsTransient(script(from + c - 1));
    var lastOfD := d > 0 && IsTransient(script(from + d - 1));
  }

  /** It is min(maxRetries, 1 + the index of the first result that is no connection failure). */
  lemma CallsAreMinimum(script: nat -> CallResult, from: nat, c: nat, maxRetries: int, first: nat)
    requires maxRetries >= 1 && RetriedTo(script, from, c, maxRetries)
    requires !IsTransient(script(from + first)) && forall i :: from <= i < from + first ==> IsTransient(script(i))
    ensures c == if first + 1 < maxRetries then first + 1 else maxRetries
  {
    var d: nat := if first + 1 < maxRetries then first + 1 else maxRetries;
    CallsAreDetermined(script, from, c, d, maxRetries);
  }

  /** Of the calls made, all but the last failed for want of a connection, and the last perhaps. */
  lemma FailuresExactly(script: nat -> CallResult, from: nat, calls: nat, maxRetries: int)
    requires RetriedTo(script, from, calls, maxRetries)
    ensures calls > 0 ==>
              Failures(script, from, calls) == calls - if IsTransient(script(from + calls - 1)) then 0 else 1
    ensures calls > 0 && IsTransient(script(from + calls - 1)) ==> Failures(script, from, calls) == maxRetries
  {
    if calls > 0 {
      AllFail(script, from, calls - 1);
      FailuresGrow(script, from, calls - 1);
    }
  }

  lemma {:induction false} AllFail(script: nat -> CallResult, from: nat, n: nat)
    requires forall i :: from <= i < from + n ==> IsTransient(script(i))
    ensures Failures(script, from, n) == n
  {
    hide IsTransient, Failures;
    if n == 0 {
      FailuresGrow(script, from, 0);
    } else {
      AllFail(script, from, n - 1);
      FailuresGrow(script, from, n - 1);
    }
  }

  // ----- Outcomes -----

  /** The effects that reach the broker, the dead-letter topic or the health checker. */
  function Core(effects: seq<Effect>): seq<Effect> {
    if effects == [] then [] else
      var rest := Core(effects[1..]);
      match effects[0]
      case CountProcessed(_) => rest
      case CountDlq(_) => rest
      case _ => [effects[0]] + rest
  }

  /** What each fate does to the outside, decided by the root of the error alone. */
  lemma EffectsByRoot(fate: Fate)
    ensures
      match fate
      case Undecodable => Core(Effects(fate)) == [Commit]
      case Crashed => Core(Effects(fate)) == [Produce(PanicReason)]
      case Processed(None) => Core(Effects(fate)) == [Commit]
      case Processed(Some(e)) =>
        match Root(e)
        case InvalidOrder => Core(Effects(fate)) == [Produce(InvalidOrderReason), Commit]
        case AlreadyExists => Core(Effects(fate)) == [Produce(AlreadyExistsReason), Commit]
        case ConnectionFailed => Core(Effects(fate)) == [MarkUnhealthy]
        case Unknown => Core(Effects(fate)) == [Produce(UnhandledReason), Commit]
  {
    if fate.Processed? && fate.error.Some? {
      var e := fate.error.value;
      IsRoot(e, InvalidOrder);
      IsRoot(e, AlreadyExists);
      IsRoot(e, ConnectionFailed);
    }
    hide Is, Root;
    var es := Effects(fate);
    CoreCons(es[0], es[1..]);
    CoreCons(es[1], es[2..]);
    assert es == [es[0]] + es[1..] && es[1..] == [es[1]] + es[2..];
    if |es| == 4 {
      CoreCons(es[2], es[3..]);
      CoreCons(es[3], es[4..]);
      assert es[2..] == [es[2]] + es[3..] && es[3..] == [es[3]] + es[4..];
    }
  }

  /** What each message is counted as, and that every dead-letter count goes with a send for that reason. */
  lemma CountedByRoot(fate: Fate)
    ensures
      var es := Effects(fate);
      var root := if fate.Processed? && fate.error.Some? then Some(Root(fate.error.value)) else None;
      && (CountProcessed(Valid) in es <==> fate == Processed(None))
      && (CountProcessed(Invalid) in es <==>
            fate == Undecodable || root == Some(InvalidOrder) || root == Some(AlreadyExists))
      && (CountProcessed(Erroneous) in es <==> root == Some(ConnectionFailed) || root == Some(Unknown))
      && (forall reason :: CountDlq(reason) in es <==> Produce(reason) in es)
      && (Produce(PanicReason) in es <==> fate == Crashed)
  {
    if fate.Processed? && fate.error.Some? {
      var e := fate.error.value;
      IsRoot(e, InvalidOrder);
      IsRoot(e, AlreadyExists);
      IsRoot(e, ConnectionFailed);
    }
    hide Is, Root;
  }

  lemma CoreCons(e: Effect, rest: seq<Effect>)
    ensures Core([e] + rest) == (if e.CountProcessed? || e.CountDlq? then [] else [e]) + Core(rest)
  {
    assert ([e] + rest)[1..] == rest;
  }

  /**
   Outcome exactness, for maxRetries >= 1: a decodable message ends in exactly one of commit,
   dead-letter then commit, mark unhealthy without commit, dead-letter without commit, as the last
   call was nil, a permanent error, a connection failure, or a panic; and the third happens iff all
   maxRetries calls failed for want of a connection.
   */
  lemma OutcomeExact(script: nat -> CallResult, from: nat, calls: nat, maxRetries: int)
    requires maxRetries >= 1 && RetriedTo(script, from, calls, maxRetries)
    ensures calls > 0
    ensures
      var core := Core(Effects(FateOf(script, from, calls)));
      var final := script(from + calls - 1);
      && (core == [Commit] <==> final == Nil)
      && (core == [MarkUnhealthy] <==> forall i :: from <= i < from + maxRetries ==> IsTransient(script(i)))
      && (core == [Produce(PanicReason)] <==> final == Panicked)
      && ((|core| == 2 && core[0].Produce? && core[1] == Commit) <==> final.Failed? && !IsTransient(final))
      && (core == [Commit] || core == [MarkUnhealthy] || core == [Produce(PanicReason)] || |core| == 2)
  {
    var final := script(from + calls - 1);
    EffectsByRoot(FateOf(script, from, calls));
    if final.Failed? { IsRoot(final.error, ConnectionFailed); }
    if calls < maxRetries {
      assert !IsTransient(final) && from <= from + calls - 1 < from + maxRetries;
    }
  }

  /** What is to be done about the last result of a call, in terms of that result. */
  function Handling(r: CallResult): seq<Effect> {
    match r
    case Nil => [Commit]
    case Panicked => [Produce(PanicReason)]
    case Failed(e) =>
      match Root(e)
      case InvalidOrder => [Produce(InvalidOrderReason), Commit]
      case AlreadyExists => [Produce(AlreadyExistsReason), Commit]
      case ConnectionFailed => [MarkUnhealthy]
      case Unknown => [Produce(UnhandledReason), Commit]
  }

  /** A message is handled by the result of its last call; one that is no order is committed uncalled. */
  lemma HandledByLastResult(msg: Message, script: nat -> CallResult, from: nat, to: nat, maxRetries: int, fate: Fate)
    requires maxRetries >= 1 && FateOfMessage(msg, script, from, to, maxRetries, fate)
    ensures msg.decoded == None ==> to == from && Core(Effects(fate)) == [Commit]
    ensures msg.decoded.Some? ==> to > from && Core(Effects(fate)) == Handling(script(to - 1))
  {
    hide Effects, Core, Root;
    EffectsByRoot(fate);
  }

  /**
   Valid means the service accepted the order, for every service, exactly when maxRetries is at
   least one: with less the loop body never runs and an unprocessed message is reported valid.
   */
  lemma ValidMeansAccepted(maxRetries: int)
    ensures
      (forall script: nat -> CallResult, from: nat, calls: nat ::
         RetriedTo(script, from, calls, maxRetries) && FateOf(script, from, calls) == Processed(None) ==>
           calls > 0 && script(from + calls - 1) == Nil)
      <==> maxRetries >= 1
  {
    if maxRetries < 1 {
      var script := (i: nat) => Panicked;
      assert RetriedTo(script, 0, 0, maxRetries) && FateOf(script, 0, 0) == Processed(None);
    }
  }

  // ----- Counters -----

  /** The counters' bookkeeping: what an effect adds to one side of an equation and takes from the other. */
  datatype Ledger = Finished | DeadLetters | Commits

  function Weight(which: Ledger, e: Effect): int {
    match which
    case Finished => if e.CountProcessed? || e == CountDlq(PanicReason) then 1 else 0
    case DeadLetters => if e.CountDlq? then 1 else if e.Produce? then -1 else 0
    case Commits => if e == Commit || e == MarkUnhealthy then 1 else if e.CountProcessed? then -1 else 0
  }

  function Balance(which: Ledger, es: seq<Effect>): int {
    if es == [] then 0 else Balance(which, es[..|es| - 1]) + Weight(which, es[|es| - 1])
  }

  /**
   Every message is counted once as valid, invalid, error or panicked; every dead-letter count has
   its send; every counted message is committed or has marked the database unhealthy.
   */
  lemma FateBalances(fate: Fate)
    ensures Balance(Finished, Effects(fate)) == 1
    ensures Balance(DeadLetters, Effects(fate)) == 0
    ensures Balance(Commits, Effects(fate)) == 0
  {
    var es := Effects(fate);
    forall which ensures Balance(which, es) == Sum(which, es, |es|) {
      SumIs(which, es, |es|);
      assert es[..|es|] == es;
    }
  }

  /** The sum of the first k weights, for lists of at most four effects. */
  function Sum(which: Ledger, es: seq<Effect>, k: nat): int
    requires k <= |es|
  {
    (if k > 0 then Weight(which, es[0]) else 0) + (if k > 1 then Weight(which, es[1]) else 0) +
    (if k > 2 then Weight(which, es[2]) else 0) + (if k > 3 then Weight(which, es[3]) else 0)
  }

  lemma {:induction false} SumIs(which: Ledger, es: seq<Effect>, k: nat)
    requires k <= |es| && k <= 4
    ensures Balance(which, es[..k]) == Sum(which, es, k)
  {
    if k > 0 {
      SumIs(which, es, k - 1);
      assert es[..k][..k - 1] == es[..k - 1];
    }
  }

  // ----- Sleeping -----

  lemma {:induction false} Pow2Add(a: nat, b: nat)
    ensures Pow2(a + b) == Pow2(a) * Pow2(b)
  {
    if a > 0 {
      Pow2Add(a - 1, b);
      TwiceTimes(Pow2(a - 1), Pow2(b));
      assert Pow2(a) == 2 * Pow2(a - 1) && Pow2(a + b) == 2 * Pow2(a - 1 + b);
    }
  }

  lemma TwiceTimes(x: nat, y: nat)
    ensures (2 * x) * y == 2 * (x * y)
  {
  }

  lemma Pow2Of63()
    ensures Pow2(63) == TWO_TO_THE_63 && Pow2(64) == 2 * TWO_TO_THE_63
  {
    assert Pow2(4) == 16;
    Pow2Add(4, 4);
    assert Pow2(8) == 256;
    Pow2Add(8, 8);
    assert Pow2(16) == 65536;
    Pow2Add(16, 16);
    assert Pow2(32) == 0x1_0000_0000;
    Pow2Add(32, 32);
    assert Pow2(64) == 0x1_0000_0000_0000_0000;
  }

  lemma {:induction false} Pow2Monotone(a: nat, b: nat)
    requires a <= b
    ensures 1 <= Pow2(a) <= Pow2(b)
  {
    if a < b {
      Pow2Monotone(a, b - 1);
    } else if a > 0 {
      Pow2Monotone(a - 1, b - 1);
    }
  }

  lemma WrapIs(x: int)
    ensures -TWO_TO_THE_63 <= Wrap64(x) < TWO_TO_THE_63
    ensures -TWO_TO_THE_63 <= x < TWO_TO_THE_63 ==> Wrap64(x) == x
  {
  }

  lemma Pow2Step(k: nat)
    ensures Pow2(k + 1) == 2 * Pow2(k)
  {
  }

  lemma ShiftIs(k: nat)
    ensures k < 63 ==> Shift64(k) == Pow2(k) < TWO_TO_THE_63
    ensures k >= 63 ==> Pow2(k) >= TWO_TO_THE_63
    ensures k == 63 ==> Shift64(k) == -TWO_TO_THE_63
    ensures k >= 64 ==> Shift64(k) == 0
  {
    hide Pow2;
    Pow2Of63();
    if k < 63 {
      Pow2Monotone(k + 1, 63);
      Pow2Step(k);
    } else {
      Pow2Monotone(63, k);
    }
  }

  lemma TimesAtLeast(b: nat, p: nat)
    ensures b > 0 ==> b * p >= p
    ensures b == 0 ==> b * p == 0
  {
    if b > 0 { assert b * p == (b - 1) * p + p; }
  }

  /** One sleep is as long as intended iff the product fits 63 bits, and else it is shorter. */
  lemma SleepExact(b: nat, k: nat)
    ensures Slept(b, k) <= b * Pow2(k)
    ensures Slept(b, k) == b * Pow2(k) <==> b * Pow2(k) < TWO_TO_THE_63
  {
    hide Pow2, Shift64, Wrap64;
    ShiftIs(k);
    TimesAtLeast(b, Pow2(k));
    WrapIs(b * Shift64(k));
    if k >= 63 && b == 0 {
      assert b * Shift64(k) == 0;
    }
  }

  lemma Spread(b: nat, p: nat)
    ensures b * (2 * p - 1) == b * (p - 1) + b * p
    ensures b * (2 * p) == 2 * (b * p)
    ensures b * p >= 0
  {
  }

  /**
   The backoff promised for f connection failures is retryBackoff * (2^f - 1) in total, and that is
   slept exactly when the last product does not overflow; else the worker sleeps less.
   */
  lemma {:induction false} TotalBackoff(b: nat, f: nat)
    ensures TotalSlept(b, f) <= b * (Pow2(f) - 1)
    ensures TotalSlept(b, f) == b * (Pow2(f) - 1) <==> f == 0 || b * Pow2(f - 1) < TWO_TO_THE_63
  {
    if f == 0 {
      assert b * (Pow2(0) - 1) == 0;
    } else {
      hide Slept;
      TotalBackoff(b, f - 1);
      SleepExact(b, f - 1);
      assert Pow2(f) == 2 * Pow2(f - 1);
      Spread(b, Pow2(f - 1));
      if f > 1 {
        assert Pow2(f - 1) == 2 * Pow2(f - 2);
        Spread(b, Pow2(f - 2));
      }
    }
  }

  lemma {:induction false} SleepsAddUp(b: nat, f: nat, g: nat)
    requires f <= g
    ensures TotalSlept(b, f) <= TotalSlept(b, g)
  {
    hide Slept;
    if f < g { SleepsAddUp(b, f, g - 1); }
  }

  lemma HalfAtLeast(b: nat, q: nat)
    requires q >= 1 && b * (2 * q) >= TWO_TO_THE_63
    ensures b * (2 * q - 1) >= TWO_TO_THE_63 / 2
  {
    Spread(b, q);
    assert b * (q - 1) >= 0;
  }

  /** The shortfall is out of reach: by the first overflow a worker has slept 2^62 nanoseconds, some 146 years. */
  lemma {:induction false} OverflowIsFar(b: nat, f: nat)
    requires b < TWO_TO_THE_63 && TotalSlept(b, f) != b * (Pow2(f) - 1)
    ensures TotalSlept(b, f) >= TWO_TO_THE_63 / 2
  {
    hide Slept;
    TotalBackoff(b, f);
    TotalBackoff(b, f - 1);
    SleepsAddUp(b, f - 1, f);
    if TotalSlept(b, f - 1) != b * (Pow2(f - 1) - 1) {
      OverflowIsFar(b, f - 1);
    } else {
      assert b * Pow2(0) == b;
      assert f >= 2 && Pow2(f - 1) == 2 * Pow2(f - 2);
      Pow2Monotone(0, f - 2);
      HalfAtLeast(b, Pow2(f - 2));
    }
  }
}
