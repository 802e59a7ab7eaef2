/** A worker of internal/consumer/workers.go: retries, classification, commit and dead-letter effects. */
module Worker {
  import opened Domain
  import opened Errors

  /** What a call of the order service does: return nil or an error, or panic. */
  datatype CallResult = Nil | Failed(error: Error) | Panicked

  datatype Status = Valid | Invalid | Erroneous

  datatype Reason = InvalidOrderReason | AlreadyExistsReason | UnhandledReason | PanicReason

  /** The visible effects of a worker, in the order it causes them. */
  datatype Effect =
    | CountProcessed(status: Status)
    | CountDlq(reason: Reason)
    | Produce(reason: Reason)
    | Commit
    | MarkUnhealthy

  /** What came out of processing a message, before its effects. */
  datatype Fate = Undecodable | Processed(error: Option<Error>) | Crashed

  /** A message: its position in the topic and what decoding makes of it. */
  datatype Message = Message(partition: nat, offset: nat, decoded: Option<Order>)

  // ----- The effects of a fate -----

  function DeadLetter(status: Status, reason: Reason): seq<Effect> {
    [CountProcessed(status), CountDlq(reason), Produce(reason), Commit]
  }

  /** handleProcessingResult, and the two ways around it: a decoding error and a recovered panic. */
  function Effects(fate: Fate): seq<Effect> {
    match fate
    case Undecodable => [CountProcessed(Invalid), Commit]
    case Crashed => [CountDlq(PanicReason), Produce(PanicReason)]
    case Processed(None) => [CountProcessed(Valid), Commit]
    case Processed(Some(e)) =>
      if Is(e, InvalidOrder) then DeadLetter(Invalid, InvalidOrderReason)
      else if Is(e, AlreadyExists) then DeadLetter(Invalid, AlreadyExistsReason)
      else if Is(e, ConnectionFailed) then [CountProcessed(Erroneous), MarkUnhealthy]
      else DeadLetter(Erroneous, UnhandledReason)
  }

  // ----- Retries -----

  predicate IsTransient(r: CallResult) {
    r.Failed? && Is(r.error, ConnectionFailed)
  }

  /** The results of the calls made, the first of them at index from. */
  ghost predicate RetriedTo(script: nat -> CallResult, from: nat, calls: nat, maxRetries: int) {
    && calls <= (if maxRetries > 0 then maxRetries else 0)
    && (forall i :: from <= i < from + calls - 1 ==> IsTransient(script(i)))
    && (calls < maxRetries ==> calls > 0 && !IsTransient(script(from + calls - 1)))
  }

  /** What processWithRetries makes of the last call; with no call at all it reports success. */
  function FateOf(script: nat -> CallResult, from: nat, calls: nat): Fate {
    if calls == 0 then Processed(None) else
      match script(from + calls - 1)
      case Nil => Processed(None)
      case Failed(e) => Processed(Some(e))
      case Panicked => Crashed
  }

  /** The fate of one message that made the service calls from index from up to index to. */
  ghost predicate FateOfMessage(msg: Message, script: nat -> CallResult, from: nat, to: nat, maxRetries: int,
        fate: Fate)
  {
    if msg.decoded == None then fate == Undecodable && to == from
    else from <= to && RetriedTo(script, from, to - from, maxRetries) && fate == FateOf(script, from, to - from)
  }

  // ----- Sleeping -----

  const TWO_TO_THE_63 := 0x8000_0000_0000_0000

  /** A 64-bit two's complement integer. */
  function Wrap64(x: int): int {
    (x + TWO_TO_THE_63) % (2 * TWO_TO_THE_63) - TWO_TO_THE_63
  }

  function Pow2(n: nat): nat {
    if n == 0 then 1 else 2 * Pow2(n - 1)
  }

  /** time.Duration(1<<attempt). */
  function Shift64(attempt: nat): int {
    if attempt >= 64 then 0 else Wrap64(Pow2(attempt))
  }

  /** The argument of the sleep after a transient failure; a sleep that is not positive returns at once. */
  function Backoff(retryBackoff: int, attempt: nat): int {
    Wrap64(retryBackoff * Shift64(attempt))
  }

  function Slept(retryBackoff: int, attempt: nat): nat {
    if Backoff(retryBackoff, attempt) > 0 then Backoff(retryBackoff, attempt) else 0
  }

  function TotalSlept(retryBackoff: int, failures: nat): nat {
    if failures == 0 then 0 else TotalSlept(retryBackoff, failures - 1) + Slept(retryBackoff, failures - 1)
  }

  /** The number of calls that failed for want of a connection. */
  ghost function Failures(script: nat -> CallResult, from: nat, calls: nat): nat {
    |set i: nat | from <= i < from + calls && IsTransient(script(i))|
  }

  /** One more call counts iff it is transient. */
  lemma FailuresGrow(script: nat -> CallResult, from: nat, calls: nat)
    ensures Failures(script, from, 0) == 0
    ensures Failures(script, from, calls + 1) ==
            Failures(script, from, calls) + if IsTransient(script(from + calls)) then 1 else 0
  {
    var before := set i: nat | from <= i < from + calls && IsTransient(script(i));
    var after := set i: nat | from <= i < from + (calls + 1) && IsTransient(script(i));
    assert (set i: nat | from <= i < from + 0 && IsTransient(script(i))) == {};
    assert after == before + if IsTransient(script(from + calls)) then {from + calls} else {};
  }

  // ----- The worker -----

  class Worker {
    const maxRetries: int
    const retryBackoff: int
    /** The results the service gives, call by call. */
    const script: nat -> CallResult
    var calls: nat
    var slept: nat
    var log: seq<Effect>
    var transientErrors: nat

    constructor (maxRetries: int, retryBackoff: int, script: nat -> CallResult)
      ensures this.maxRetries == maxRetries && this.retryBackoff == retryBackoff && this.script == script
      ensures calls == 0 && slept == 0 && log == [] && transientErrors == 0
    {
      this.maxRetries := maxRetries;
      this.retryBackoff := retryBackoff;
      this.script := script;
      calls, slept, log, transientErrors := 0, 0, [], 0;
    }

    method Emit(e: Effect)
      modifies `log
      ensures log == old(log) + [e]
    {
      log := log + [e];
    }

    /**
     processWithRetries: calls the service until it does not fail for want of a connection, at most
     maxRetries times, sleeping after every such failure, the last one included.
     */
    method ProcessWithRetries() returns (fate: Fate)
      modifies `calls, `slept, `transientErrors
      ensures calls >= old(calls) && RetriedTo(script, old(calls), calls - old(calls), maxRetries)
      ensures fate == FateOf(script, old(calls), calls - old(calls))
      ensures slept == old(slept) + TotalSlept(retryBackoff, Failures(script, old(calls), calls - old(calls)))
      ensures transientErrors == old(transientErrors) + Failures(script, old(calls), calls - old(calls))
    {
      hide Is, Backoff, Slept, Failures;
      fate := Processed(None);
      var attempt := 0;
      FailuresGrow(script, calls, 0);
      while attempt < maxRetries
        invariant 0 <= attempt && calls == old(calls) + attempt
        invariant attempt > 0 ==> attempt <= maxRetries
        invariant forall i :: old(calls) <= i < calls ==> IsTransient(script(i))
        invariant fate == FateOf(script, old(calls), attempt)
        invariant attempt == Failures(script, old(calls), attempt)
        invariant slept == old(slept) + TotalSlept(retryBackoff, attempt)
        invariant transientErrors == old(transientErrors) + attempt
        decreases maxRetries - attempt
      {
        var r := script(calls);
        FailuresGrow(script, old(calls), attempt);
        calls := calls + 1;
        match r {
          case Nil => return Processed(None);
          case Panicked => return Crashed;
          case Failed(e) =>
            fate := Processed(Some(e));
            if !Is(e, ConnectionFailed) {
              return;
            }
            transientErrors := transientErrors + 1;
            slept := slept + Slept(retryBackoff, attempt);
        }
        attempt := attempt + 1;
      }
    }

    /** handleProcessingResult. */
    method HandleProcessingResult(error: Option<Error>)
      modifies `log
      ensures log == old(log) + Effects(Processed(error))
    {
      match error {
        case None =>
          Emit(CountProcessed(Valid));
        case Some(e) =>
          if Is(e, InvalidOrder) {
            Emit(CountProcessed(Invalid));
            Emit(CountDlq(InvalidOrderReason));
            Emit(Produce(InvalidOrderReason));
          } else if Is(e, AlreadyExists) {
            Emit(CountProcessed(Invalid));
            Emit(CountDlq(AlreadyExistsReason));
            Emit(Produce(AlreadyExistsReason));
          } else if Is(e, ConnectionFailed) {
            Emit(CountProcessed(Erroneous));
            Emit(MarkUnhealthy);
            return;
          } else {
            Emit(CountProcessed(Erroneous));
            Emit(CountDlq(UnhandledReason));
            Emit(Produce(UnhandledReason));
          }
      }
      Emit(Commit);
    }

    /** processMessage under the panic recovery of run. */
    method ProcessMessage(msg: Message) returns (fate: Fate)
      modifies `calls, `slept, `transientErrors, `log
      ensures log == old(log) + Effects(fate)
      ensures FateOfMessage(msg, script, old(calls), calls, maxRetries, fate)
    {
      hide Is;
      if msg.decoded == None {
        Emit(CountProcessed(Invalid));
        Emit(Commit);
        return Undecodable;
      }
      fate := ProcessWithRetries();
      match fate {
        case Processed(error) =>
          HandleProcessingResult(error);
        case Crashed =>
          Emit(CountDlq(PanicReason));
          Emit(Produce(PanicReason));
        case Undecodable =>
          assert false;
      }
    }

    /**
     run: takes messages off the channel until the context ends, which it may notice before any
     receive, or the channel is closed and drained. noticed says when it chooses the context. The
     i-th message makes the calls from marks[i] up to marks[i + 1].
     */
    method Run(jobs: seq<Message>, noticed: nat -> bool) returns (fates: seq<Fate>, ghost marks: seq<nat>)
      modifies `calls, `slept, `transientErrors, `log
      ensures |fates| <= |jobs| && log == old(log) + AllEffects(fates)
      ensures |fates| < |jobs| ==> noticed(|fates|)
      ensures forall i :: 0 <= i < |fates| ==> !noticed(i)
      ensures |marks| == |fates| + 1 && marks[0] == old(calls) && marks[|fates|] == calls
      ensures forall i :: 0 <= i < |fates| ==>
                FateOfMessage(jobs[i], script, marks[i], marks[i + 1], maxRetries, fates[i])
    {
      hide Effects, FateOfMessage, AllEffects, RetriedTo, FateOf;
      AllEffectsGrows();
      fates, marks := [], [calls];
      while |fates| < |jobs|
        invariant |fates| <= |jobs| && log == old(log) + AllEffects(fates)
        invariant forall j :: 0 <= j < |fates| ==> !noticed(j)
        invariant |marks| == |fates| + 1 && marks[0] == old(calls) && marks[|fates|] == calls
        invariant forall i :: 0 <= i < |fates| ==>
                    FateOfMessage(jobs[i], script, marks[i], marks[i + 1], maxRetries, fates[i])
      {
        if noticed(|fates|) {
          return;
        }
        var fate := ProcessMessage(jobs[|fates|]);
        fates, marks := fates + [fate], marks + [calls];
      }
    }
  }

  lemma AllEffectsGrows()
    ensures AllEffects([]) == []
    ensures forall fates: seq<Fate>, fate {:trigger AllEffects(fates + [fate])} ::
              AllEffects(fates + [fate]) == AllEffects(fates) + Effects(fate)
  {
    forall fates: seq<Fate>, fate ensures AllEffects(fates + [fate]) == AllEffects(fates) + Effects(fate) {
      assert (fates + [fate])[..|fates|] == fates;
    }
  }

  /** The effects of messages processed one after the other. */
  ghost function AllEffects(fates: seq<Fate>): seq<Effect> {
    if fates == [] then [] else AllEffects(fates[..|fates| - 1]) + Effects(fates[|fates| - 1])
  }
}
