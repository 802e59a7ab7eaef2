/**
 The consumer as a step system: the poll goroutine and the workers of internal/consumer, joined by a
 bounded channel, and the health checker of internal/pkg/health, in any interleaving. A run is a
 sequence of actions; what the broker, the store and the database driver do is chosen by the actions.
 */
module Pipeline {
  import opened Domain
  import opened Errors
  import opened Worker

  datatype Config = Config(jobBuffer: nat, workerCount: nat, maxRetries: int)

  /** One message as handed out by one Poll; redeliveries of a message are different jobs. */
  datatype Job = Job(id: nat, msg: Message)

  /** The poll loop: the context check, manageConsumerState with its two loads, Poll, the channel send. */
  datatype Poller = AtTop | FirstLoad | Pausing | SecondLoad | Resuming | Polling | Sending(d: Job) | Closed

  /** results are those of the service calls made for d so far; stored says that the last one committed. */
  datatype WorkerPhase =
    | Idle
    | Decoding(d: Job)
    | Calling(d: Job, results: seq<CallResult>, stored: bool)
    | Sleeping(d: Job, results: seq<CallResult>)
    | Emitting(d: Job, results: seq<CallResult>, fate: Fate, todo: seq<Effect>)
    | Exited

  /**
   checkHealth: ping, then load, then perhaps store. The ping runs under the context that also ends the
   consumer, so one begun after the cancellation fails.
   */
  datatype Pinger = Waiting | Pinged(ok: bool) | Loaded(ok: bool, was: bool)

  datatype Event = Event(d: Job, effect: Effect)

  /** A stored order, and the job whose call stored it; none if it was there before or someone else stored it. */
  datatype Row = Row(order: Order, storer: Option<Job>)

  datatype Finish = Finish(d: Job, results: seq<CallResult>, fate: Fate)

  datatype State = State(
    cancelled: bool,
    poller: Poller,
    paused: bool,
    brokerPaused: bool,
    queue: seq<Job>,
    workers: seq<WorkerPhase>,
    healthy: bool,
    pinger: Pinger,
    db: map<string, Row>,
    committed: map<nat, nat>,
    acked: seq<Job>,
    log: seq<Event>,
    polled: seq<Job>,
    dropped: seq<Job>,
    finished: seq<Finish>)

  datatype Action =
    | Cancel
    | CheckContext
    | LoadFirst
    | PauseDone(ok: bool)
    | LoadSecond
    | ResumeDone(ok: bool)
    | PollNothing
    | PollMessage(msg: Message)
    | Enqueue
    | Take(w: nat)
    | Handoff(w: nat)
    | ExitCancelled(w: nat)
    | ExitClosed(w: nat)
    | Decode(w: nat)
    | StoreOrder(w: nat)
    | Return(w: nat, result: CallResult)
    | Wake(w: nat)
    | Emit(w: nat, ok: bool)
    | FinishMessage(w: nat)
    | Ping(ok: bool)
    | Load
    | StoreHealth
    | StoreElsewhere(order: Order)

  function Uid(d: Job): string {
    if d.msg.decoded.Some? then d.msg.decoded.value.orderUID else ""
  }

  /** Results as a service script. */
  function ScriptOf(results: seq<CallResult>): nat -> CallResult {
    (i: nat) => if i < |results| then results[i] else Nil
  }

  function FateOfResult(r: CallResult): Fate {
    match r
    case Nil => Processed(None)
    case Failed(e) => Processed(Some(e))
    case Panicked => Crashed
  }

  /**
   What a call of the service may return, as the store's contract has it: nil only after a commit, a
   connection failure only without one, AlreadyExists only for a uid already taken; a raw commit error
   or a panic leaves open whether the order was committed.
   */
  predicate MayReturn(db: map<string, Row>, d: Job, stored: bool, r: CallResult) {
    match r
    case Nil => stored
    case Panicked => true
    case Failed(e) =>
      && (Is(e, ConnectionFailed) || Is(e, InvalidOrder) ==> !stored)
      && (Is(e, AlreadyExists) ==> !stored && Uid(d) in db)
  }

  predicate At(s: State, w: nat) {
    w < |s.workers|
  }

  predicate Enabled(c: Config, s: State, a: Action) {
    match a
    case Cancel => !s.cancelled
    case CheckContext => s.poller.AtTop?
    case LoadFirst => s.poller.FirstLoad?
    case PauseDone(_) => s.poller.Pausing?
    case LoadSecond => s.poller.SecondLoad?
    case ResumeDone(_) => s.poller.Resuming?
    case PollNothing => s.poller.Polling?
    case PollMessage(_) => s.poller.Polling?
    case Enqueue => s.poller.Sending? && |s.queue| < c.jobBuffer
    case Take(w) => At(s, w) && s.workers[w].Idle? && s.queue != []
    case Handoff(w) => At(s, w) && s.workers[w].Idle? && s.queue == [] && s.poller.Sending?
    case ExitCancelled(w) => At(s, w) && s.workers[w].Idle? && s.cancelled
    case ExitClosed(w) => At(s, w) && s.workers[w].Idle? && s.queue == [] && s.poller.Closed?
    case Decode(w) => At(s, w) && s.workers[w].Decoding?
    case StoreOrder(w) =>
      && At(s, w) && s.workers[w].Calling? && !s.workers[w].stored
      && s.workers[w].d.msg.decoded.Some? && Uid(s.workers[w].d) !in s.db
    case Return(w, r) => At(s, w) && s.workers[w].Calling? && MayReturn(s.db, s.workers[w].d, s.workers[w].stored, r)
    case Wake(w) => At(s, w) && s.workers[w].Sleeping?
    case Emit(w, _) => At(s, w) && s.workers[w].Emitting? && s.workers[w].todo != []
    case FinishMessage(w) => At(s, w) && s.workers[w].Emitting? && s.workers[w].todo == []
    case Ping(ok) => s.pinger.Waiting? && (ok ==> !s.cancelled)
    case Load => s.pinger.Pinged?
    case StoreHealth => s.pinger.Loaded?
    case StoreElsewhere(o) => o.orderUID !in s.db
  }

  function Emitted(d: Job, results: seq<CallResult>, fate: Fate): WorkerPhase {
    Emitting(d, results, fate, Effects(fate))
  }

  /** The worker phase after decoding: with no retries allowed the message counts as processed at once. */
  function AfterDecode(c: Config, d: Job): WorkerPhase {
    if d.msg.decoded == None then Emitted(d, [], Undecodable)
    else if c.maxRetries > 0 then Calling(d, [], false)
    else Emitted(d, [], Processed(None))
  }

  function AfterReturn(d: Job, results: seq<CallResult>, r: CallResult): WorkerPhase {
    if IsTransient(r) then Sleeping(d, results + [r]) else Emitted(d, results + [r], FateOfResult(r))
  }

  function AfterSleep(c: Config, d: Job, results: seq<CallResult>): WorkerPhase {
    if |results| < c.maxRetries then Calling(d, results, false)
    else Emitted(d, results, FateOf(ScriptOf(results), 0, |results|))
  }

  function HealthAfterStore(ok: bool, was: bool, healthy: bool): bool {
    if !ok && was then false else if ok && !was then true else healthy
  }

  function Apply(c: Config, s: State, a: Action): State
    requires Enabled(c, s, a)
  {
    match a
    case Cancel => s.(cancelled := true)
    case CheckContext => s.(poller := if s.cancelled then Closed else FirstLoad)
    case LoadFirst => s.(poller := if !s.healthy && !s.paused then Pausing else SecondLoad)
    case PauseDone(ok) => s.(poller := Polling, paused := ok || s.paused, brokerPaused := ok || s.brokerPaused)
    case LoadSecond => s.(poller := if s.healthy && s.paused then Resuming else Polling)
    case ResumeDone(ok) => s.(poller := Polling, paused := !ok && s.paused, brokerPaused := !ok && s.brokerPaused)
    case PollNothing => s.(poller := AtTop)
    case PollMessage(m) =>
      var d := Job(|s.polled|, m);
      if s.paused then s.(polled := s.polled + [d], dropped := s.dropped + [d], poller := AtTop)
      else s.(polled := s.polled + [d], poller := Sending(d))
    case Enqueue => s.(queue := s.queue + [s.poller.d], poller := AtTop)
    case Take(w) => s.(queue := s.queue[1..], workers := s.workers[w := Decoding(s.queue[0])])
    case Handoff(w) => s.(poller := AtTop, workers := s.workers[w := Decoding(s.poller.d)])
    case ExitCancelled(w) => s.(workers := s.workers[w := Exited])
    case ExitClosed(w) => s.(workers := s.workers[w := Exited])
    case Decode(w) => s.(workers := s.workers[w := AfterDecode(c, s.workers[w].d)])
    case StoreOrder(w) =>
      var p := s.workers[w];
      s.(db := s.db[Uid(p.d) := Row(p.d.msg.decoded.value, Some(p.d))],
         workers := s.workers[w := Calling(p.d, p.results, true)])
    case Return(w, r) => s.(workers := s.workers[w := AfterReturn(s.workers[w].d, s.workers[w].results, r)])
    case Wake(w) => s.(workers := s.workers[w := AfterSleep(c, s.workers[w].d, s.workers[w].results)])
    case Emit(w, ok) =>
      var p := s.workers[w];
      var e := p.todo[0];
      s.(log := s.log + [Event(p.d, e)],
         workers := s.workers[w := p.(todo := p.todo[1..])],
         healthy := s.healthy && e != MarkUnhealthy,
         committed := if e == Commit && ok then s.committed[p.d.msg.partition := p.d.msg.offset + 1] else s.committed,
         acked := if e == Commit && ok then s.acked + [p.d] else s.acked)
    case FinishMessage(w) =>
      var p := s.workers[w];
      s.(workers := s.workers[w := Idle], finished := s.finished + [Finish(p.d, p.results, p.fate)])
    case Ping(ok) => s.(pinger := Pinged(ok))
    case Load => s.(pinger := Loaded(s.pinger.ok, s.healthy))
    case StoreHealth =>
      s.(pinger := Waiting, healthy := HealthAfterStore(s.pinger.ok, s.pinger.was, s.healthy))
    case StoreElsewhere(o) => s.(db := s.db[o.orderUID := Row(o, None)])
  }

  /** Orders stored before this run, under their own uids. */
  ghost predicate Earlier(db: map<string, Row>) {
    forall uid :: uid in db ==> db[uid].order.orderUID == uid && db[uid].storer == None
  }

  /** Before the first step: nothing polled; the health flag and the stored orders may be anything. */
  function Start(c: Config, healthy: bool, db: map<string, Row>): State {
    State(false, AtTop, false, false, [], seq(c.workerCount, _ => Idle), healthy, Waiting,
          db, map[], [], [], [], [], [])
  }

  /** The states of a run: actions is a run from s to t. */
  ghost predicate Run(c: Config, s: State, actions: seq<Action>, t: State)
    decreases |actions|
  {
    if actions == [] then s == t else
      Enabled(c, s, actions[0]) && Run(c, Apply(c, s, actions[0]), actions[1..], t)
  }

  ghost predicate Reachable(c: Config, t: State) {
    exists actions, healthy, db :: Earlier(db) && Run(c, Start(c, healthy, db), actions, t)
  }
}
