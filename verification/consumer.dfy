/** The poll loop of internal/consumer/consumer.go, and how it is the poller of the step system. */
module Consumer {
  import opened Worker
  import opened Pipeline
  import opened PipelineInv

  /** What consumer.Assignment returns. */
  datatype Assignment = AssignmentFailed | Assigned(partitions: set<nat>)

  /** What consumer.Poll returns: nothing, a message, or a rebalance notice or an error, both only logged. */
  datatype Event = Nothing | Received(msg: Message) | Notice

  /** What one iteration meets: the two loads of the flag, the broker's answers and the polled event. */
  datatype Round = Round(first: bool, second: bool, assignment: Assignment, accepted: bool, event: Event)

  /** The poll loop's local flag, the partitions paused at the broker, and where the messages went. */
  datatype Polls = Polls(isPaused: bool, pausedPartitions: set<nat>, sent: seq<Message>, dropped: seq<Message>)

  const NOTHING_YET := Polls(false, {}, [], [])

  /** The broker carries out a request made in this round. */
  predicate Obeyed(r: Round) {
    r.assignment.Assigned? && r.assignment.partitions != {} && r.accepted
  }

  /** The local flag changes when a load of the flag asks for it and the broker obeys. */
  predicate PausedAfter(isPaused: bool, r: Round) {
    if Obeyed(r) then (if isPaused then !r.second else !r.first) else isPaused
  }

  function Managed(p: Polls, r: Round): Polls {
    if PausedAfter(p.isPaused, r) == p.isPaused then p
    else if p.isPaused then p.(isPaused := false, pausedPartitions := p.pausedPartitions - r.assignment.partitions)
    else p.(isPaused := true, pausedPartitions := p.pausedPartitions + r.assignment.partitions)
  }

  function AfterRound(p: Polls, r: Round): Polls {
    var q := Managed(p, r);
    if !r.event.Received? then q
    else if q.isPaused then q.(dropped := q.dropped + [r.event.msg])
    else q.(sent := q.sent + [r.event.msg])
  }

  function AfterRounds(p: Polls, rounds: seq<Round>): Polls {
    if rounds == [] then p else AfterRound(AfterRounds(p, rounds[..|rounds| - 1]), rounds[|rounds| - 1])
  }

  class KafkaConsumer {
    var isPaused: bool
    /** The broker's paused partitions. */
    var pausedPartitions: set<nat>
    /** The messages put into the jobs channel, and whether it is closed. */
    var jobs: seq<Message>
    var closed: bool
    ghost var dropped: seq<Message>

    constructor ()
      ensures View() == NOTHING_YET && !closed
    {
      isPaused, pausedPartitions, jobs, closed, dropped := false, {}, [], false, [];
    }

    ghost function View(): Polls
      reads this
    {
      Polls(isPaused, pausedPartitions, jobs, dropped)
    }

    /**
     Pauses when the database is unhealthy and resumes when it is healthy again: the flag changes iff a load
     asks for it, some partition is assigned, and the broker accepts.
     */
    method ManageConsumerState(r: Round)
      modifies `isPaused, `pausedPartitions
      ensures View() == Managed(old(View()), r)
      ensures isPaused != old(isPaused) <==>
              && (if old(isPaused) then r.second else !r.first)
              && r.assignment.Assigned? && r.assignment.partitions != {} && r.accepted
      ensures isPaused == old(isPaused) ==> pausedPartitions == old(pausedPartitions)
      ensures isPaused && !old(isPaused) ==> pausedPartitions == old(pausedPartitions) + r.assignment.partitions
      ensures !isPaused && old(isPaused) ==> pausedPartitions == old(pausedPartitions) - r.assignment.partitions
    {
      if !r.first && !isPaused {
        if r.assignment.Assigned? && r.assignment.partitions != {} {
          if r.accepted {
            pausedPartitions := pausedPartitions + r.assignment.partitions;
            isPaused := true;
          }
        }
      } else if r.second && isPaused {
        if r.assignment.Assigned? && r.assignment.partitions != {} {
          if r.accepted {
            pausedPartitions := pausedPartitions - r.assignment.partitions;
            isPaused := false;
          }
        }
      }
    }

    /** The poll goroutine of Run: round after round until it finds the context done; then it closes the channel. */
    method Poll(rounds: seq<Round>, done: nat -> bool) returns (n: nat)
      requires !closed
      modifies this
      ensures n <= |rounds| && View() == AfterRounds(old(View()), rounds[..n])
      ensures closed <==> n < |rounds|
      ensures (closed ==> done(n)) && forall i :: 0 <= i < n ==> !done(i)
    {
      hide Managed;
      n := 0;
      while n < |rounds|
        invariant n <= |rounds| && View() == AfterRounds(old(View()), rounds[..n])
        invariant !closed && forall i :: 0 <= i < n ==> !done(i)
      {
        if done(n) {
          closed := true;
          return;
        }
        ManageConsumerState(rounds[n]);
        match rounds[n].event {
          case Nothing =>
          case Received(e) =>
            if !isPaused {
              jobs := jobs + [e];
            } else {
              dropped := dropped + [e];
            }
          case Notice =>
        }
        assert rounds[..n + 1][..n] == rounds[..n];
        n := n + 1;
      }
    }
  }

  // ----- What the loop keeps -----

  function Messages(rounds: seq<Round>): seq<Message> {
    if rounds == [] then [] else
      Messages(rounds[..|rounds| - 1]) + MessageOf(rounds[|rounds| - 1])
  }

  function MessageOf(r: Round): seq<Message> {
    if r.event.Received? then [r.event.msg] else []
  }

  /** A round sends or drops the message it polls. */
  lemma RoundMessages(p: Polls, r: Round)
    ensures
      var q := AfterRound(p, r);
      || (q.sent == p.sent + MessageOf(r) && q.dropped == p.dropped)
      || (q.sent == p.sent && q.dropped == p.dropped + MessageOf(r))
  {
    hide PausedAfter;
  }

  /** Every message polled is either sent or dropped, and nothing else is. */
  lemma {:induction false} EachMessageOnce(p: Polls, rounds: seq<Round>)
    ensures
      var q := AfterRounds(p, rounds);
      && multiset(q.sent) + multiset(q.dropped) == multiset(p.sent) + multiset(p.dropped) + multiset(Messages(rounds))
      && p.sent <= q.sent && p.dropped <= q.dropped
  {
    hide AfterRound, MessageOf;
    if rounds != [] {
      var init, r := rounds[..|rounds| - 1], rounds[|rounds| - 1];
      var before := AfterRounds(p, init);
      EachMessageOnce(p, init);
      RoundMessages(before, r);
      var q, m := AfterRounds(p, rounds), MessageOf(r);
      assert multiset(q.sent) + multiset(q.dropped) == multiset(before.sent) + multiset(before.dropped) + multiset(m);
      assert multiset(Messages(rounds)) == multiset(Messages(init)) + multiset(m);
    }
  }

  /** While no round resumes, a paused loop sends nothing and drops all it is given. */
  lemma {:induction false} NothingSentWhilePaused(p: Polls, rounds: seq<Round>)
    requires p.isPaused && forall i :: 0 <= i < |rounds| ==> !(rounds[i].second && Obeyed(rounds[i]))
    ensures AfterRounds(p, rounds) == p.(dropped := p.dropped + Messages(rounds))
  {
    if rounds != [] {
      NothingSentWhilePaused(p, rounds[..|rounds| - 1]);
    }
  }

  /** While every load finds the database healthy, a running loop sends all it is given. */
  lemma {:induction false} AllSentWhileHealthy(p: Polls, rounds: seq<Round>)
    requires !p.isPaused && forall i :: 0 <= i < |rounds| ==> rounds[i].first
    ensures AfterRounds(p, rounds) == p.(sent := p.sent + Messages(rounds))
  {
    if rounds != [] {
      AllSentWhileHealthy(p, rounds[..|rounds| - 1]);
    }
  }

  /** Whatever the assignments, a paused loop has paused some partition at the broker. */
  lemma {:induction false} PausedMeansPartitions(rounds: seq<Round>)
    ensures
      var p := AfterRounds(NOTHING_YET, rounds);
      p.isPaused ==> p.pausedPartitions != {}
  {
    if rounds != [] {
      var r := rounds[|rounds| - 1];
      PausedMeansPartitions(rounds[..|rounds| - 1]);
      if Obeyed(r) {
        var x :| x in r.assignment.partitions;
        assert x in AfterRounds(NOTHING_YET, rounds[..|rounds| - 1]).pausedPartitions + r.assignment.partitions;
      }
    }
  }

  /** The local flag is true to the broker as long as the assignment stays the same. */
  lemma {:induction false} FlagMatchesBroker(p: Polls, rounds: seq<Round>, all: set<nat>)
    requires p.pausedPartitions == if p.isPaused then all else {}
    requires forall i :: 0 <= i < |rounds| && rounds[i].assignment.Assigned? ==> rounds[i].assignment.partitions == all
    ensures
      var q := AfterRounds(p, rounds);
      q.pausedPartitions == if q.isPaused then all else {}
  {
    if rounds != [] {
      FlagMatchesBroker(p, rounds[..|rounds| - 1], all);
    }
  }

  // ----- The loop is the poller of the step system -----

  /** The messages polled and not dropped, in order. */
  ghost function SentOf(polled: seq<Job>, dropped: seq<Job>): seq<Message> {
    if polled == [] then [] else
      var n := |polled| - 1;
      SentOf(polled[..n], dropped) + if polled[n] in dropped then [] else [polled[n].msg]
  }

  function MessagesOf(js: seq<Job>): seq<Message> {
    seq(|js|, i requires 0 <= i < |js| => js[i].msg)
  }

  /** The loop's record agrees with the poller's. */
  ghost predicate SameMessages(p: Polls, polled: seq<Job>, dropped: seq<Job>) {
    && p.sent == SentOf(polled, dropped) && p.dropped == MessagesOf(dropped)
    && Numbered(polled) && forall j :: j in dropped ==> j.id < |polled|
  }

  /** A round that has not begun: nothing loaded, the broker not asked, nothing polled. */
  const FRESH_ROUND := Round(true, true, AssignmentFailed, false, Nothing)

  /** The rounds a run has completed, and the one the poller is in. */
  datatype Trace = Trace(past: seq<Round>, now: Round)

  const NO_ROUNDS := Trace([], FRESH_ROUND)

  /** What a step adds to the record: the flag as loaded, the broker's answer, the event polled. */
  function Noted(s: State, a: Action, trace: Trace): Trace {
    match a
    case LoadFirst => trace.(now := trace.now.(first := s.healthy))
    case LoadSecond => trace.(now := trace.now.(second := s.healthy))
    case PauseDone(ok) => trace.(now := trace.now.(assignment := Assigned({0}), accepted := ok))
    case ResumeDone(ok) => trace.(now := trace.now.(assignment := Assigned({0}), accepted := ok))
    case PollNothing => Trace(trace.past + [trace.now.(event := Nothing)], FRESH_ROUND)
    case PollMessage(m) => Trace(trace.past + [trace.now.(event := Received(m))], FRESH_ROUND)
    case _ => trace
  }

  /** The rounds read off a run. */
  ghost function Recorded(c: Config, s: State, actions: seq<Action>, trace: Trace): Trace
    decreases |actions|
  {
    if actions == [] || !Enabled(c, s, actions[0]) then trace
    else Recorded(c, Apply(c, s, actions[0]), actions[1..], Noted(s, actions[0], trace))
  }

  /** The poller is where the loop is after the rounds recorded. */
  ghost predicate Follows(s: State, trace: Trace) {
    var p, r := AfterRounds(NOTHING_YET, trace.past), trace.now;
    && SameMessages(p, s.polled, s.dropped) && Messages(trace.past) == MessagesOf(s.polled)
    && (!s.poller.Polling? ==> p.isPaused == s.paused && r.assignment == AssignmentFailed)
    && match s.poller
       case Pausing => !s.paused && !r.first
       case SecondLoad => s.paused || r.first
       case Resuming => s.paused && r.second
       case Polling => PausedAfter(p.isPaused, r) == s.paused
       case _ => r == FRESH_ROUND
  }

  lemma {:induction false} DroppedLater(polled: seq<Job>, dropped: seq<Job>, d: Job)
    requires forall i :: 0 <= i < |polled| ==> polled[i] != d
    ensures SentOf(polled, dropped + [d]) == SentOf(polled, dropped)
  {
    if polled != [] {
      DroppedLater(polled[..|polled| - 1], dropped, d);
      assert polled[|polled| - 1] in dropped + [d] <==> polled[|polled| - 1] in dropped;
    }
  }

  lemma PolledMessage(p: Polls, polled: seq<Job>, dropped: seq<Job>, m: Message)
    requires SameMessages(p, polled, dropped)
    ensures
      var d := Job(|polled|, m);
      && SameMessages(p.(sent := p.sent + [m]), polled + [d], dropped)
      && SameMessages(p.(dropped := p.dropped + [m]), polled + [d], dropped + [d])
  {
    var d := Job(|polled|, m);
    assert (polled + [d])[..|polled|] == polled;
    DroppedLater(polled, dropped, d);
    assert MessagesOf(dropped + [d]) == MessagesOf(dropped) + [m];
  }

  lemma RoundEnds(rounds: seq<Round>, r: Round)
    ensures AfterRounds(NOTHING_YET, rounds + [r]) == AfterRound(AfterRounds(NOTHING_YET, rounds), r)
    ensures Messages(rounds + [r]) == Messages(rounds) + MessageOf(r)
  {
    assert (rounds + [r])[..|rounds|] == rounds;
  }

  /** The poller's own step is a part of the loop's round. */
  lemma PollerFollows(c: Config, s: State, a: Action, trace: Trace)
    requires Follows(s, trace) && Enabled(c, s, a)
    requires a.LoadFirst? || a.PauseDone? || a.LoadSecond? || a.ResumeDone?
    ensures Follows(Apply(c, s, a), Noted(s, a, trace))
  {
    hide AfterRounds, SameMessages, Messages, MessagesOf;
  }

  lemma PollFollows(c: Config, s: State, a: Action, trace: Trace)
    requires Follows(s, trace) && Enabled(c, s, a) && (a.PollNothing? || a.PollMessage?)
    ensures Follows(Apply(c, s, a), Noted(s, a, trace))
  {
    hide AfterRounds, SameMessages, PausedAfter, Messages, MessagesOf;
    var p, t := AfterRounds(NOTHING_YET, trace.past), Apply(c, s, a);
    var q := trace.now.(event := if a.PollMessage? then Received(a.msg) else Nothing);
    RoundEnds(trace.past, q);
    SameFlags(p, trace.now, q);
    if a.PollMessage? {
      PolledMessage(p, s.polled, s.dropped, a.msg);
      JobMessages(s.polled, Job(|s.polled|, a.msg));
      SameRecord(p.(sent := p.sent + [a.msg]), AfterRound(p, q), t.polled, s.dropped);
      SameRecord(p.(dropped := p.dropped + [a.msg]), AfterRound(p, q), t.polled, s.dropped + [Job(|s.polled|, a.msg)]);
    } else {
      SameRecord(p, AfterRound(p, q), s.polled, s.dropped);
    }
  }

  lemma JobMessages(js: seq<Job>, d: Job)
    ensures MessagesOf(js + [d]) == MessagesOf(js) + [d.msg]
  {
  }

  lemma SameFlags(p: Polls, r: Round, q: Round)
    requires q.(event := r.event) == r
    ensures PausedAfter(p.isPaused, q) == PausedAfter(p.isPaused, r) == Managed(p, q).isPaused
    ensures Managed(p, q).sent == p.sent && Managed(p, q).dropped == p.dropped
  {
  }

  lemma SameRecord(p: Polls, q: Polls, polled: seq<Job>, dropped: seq<Job>)
    ensures p.sent == q.sent && p.dropped == q.dropped && SameMessages(p, polled, dropped) ==>
            SameMessages(q, polled, dropped)
  {
  }

  /** No other step changes what the loop has seen. */
  lemma OthersFollow(c: Config, s: State, a: Action, trace: Trace)
    requires Follows(s, trace) && Enabled(c, s, a)
    requires !a.LoadFirst? && !a.PauseDone? && !a.LoadSecond? && !a.ResumeDone? && !a.PollNothing? && !a.PollMessage?
    ensures Follows(Apply(c, s, a), trace)
  {
    hide AfterRounds, SameMessages, PausedAfter, Messages, MessagesOf;
    hide MayReturn, AfterDecode, AfterReturn, AfterSleep, HealthAfterStore;
  }

  lemma {:induction false} RunFollows(c: Config, s: State, actions: seq<Action>, t: State, trace: Trace)
    requires Follows(s, trace) && Run(c, s, actions, t)
    ensures Follows(t, Recorded(c, s, actions, trace))
    decreases |actions|
  {
    hide Enabled, Apply, Follows;
    if actions != [] {
      var a := actions[0];
      if a.LoadFirst? || a.PauseDone? || a.LoadSecond? || a.ResumeDone? {
        PollerFollows(c, s, a, trace);
      } else if a.PollNothing? || a.PollMessage? {
        PollFollows(c, s, a, trace);
      } else {
        OthersFollow(c, s, a, trace);
      }
      RunFollows(c, Apply(c, s, a), actions[1..], t, Noted(s, a, trace));
    }
  }

  lemma StartFollows(c: Config, healthy: bool, db: map<string, Row>)
    ensures Follows(Start(c, healthy, db), NO_ROUNDS)
  {
  }

  /**
   The poller is the poll loop. Read the rounds off any run: the flag values loaded, the broker's answers
   and the events polled, whatever workers and health checker did in between. The loop's contract on exactly
   these rounds gives the messages sent and those dropped, each in order, and, except between a round's
   change of the flag and its poll, the flag.
   */
  lemma PollerIsLoop(c: Config, healthy: bool, db: map<string, Row>, actions: seq<Action>, t: State)
    requires Run(c, Start(c, healthy, db), actions, t)
    ensures
      var rounds := Recorded(c, Start(c, healthy, db), actions, NO_ROUNDS).past;
      var p := AfterRounds(NOTHING_YET, rounds);
      && Messages(rounds) == MessagesOf(t.polled)
      && p.sent == SentOf(t.polled, t.dropped) && p.dropped == MessagesOf(t.dropped)
      && (!t.poller.Polling? ==> p.isPaused == t.paused)
  {
    hide Run, Start, Recorded, Messages, MessagesOf, SentOf, AfterRounds;
    StartFollows(c, healthy, db);
    RunFollows(c, Start(c, healthy, db), actions, t, NO_ROUNDS);
  }
}
