/** What the polls of a run find in the two queues, turn by turn: which messages arrive, which are
    handed to the loop, and which stay queued. */
module Polling {
  import opened AgentTypes
  import opened ToolBatches
  import opened PendingQueues
  import opened Runs
  import opened RunLaws

  /** The queues after a poll: what is still queued, the arrivals of every poll so far, and what the
      latest poll handed over. */
  datatype Polls = Polls(
    steering: seq<Message>, followUps: seq<Message>, arrivals: seq<Arrival>, pending: seq<Injected>)

  function ArrivingAt(a: Arrival, source: Source): seq<Message> {
    match source
    case Prompted => []
    case Steered => a.steering
    case FollowedUp => a.followUps
  }

  /** Everything that arrived on one queue, in order. */
  function ArrivalsOf(arrivals: seq<Arrival>, source: Source): seq<Message> {
    if arrivals == [] then []
    else ArrivalsOf(arrivals[..|arrivals| - 1], source) + ArrivingAt(arrivals[|arrivals| - 1], source)
  }

  function Queued(p: Polls, source: Source): seq<Message> {
    match source
    case Prompted => []
    case Steered => p.steering
    case FollowedUp => p.followUps
  }

  function Arrived(p: Polls, a: Arrival): Polls {
    Polls(p.steering + a.steering, p.followUps + a.followUps, p.arrivals + [a], [])
  }

  function SteeringPoll(p: Polls, a: Arrival, skip: bool): Polls {
    var queued := Arrived(p, a);
    var taken := if skip then [] else DrainOf(a.steeringMode, queued.steering);
    queued.(steering := queued.steering[|taken|..], pending := Tag(Steered, taken))
  }

  function FollowUpPoll(p: Polls, a: Arrival): Polls {
    var queued := Arrived(p, a);
    var taken := DrainOf(a.followUpMode, queued.followUps);
    queued.(followUps := queued.followUps[|taken|..], pending := Tag(FollowedUp, taken))
  }

  /** The queues of a run as it starts; `skip` says that its first poll is skipped. */
  datatype QueueStart = QueueStart(steering: seq<Message>, followUps: seq<Message>, skip: bool) {
    function Queues(): Polls {
      Polls(steering, followUps, [], [])
    }
  }

  /** After the turns and the steering poll behind the last of them. */
  ghost function SteeringAfter(start: QueueStart, turns: seq<Turn>, oracle: RunOracle): Polls
    decreases |turns|, 0
  {
    if turns == [] then SteeringPoll(start.Queues(), oracle.beforeSteeringPoll(0), start.skip)
    else SteeringPoll(PollsAfter(start, turns[..|turns| - 1], oracle), oracle.beforeSteeringPoll(|turns|), false)
  }

  /** After the turns and all polls behind the last of them: none when it ended the run, otherwise one
      for steering messages and, when that finds none and the tools want nothing more, one for
      follow-ups. */
  ghost function PollsAfter(start: QueueStart, turns: seq<Turn>, oracle: RunOracle): Polls
    decreases |turns|, 1
  {
    if turns == [] then SteeringAfter(start, turns, oracle)
    else
      var last := turns[|turns| - 1];
      if Failed(Reply(last)) || last.stops then PollsAfter(start, turns[..|turns| - 1], oracle).(pending := [])
      else
        var steered := SteeringAfter(start, turns, oracle);
        if steered.pending != [] || WantsMore(last) then steered
        else FollowUpPoll(steered, oracle.beforeFollowUpPoll(|turns|))
  }

  ghost function Head(turns: seq<Turn>, opening: seq<Injected>): seq<Injected> {
    if turns == [] then opening else []
  }

  /** Every turn takes in exactly what the polls before it handed over, the first one behind the
      messages that opened the run. */
  ghost predicate TakesWhatIsPolled(start: QueueStart, opening: seq<Injected>, turns: seq<Turn>, oracle: RunOracle) {
    forall n :: 0 <= n < |turns| ==>
      turns[n].injected == Head(turns[..n], opening) + PollsAfter(start, turns[..n], oracle).pending
  }

  // ---- Nothing is lost or doubled ----

  /** What one queue held at the start and what arrived on it since is what entered, what the latest
      poll handed over and what is still queued, in this order. */
  ghost predicate Accounted(p: Polls, source: Source, before: seq<Message>, entered: seq<Message>) {
    before + ArrivalsOf(p.arrivals, source) == entered + From(p.pending, source) + Queued(p, source)
  }

  lemma ArrivalsGrow(arrivals: seq<Arrival>, a: Arrival, source: Source)
    ensures ArrivalsOf(arrivals + [a], source) == ArrivalsOf(arrivals, source) + ArrivingAt(a, source)
    ensures ArrivalsOf([], source) == []
  {
    assert (arrivals + [a])[..|arrivals|] == arrivals;
  }

  /** Taking from the front of a queue behind whose end more has arrived. */
  lemma Balance(before: seq<Message>, arrived: seq<Message>, more: seq<Message>, entered: seq<Message>,
                queued: seq<Message>, taken: seq<Message>, rest: seq<Message>)
    requires before + arrived == entered + queued && queued + more == taken + rest
    ensures before + (arrived + more) == entered + taken + rest
  {
    AppendAssoc(before, arrived, more);
    AppendAssoc(entered, queued, more);
    AppendAssoc(entered, taken, rest);
  }

  /** A poll splits what is queued into what it hands over and what stays. */
  lemma PollsSplit(p: Polls, a: Arrival, skip: bool, source: Source)
    requires source != Prompted
    ensures var q := SteeringPoll(p, a, skip);
      Queued(p, source) + ArrivingAt(a, source) == From(q.pending, source) + Queued(q, source)
    ensures var q := FollowUpPoll(p, a);
      Queued(p, source) + ArrivingAt(a, source) == From(q.pending, source) + Queued(q, source)
  {
    hide From, DrainOf;
    NoTurns([], source);
    var steered := if skip then [] else DrainOf(a.steeringMode, p.steering + a.steering);
    var followed := DrainOf(a.followUpMode, p.followUps + a.followUps);
    FromTag(steered, Steered, source);
    FromTag(followed, FollowedUp, source);
    SplitAt(p.steering + a.steering, steered);
    SplitAt(p.followUps + a.followUps, followed);
  }

  lemma SplitAt(all: seq<Message>, taken: seq<Message>)
    requires taken <= all
    ensures taken + all[|taken|..] == all && [] + all == all
  {}

  /** So it keeps the account. */
  lemma SplitAccounts(p: Polls, q: Polls, a: Arrival, source: Source, before: seq<Message>, entered: seq<Message>)
    requires Accounted(p.(pending := []), source, before, entered) && q.arrivals == p.arrivals + [a]
    requires Queued(p, source) + ArrivingAt(a, source) == From(q.pending, source) + Queued(q, source)
    ensures Accounted(q, source, before, entered)
  {
    hide From, ArrivalsOf, Queued, ArrivingAt;
    SameQueue(p, source);
    ArrivalsGrow(p.arrivals, a, source);
    NoTurns([], source);
    assert entered + [] == entered;
    Balance(before, ArrivalsOf(p.arrivals, source), ArrivingAt(a, source), entered, Queued(p, source),
            From(q.pending, source), Queued(q, source));
  }

  lemma SameQueue(p: Polls, source: Source)
    ensures Queued(p.(pending := []), source) == Queued(p, source)
  {}

  lemma PollAccounts(p: Polls, a: Arrival, skip: bool, source: Source, before: seq<Message>, entered: seq<Message>)
    requires Accounted(p.(pending := []), source, before, entered) && source != Prompted
    ensures Accounted(SteeringPoll(p, a, skip), source, before, entered)
    ensures Accounted(FollowUpPoll(p, a), source, before, entered)
  {
    hide Accounted, Queued, ArrivingAt, DrainOf, From, Tag;
    PollsSplit(p, a, skip, source);
    SplitAccounts(p, SteeringPoll(p, a, skip), a, source, before, entered);
    SplitAccounts(p, FollowUpPoll(p, a), a, source, before, entered);
  }

  lemma NoPollYet(start: QueueStart, opening: seq<Injected>, oracle: RunOracle)
    ensures TakesWhatIsPolled(start, opening, [], oracle)
    ensures PollsAfter(start, [], oracle) == SteeringPoll(start.Queues(), oracle.beforeSteeringPoll(0), start.skip)
  {}

  /** One more turn, which takes in what was polled for it. */
  lemma OneMorePolled(start: QueueStart, opening: seq<Injected>, turns: seq<Turn>, t: Turn, oracle: RunOracle)
    ensures TakesWhatIsPolled(start, opening, turns + [t], oracle)
      <==> TakesWhatIsPolled(start, opening, turns, oracle)
           && t.injected == Head(turns, opening) + PollsAfter(start, turns, oracle).pending
  {
    hide PollsAfter, Head;
    var all := turns + [t];
    assert all[..|turns|] == turns;
    forall n | 0 <= n < |turns| ensures all[..n] == turns[..n] && all[n] == turns[n] {}
    if TakesWhatIsPolled(start, opening, all, oracle) {
      assert all[|turns|].injected == Head(turns, opening) + PollsAfter(start, turns, oracle).pending;
    }
  }

  /** Which polls follow a turn. */
  lemma PollsBehind(start: QueueStart, turns: seq<Turn>, t: Turn, oracle: RunOracle)
    ensures var before, after := PollsAfter(start, turns, oracle), PollsAfter(start, turns + [t], oracle);
      var steered := SteeringPoll(before, oracle.beforeSteeringPoll(|turns| + 1), false);
      if Failed(Reply(t)) || t.stops then after == before.(pending := [])
      else if steered.pending != [] || WantsMore(t) then after == steered
      else after == FollowUpPoll(steered, oracle.beforeFollowUpPoll(|turns| + 1))
  {
    hide WantsMore, SteeringPoll, FollowUpPoll;
    assert (turns + [t])[..|turns|] == turns;
  }

  lemma BehindTurnAccounts(start: QueueStart, turns: seq<Turn>, t: Turn, oracle: RunOracle, source: Source,
                           before: seq<Message>, entered: seq<Message>)
    requires Accounted(PollsAfter(start, turns, oracle).(pending := []), source, before, entered) && source != Prompted
    ensures Accounted(PollsAfter(start, turns + [t], oracle), source, before, entered)
  {
    hide PollsAfter, Accounted, SteeringPoll, FollowUpPoll, WantsMore;
    var earlier := PollsAfter(start, turns, oracle);
    var steered := SteeringPoll(earlier, oracle.beforeSteeringPoll(|turns| + 1), false);
    PollsBehind(start, turns, t, oracle);
    PollAccounts(earlier, oracle.beforeSteeringPoll(|turns| + 1), false, source, before, entered);
    if steered.pending == [] {
      assert steered.(pending := []) == steered;
      PollAccounts(steered, oracle.beforeFollowUpPoll(|turns| + 1), false, source, before, entered);
    }
  }

  lemma TurnAccounts(p: Polls, source: Source, before: seq<Message>, entered: seq<Message>, head: seq<Injected>)
    requires Accounted(p, source, before, entered + From(head, source))
    ensures Accounted(p.(pending := []), source, before, entered + From(head + p.pending, source))
  {
    hide From, ArrivalsOf;
    NoTurns([], source);
    FromAppend(head, p.pending, source);
    AppendAssoc(entered, From(head, source), From(p.pending, source));
    var all := entered + From(head + p.pending, source);
    assert all + [] == all;
  }

  /** Over any part of any run and for either queue: what opened the run out of the queue, what was queued
      at the start and everything that arrived since is, in this order and without loss or repetition,
      what entered the transcript, what the loop holds pending, and what is still queued. */
  lemma {:induction false} NothingIsLost(start: QueueStart, opening: seq<Injected>, turns: seq<Turn>, oracle: RunOracle, source: Source)
    requires TakesWhatIsPolled(start, opening, turns, oracle) && source != Prompted
    ensures Accounted(PollsAfter(start, turns, oracle), source, From(opening, source) + Queued(start.Queues(), source),
                      Entered(turns, source) + From(Head(turns, opening), source))
  {
    hide PollsAfter, TakesWhatIsPolled, Entered, From, Accounted, SteeringPoll;
    var before := From(opening, source) + Queued(start.Queues(), source);
    NoTurns([], source);
    assert [] + From(opening, source) == From(opening, source);
    if turns == [] {
      NoPollYet(start, opening, oracle);
      AtStartAccounts(start, opening, source);
      PollAccounts(start.Queues(), oracle.beforeSteeringPoll(0), start.skip, source, before, From(opening, source));
    } else {
      var front, t := turns[..|turns| - 1], turns[|turns| - 1];
      assert turns == front + [t];
      OneMorePolled(start, opening, front, t, oracle);
      NothingIsLost(start, opening, front, oracle, source);
      OneMoreTurn(front, t, [], source);
      TurnAccounts(PollsAfter(start, front, oracle), source, before, Entered(front, source), Head(front, opening));
      BehindTurnAccounts(start, front, t, oracle, source, before, Entered(turns, source));
      assert Entered(turns, source) + [] == Entered(turns, source);
    }
  }

  lemma AtStartAccounts(start: QueueStart, opening: seq<Injected>, source: Source)
    ensures Accounted(start.Queues(), source, From(opening, source) + Queued(start.Queues(), source), From(opening, source))
  {
    hide From;
    NoTurns([], source);
    var before := From(opening, source) + Queued(start.Queues(), source);
    assert before + [] == before;
    assert From(opening, source) + [] == From(opening, source);
  }

  // ---- One at a time ----

  /** A queue is drained one message at a time at every poll of it. */
  ghost predicate OneAtATimePolls(oracle: RunOracle, source: Source) {
    match source
    case Prompted => true
    case Steered => forall n: nat :: oracle.beforeSteeringPoll(n).steeringMode == OneAtATime
    case FollowedUp => forall n: nat :: oracle.beforeFollowUpPoll(n).followUpMode == OneAtATime
  }

  lemma OnePolled(start: QueueStart, turns: seq<Turn>, oracle: RunOracle, source: Source)
    requires OneAtATimePolls(oracle, source) && source != Prompted
    ensures var polled := From(PollsAfter(start, turns, oracle).pending, source);
      |polled| <= 1 && (turns == [] && (source == FollowedUp || start.skip) ==> polled == [])
  {
    hide From, WantsMore, PollsAfter, SteeringPoll, FollowUpPoll;
    var a, b := oracle.beforeSteeringPoll(|turns|), oracle.beforeFollowUpPoll(|turns|);
    NoTurns([], source);
    if turns == [] {
      NoPollYet(start, [], oracle);
      PolledFrom(start.Queues(), a, start.skip, source);
    } else {
      var front, t := turns[..|turns| - 1], turns[|turns| - 1];
      assert turns == front + [t];
      PollsBehind(start, front, t, oracle);
      PolledFrom(PollsAfter(start, front, oracle), a, false, source);
      PolledFrom(SteeringPoll(PollsAfter(start, front, oracle), a, false), b, false, source);
    }
  }

  lemma PolledFrom(p: Polls, a: Arrival, skip: bool, source: Source)
    ensures var taken := From(SteeringPoll(p, a, skip).pending, source);
      (source != Steered || skip ==> taken == []) && (a.steeringMode == OneAtATime ==> |taken| <= 1)
    ensures var taken := From(FollowUpPoll(p, a).pending, source);
      (source != FollowedUp ==> taken == []) && (a.followUpMode == OneAtATime ==> |taken| <= 1)
  {
    hide From, DrainOf;
    NoTurns([], source);
    FromTag(if skip then [] else DrainOf(a.steeringMode, p.steering + a.steering), Steered, source);
    FromTag(DrainOf(a.followUpMode, p.followUps + a.followUps), FollowedUp, source);
  }

  /** From a queue that is drained one at a time no turn takes more than one message, whatever the other
      queue's mode, and in the first turn too: a run that opens with a steering message skips its first
      steering poll. */
  lemma OneFromQueue(start: QueueStart, opening: seq<Injected>, turns: seq<Turn>, oracle: RunOracle, source: Source)
    requires TakesWhatIsPolled(start, opening, turns, oracle) && OneAtATimePolls(oracle, source) && source != Prompted
    requires |From(opening, source)| <= 1 && (source == Steered && From(opening, source) != [] ==> start.skip)
    ensures forall t <- turns :: |From(t.injected, source)| <= 1
    ensures |From(Head(turns, opening) + PollsAfter(start, turns, oracle).pending, source)| <= 1
  {
    hide From, PollsAfter, OneAtATimePolls;
    NoTurns([], source);
    forall n | 0 <= n <= |turns|
      ensures |From(Head(turns[..n], opening) + PollsAfter(start, turns[..n], oracle).pending, source)| <= 1
    {
      OnePolled(start, turns[..n], oracle, source);
      FromAppend(Head(turns[..n], opening), PollsAfter(start, turns[..n], oracle).pending, source);
    }
    assert turns[..|turns|] == turns;
  }

  // ---- Turn bound and termination ----

  /** Why a run is over: a failed reply, the stop hook, or nothing left to do. */
  ghost predicate Over(turns: seq<Turn>, pending: seq<Injected>) {
    && turns != []
    && var last := turns[|turns| - 1];
      Failed(Reply(last)) || last.stops || (!WantsMore(last) && pending == [])
  }

  /** A run that ends with nothing left to do leaves no follow-up queued, and no steering message but
      those that arrived behind its last steering poll. */
  lemma LeftBehind(start: QueueStart, turns: seq<Turn>, oracle: RunOracle)
    requires turns != [] && Over(turns, PollsAfter(start, turns, oracle).pending)
    requires !Failed(Reply(turns[|turns| - 1])) && !turns[|turns| - 1].stops
    ensures var p := PollsAfter(start, turns, oracle);
      p.followUps == [] && p.steering == oracle.beforeFollowUpPoll(|turns|).steering
  {}

  /** Every turn but the first is paid for by a tool batch that wants more or by a message that was queued
      at the start or arrived since. */
  lemma QueuesBoundTurns(start: QueueStart, opening: seq<Injected>, turns: seq<Turn>, oracle: RunOracle)
    requires Legal(turns) && TakesWhatIsPolled(start, opening, turns, oracle) && turns != []
    ensures var arrivals := PollsAfter(start, turns, oracle).arrivals;
      |turns| <= 1 + TurnsWantingMore(turns[..|turns| - 1]) + |start.steering| + |start.followUps|
               + |ArrivalsOf(arrivals, Steered)| + |ArrivalsOf(arrivals, FollowedUp)|
  {
    hide Legal, Entered, TurnsWantingMore, PollsAfter, From, ArrivalsOf;
    var polled := PollsAfter(start, turns[..0], oracle).pending;
    assert turns[0].injected == opening + polled;
    FromAppend(opening, polled, Steered);
    FromAppend(opening, polled, FollowedUp);
    NothingIsLost(start, opening, turns, oracle, Steered);
    NothingIsLost(start, opening, turns, oracle, FollowedUp);
    NoTurns([], Steered);
    NoTurns([], FollowedUp);
    TurnBound(turns);
  }

  /** How many of the first `n` replies the provider would give ask for tools and for another call. */
  ghost function Wanting(oracle: RunOracle, n: nat): nat {
    if n == 0 then 0
    else
      var last := Turn([], oracle.streams(n - 1), oracle.batches(n - 1), [], None, false);
      Wanting(oracle, n - 1) + if WantsMore(last) then 1 else 0
  }

  /** How many messages callers enqueue ahead of the polls numbered below `n`. */
  ghost function Enqueuing(oracle: RunOracle, n: nat): nat {
    if n == 0 then 0
    else
      var a, b := oracle.beforeSteeringPoll(n - 1), oracle.beforeFollowUpPoll(n - 1);
      Enqueuing(oracle, n - 1) + |a.steering| + |a.followUps| + |b.steering| + |b.followUps|
  }

  /** The model asks for at most `batches` tool batches that want more, and callers enqueue at most
      `messages` messages, however long the run. */
  ghost predicate Bounded(oracle: RunOracle, batches: nat, messages: nat) {
    forall n: nat :: Wanting(oracle, n) <= batches && Enqueuing(oracle, n) <= messages
  }

  lemma {:induction false} WantingOfTurns(turns: seq<Turn>, oracle: RunOracle)
    requires Follows(turns, oracle)
    ensures TurnsWantingMore(turns) == Wanting(oracle, |turns|)
  {
    hide BatchTerminates, CallsIn;
    if turns != [] {
      WantingOfTurns(turns[..|turns| - 1], oracle);
    }
  }

  lemma {:induction false} ArrivalsAreEnqueued(start: QueueStart, turns: seq<Turn>, oracle: RunOracle)
    ensures var arrivals := PollsAfter(start, turns, oracle).arrivals;
      |ArrivalsOf(arrivals, Steered)| + |ArrivalsOf(arrivals, FollowedUp)| <= Enqueuing(oracle, |turns| + 1)
  {
    hide PollsAfter, ArrivalsOf, WantsMore;
    var a, b := oracle.beforeSteeringPoll(|turns|), oracle.beforeFollowUpPoll(|turns|);
    if turns == [] {
      NoPollYet(start, [], oracle);
      ArrivalsGrow([], a, Steered);
      ArrivalsGrow([], a, FollowedUp);
    } else {
      var front, t := turns[..|turns| - 1], turns[|turns| - 1];
      assert turns == front + [t];
      ArrivalsAreEnqueued(start, front, oracle);
      PollsBehind(start, front, t, oracle);
      var arrivals := PollsAfter(start, front, oracle).arrivals;
      ArrivalsGrow(arrivals, a, Steered);
      ArrivalsGrow(arrivals, a, FollowedUp);
      ArrivalsGrow(arrivals + [a], b, Steered);
      ArrivalsGrow(arrivals + [a], b, FollowedUp);
    }
  }

  /** So the nested loops terminate whenever the model asks for finitely many tool batches and callers
      enqueue finitely many messages: no run has more turns than this. */
  lemma RunsAreFinite(start: QueueStart, opening: seq<Injected>, turns: seq<Turn>, oracle: RunOracle, batches: nat, messages: nat)
    requires Legal(turns) && Follows(turns, oracle) && TakesWhatIsPolled(start, opening, turns, oracle)
    requires Bounded(oracle, batches, messages)
    ensures |turns| <= 1 + batches + messages + |start.steering| + |start.followUps|
  {
    hide Legal, PollsAfter, ArrivalsOf, TurnsWantingMore, Wanting, Enqueuing;
    if turns != [] {
      var front := turns[..|turns| - 1];
      QueuesBoundTurns(start, opening, turns, oracle);
      WantingOfTurns(front, oracle);
      ArrivalsAreEnqueued(start, turns, oracle);
    }
  }

  // ---- A run is determined by what it meets ----

  ghost predicate SameButSchedule(t: Turn, u: Turn) {
    t.(schedule := u.schedule) == u
  }

  lemma {:induction false} SamePolls(start: QueueStart, a: seq<Turn>, b: seq<Turn>, oracle: RunOracle)
    requires |a| == |b| && forall n :: 0 <= n < |a| ==> SameButSchedule(a[n], b[n])
    ensures PollsAfter(start, a, oracle) == PollsAfter(start, b, oracle)
  {
    hide PollsAfter, SteeringPoll, FollowUpPoll, BatchTerminates, CallsIn;
    if a == [] {
      assert a == b;
    } else {
      var m := |a| - 1;
      SamePolls(start, a[..m], b[..m], oracle);
      assert a == a[..m] + [a[m]] && b == b[..m] + [b[m]];
      PollsBehind(start, a[..m], a[m], oracle);
      PollsBehind(start, b[..m], b[m], oracle);
      assert SameButSchedule(a[m], b[m]);
    }
  }

  lemma SameTurn(start: QueueStart, opening: seq<Injected>, a: seq<Turn>, b: seq<Turn>, n: nat, oracle: RunOracle)
    requires Follows(a, oracle) && TakesWhatIsPolled(start, opening, a, oracle)
    requires Follows(b, oracle) && TakesWhatIsPolled(start, opening, b, oracle) && n < |a| && n < |b|
    requires PollsAfter(start, a[..n], oracle) == PollsAfter(start, b[..n], oracle)
    ensures SameButSchedule(a[n], b[n])
  {
    hide PollsAfter;
    assert a[n].injected == b[n].injected;
  }

  /** Two runs that start alike and meet the same streams, tools, hooks and callers are the same turn by
      turn, up to the interleaving of concurrent tools; and none goes on where another was over. */
  lemma RunIsDetermined(start: QueueStart, opening: seq<Injected>, a: seq<Turn>, b: seq<Turn>, oracle: RunOracle)
    requires Follows(a, oracle) && TakesWhatIsPolled(start, opening, a, oracle)
    requires Follows(b, oracle) && TakesWhatIsPolled(start, opening, b, oracle) && |a| <= |b|
    ensures forall n :: 0 <= n < |a| ==> SameButSchedule(a[n], b[n])
    ensures PollsAfter(start, a, oracle) == PollsAfter(start, b[..|a|], oracle)
    ensures Over(a, PollsAfter(start, a, oracle).pending) && Legal(b) ==> |a| == |b|
  {
    hide PollsAfter, Legal, WantsMore, Follows, TakesWhatIsPolled, SameButSchedule, Over;
    var m := |a|;
    SameUpTo(start, opening, a, b, m, oracle);
    assert a[..m] == a;
    if m < |b| && Legal(b) {
      NotOver(start, opening, b, m, oracle);
      SameOver(a, b[..m], PollsAfter(start, a, oracle).pending);
    }
  }

  lemma {:induction false} SameUpTo(start: QueueStart, opening: seq<Injected>, a: seq<Turn>, b: seq<Turn>, m: nat, oracle: RunOracle)
    requires Follows(a, oracle) && TakesWhatIsPolled(start, opening, a, oracle)
    requires Follows(b, oracle) && TakesWhatIsPolled(start, opening, b, oracle) && m <= |a| && m <= |b|
    ensures forall n :: 0 <= n < m ==> SameButSchedule(a[n], b[n])
    ensures PollsAfter(start, a[..m], oracle) == PollsAfter(start, b[..m], oracle)
  {
    hide PollsAfter, Follows, TakesWhatIsPolled, SameButSchedule;
    if m > 0 {
      SameUpTo(start, opening, a, b, m - 1, oracle);
      SameTurn(start, opening, a, b, m - 1, oracle);
    }
    SamePolls(start, a[..m], b[..m], oracle);
  }

  lemma SameOver(a: seq<Turn>, b: seq<Turn>, pending: seq<Injected>)
    requires |a| == |b| && forall n :: 0 <= n < |a| ==> SameButSchedule(a[n], b[n])
    ensures Over(a, pending) <==> Over(b, pending)
  {
    hide BatchTerminates, CallsIn;
    if a != [] {
      assert SameButSchedule(a[|a| - 1], b[|a| - 1]);
    }
  }

  lemma NotOver(start: QueueStart, opening: seq<Injected>, turns: seq<Turn>, n: nat, oracle: RunOracle)
    requires Legal(turns) && TakesWhatIsPolled(start, opening, turns, oracle) && n < |turns|
    ensures !Over(turns[..n], PollsAfter(start, turns[..n], oracle).pending)
  {
    hide PollsAfter, WellFormed, WantsMore;
    if n > 0 {
      assert MayFollow(turns[n - 1], turns[n]);
      var pending := PollsAfter(start, turns[..n], oracle).pending;
      assert turns[n].injected == [] + pending == pending;
    }
  }

  // ---- What a turn takes in, and when a run ends, in terms of what the run meets ----

  /** What a queue hands out in either mode. */
  function Handed(mode: QueueMode, queued: seq<Message>): seq<Message> {
    match mode
    case All => queued
    case OneAtATime => if queued == [] then [] else [queued[0]]
  }

  lemma HandedIsDrained(mode: QueueMode, queued: seq<Message>)
    ensures DrainOf(mode, queued) == Handed(mode, queued)
  {}

  /** The first turn takes in the messages that opened the run and, unless that poll is skipped, the
      steering messages then queued. */
  lemma FirstTurnTakes(start: QueueStart, opening: seq<Injected>, turns: seq<Turn>, oracle: RunOracle)
    requires TakesWhatIsPolled(start, opening, turns, oracle) && turns != []
    ensures var a := oracle.beforeSteeringPoll(0);
      turns[0].injected == opening
        + Tag(Steered, if start.skip then [] else Handed(a.steeringMode, start.steering + a.steering))
  {
    hide DrainOf, Tag;
    var a := oracle.beforeSteeringPoll(0);
    HandedIsDrained(a.steeringMode, start.steering + a.steering);
    NoPollYet(start, opening, oracle);
    assert turns[..0] == [];
  }

  /** Every later turn takes in the steering messages queued behind the turn ahead of it. If there are none it
      takes in nothing when some tool asked for more, and follow-ups otherwise. */
  lemma LaterTurnTakes(start: QueueStart, opening: seq<Injected>, turns: seq<Turn>, n: nat, oracle: RunOracle)
    requires TakesWhatIsPolled(start, opening, turns, oracle) && Follows(turns, oracle) && Legal(turns) && 0 < n < |turns|
    ensures var left, a, b := PollsAfter(start, turns[..n - 1], oracle), oracle.beforeSteeringPoll(n), oracle.beforeFollowUpPoll(n);
      var steering := left.steering + a.steering;
      turns[n].injected ==
        if steering != [] then Tag(Steered, Handed(a.steeringMode, steering))
        else if AsksForMore(turns[n - 1]) then []
        else Tag(FollowedUp, Handed(b.followUpMode, left.followUps + a.followUps + b.followUps))
  {
    hide PollsAfter, DrainOf, WellFormed, WantsMore, AsksForMore, Reply;
    var front, t := turns[..n - 1], turns[n - 1];
    assert turns[..n] == front + [t];
    assert MayFollow(t, turns[n]);
    PollsBehind(start, front, t, oracle);
    WantsMoreExactly(t);
    var left, a, b := PollsAfter(start, front, oracle), oracle.beforeSteeringPoll(n), oracle.beforeFollowUpPoll(n);
    var steering := left.steering + a.steering;
    HandedIsDrained(a.steeringMode, steering);
    HandedIsDrained(b.followUpMode, left.followUps + a.followUps + b.followUps);
    var steered := SteeringPoll(left, a, false);
    assert steered.pending == [] <==> steering == [];
    var pending := PollsAfter(start, turns[..n], oracle).pending;
    assert turns[n].injected == [] + pending == pending;
  }

  /** Turns follow one another, and the run is finished, exactly where the source says so: behind a turn that
      is not stopped, as long as some tool asks for more or messages are polled. */
  ghost predicate EndsOnTime(turns: seq<Turn>, pending: seq<Injected>, finished: bool, oracle: RunOracle) {
    && (forall n :: 0 <= n < |turns| - 1 ==>
         !Stopped(turns[n], n, oracle) && (AsksForMore(turns[n]) || turns[n + 1].injected != []))
    && (finished <==>
         turns != [] && (Stopped(turns[|turns| - 1], |turns| - 1, oracle) || (!AsksForMore(turns[|turns| - 1]) && pending == [])))
  }

  lemma RunEndsOnTime(turns: seq<Turn>, pending: seq<Injected>, finished: bool, oracle: RunOracle)
    requires Legal(turns) && Follows(turns, oracle) && (finished <==> Over(turns, pending))
    ensures EndsOnTime(turns, pending, finished, oracle)
  {
    hide WantsMore, AsksForMore, WellFormed;
    forall n | 0 <= n < |turns| - 1
      ensures !Stopped(turns[n], n, oracle) && (AsksForMore(turns[n]) || turns[n + 1].injected != [])
    {
      assert MayFollow(turns[n + 1 - 1], turns[n + 1]);
      WantsMoreExactly(turns[n]);
    }
    if turns != [] {
      WantsMoreExactly(turns[|turns| - 1]);
    }
  }
}
