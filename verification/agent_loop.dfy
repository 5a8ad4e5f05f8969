/** The turn loop: provider calls, tool batches, the two queues, early stop. */
module AgentLoops {
  import opened AgentTypes
  import opened AgentStates
  import opened Streaming
  import opened ToolBatches
  import opened PendingQueues
  import opened Runs
  import opened RunLaws
  import opened Polling

  /** Where a run starts from: the events already out, the context snapshot, and of either queue what
      had been drained before the messages that open the run, what was ever enqueued, and what it holds. */
  datatype RunBase = RunBase(
    trace: seq<AgentEvent>, snapshot: seq<Message>, steered: seq<Message>, followedUp: seq<Message>,
    steeringHistory: seq<Message>, followUpHistory: seq<Message>, start: QueueStart)

  /** The state between turns. `opening` is the part of the next turn already emitted (only before
      the first turn), `pending` what the loop holds to inject next. */
  ghost predicate BetweenTurns(base: RunBase, turns: seq<Turn>, opening: seq<Injected>, pending: seq<Injected>,
                               context: MessageList, newMessages: MessageList, config: LoopConfig, sink: AgentState)
    reads context, newMessages, config, config.steering, config.followUps, sink
  {
    && context != newMessages && config.Valid() && sink.Valid()
    && (turns != [] ==> opening == [])
    && sink.trace == base.trace + RenderedAll(turns) + (if turns == [] then Opening(opening) else [])
    && newMessages.items == RunMessages(turns) + Untag(opening)
    && context.items == ContextAfter(base.snapshot, turns) + Untag(opening)
    && config.steering.drained == base.steered + Entered(turns, Steered) + From(opening + pending, Steered)
    && config.followUps.drained == base.followedUp + Entered(turns, FollowedUp) + From(opening + pending, FollowedUp)
  }

  /** The queues hold what `p` says, and everything that arrived is in their histories. */
  ghost predicate QueuesAre(base: RunBase, config: LoopConfig, p: Polls)
    reads config, config.steering, config.followUps
  {
    && config.steering.messages == p.steering && config.followUps.messages == p.followUps
    && config.steering.enqueued == base.steeringHistory + ArrivalsOf(p.arrivals, Steered)
    && config.followUps.enqueued == base.followUpHistory + ArrivalsOf(p.arrivals, FollowedUp)
  }

  method InjectPending(pending: seq<Message>, context: MessageList, newMessages: MessageList, sink: AgentState)
    requires context != newMessages && sink.Valid()
    modifies context, newMessages, sink
    ensures context.items == old(context.items) + pending
    ensures newMessages.items == old(newMessages.items) + pending
    ensures sink.Valid() && sink.origin == old(sink.origin)
    ensures sink.trace == old(sink.trace) + Pairs(pending)
  {
    hide ReduceAll, Pairs;
    NoPairs();
    for i := 0 to |pending|
      invariant context.items == old(context.items) + pending[..i]
      invariant newMessages.items == old(newMessages.items) + pending[..i]
      invariant sink.Valid() && sink.origin == old(sink.origin)
      invariant sink.trace == old(sink.trace) + Pairs(pending[..i])
    {
      OneMorePair(pending, i);
      AppendAssoc(old(sink.trace), Pairs(pending[..i]), Pair(pending[i]));
      AppendAssoc(old(context.items), pending[..i], [pending[i]]);
      AppendAssoc(old(newMessages.items), pending[..i], [pending[i]]);
      EmitPair(pending[i], sink);
      context.Push(pending[i]);
      newMessages.Push(pending[i]);
    }
    assert pending[..|pending|] == pending;
  }

  lemma NoPairs()
    ensures Pairs([]) == []
  {}

  lemma OneMorePair(messages: seq<Message>, i: nat)
    requires i < |messages|
    ensures messages[..i + 1] == messages[..i] + [messages[i]]
    ensures Pairs(messages[..i + 1]) == Pairs(messages[..i]) + Pair(messages[i])
  {
    assert messages[..i + 1][..i] == messages[..i];
  }

  /** The tool part of a turn; `t` names the turn up to its still unknown schedule. */
  method RunTools(ghost t: Turn, world: BatchWorld, message: AssistantMessage,
                  context: MessageList, newMessages: MessageList, sink: AgentState)
      returns (toolResults: seq<Message>, hasMoreToolCalls: bool, ghost schedule: seq<nat>)
    requires context != newMessages && sink.Valid()
    requires t.script.outcome == message && t.world == world && !Failed(message)
    modifies context, newMessages, sink
    ensures toolResults == Results(t) && hasMoreToolCalls == WantsMore(t)
    ensures Calls(t) != [] ==> LegalSchedule(Calls(t), world, schedule)
    ensures context.items == old(context.items) + toolResults
    ensures newMessages.items == old(newMessages.items) + toolResults
    ensures sink.Valid() && sink.origin == old(sink.origin)
    ensures sink.trace == old(sink.trace) + ToolTrace(t.(schedule := schedule))
  {
    hide ReduceAll, BatchTrace, BatchMessages, BatchTerminates, LegalSchedule, Answers, SequentialTrace, Preflight, Played, Pairs;
    var toolCalls := CallsIn(message.content);
    toolResults, hasMoreToolCalls, schedule := [], false, [];
    if |toolCalls| > 0 {
      var terminate;
      toolResults, terminate, schedule := ExecuteToolCalls(toolCalls, world, sink);
      hasMoreToolCalls := !terminate;
      for i := 0 to |toolResults|
        invariant context.items == old(context.items) + toolResults[..i]
        invariant newMessages.items == old(newMessages.items) + toolResults[..i]
        modifies context, newMessages
      {
        context.Push(toolResults[i]);
        newMessages.Push(toolResults[i]);
      }
      assert toolResults[..|toolResults|] == toolResults;
    }
  }

  /** The first half of a turn: its start, the pending messages, and the streamed reply. */
  method TakeReply(firstTurn: bool, pendingMessages: seq<Message>, script: StreamScript,
                   context: MessageList, newMessages: MessageList, sink: AgentState) returns (message: AssistantMessage)
    requires context != newMessages && sink.Valid()
    modifies context, newMessages, sink
    ensures message == script.outcome
    ensures context.items == old(context.items) + pendingMessages + StreamContext(script)
    ensures newMessages.items == old(newMessages.items) + pendingMessages + [message]
    ensures sink.Valid() && sink.origin == old(sink.origin)
    ensures sink.trace == old(sink.trace) + (if firstTurn then [] else [TurnStart]) + Pairs(pendingMessages) + StreamTrace(script)
  {
    hide ReduceAll, Pairs, StreamTrace, StreamContext;
    if !firstTurn {
      sink.ProcessEvent(TurnStart);
    }
    InjectPending(pendingMessages, context, newMessages, sink);
    message := StreamAssistantResponse(context, script, sink);
    newMessages.Push(message);
  }

  /** One pass of the inner loop, up to and including its `turn_end`. */
  method RunTurn(ghost shell: Turn, firstTurn: bool, pendingMessages: seq<Message>, script: StreamScript, world: BatchWorld,
                 context: MessageList, newMessages: MessageList, sink: AgentState)
      returns (message: AssistantMessage, hasMoreToolCalls: bool, ghost turn: Turn)
    requires context != newMessages && sink.Valid()
    requires shell.script == script && shell.world == world
    modifies context, newMessages, sink
    ensures turn == shell.(schedule := turn.schedule) && WellFormed(turn)
    ensures message == Reply(turn) && hasMoreToolCalls == WantsMore(turn)
    ensures hasMoreToolCalls <==> message.stopReason != ErrorStop && message.stopReason != AbortedStop && AsksForMore(turn)
    ensures context.items == old(context.items) + pendingMessages + StreamContext(script) + Results(turn)
    ensures newMessages.items == old(newMessages.items) + pendingMessages + [message] + Results(turn)
    ensures sink.Valid() && sink.origin == old(sink.origin)
    ensures sink.trace == old(sink.trace) + (if firstTurn then [] else [TurnStart]) + Pairs(pendingMessages) + Body(turn)
  {
    hide ReduceAll, Pairs, StreamTrace, StreamContext, BatchTrace, BatchMessages, BatchTerminates, LegalSchedule,
      Body, ToolTrace, Results, WantsMore, AsksForMore;
    ghost var before := sink.trace + (if firstTurn then [] else [TurnStart]) + Pairs(pendingMessages);
    message := TakeReply(firstTurn, pendingMessages, script, context, newMessages, sink);

    if message.stopReason == ErrorStop || message.stopReason == AbortedStop {
      sink.ProcessEvent(TurnEnd(message, []));
      hasMoreToolCalls, turn := false, shell.(schedule := []);
      BodyBehind(before, turn);
      WantsMoreExactly(turn);
      return;
    }

    var toolResults;
    ghost var schedule;
    toolResults, hasMoreToolCalls, schedule := RunTools(shell, world, message, context, newMessages, sink);
    sink.ProcessEvent(TurnEnd(message, toolResults));
    turn := shell.(schedule := schedule);
    ScheduleOnlyOrders(shell, schedule);
    BodyBehind(before, turn);
    WantsMoreExactly(turn);
  }

  lemma ScheduleOnlyOrders(t: Turn, schedule: seq<nat>)
    ensures Results(t.(schedule := schedule)) == Results(t) && WantsMore(t.(schedule := schedule)) == WantsMore(t)
  {}

  lemma BodyBehind(before: seq<AgentEvent>, t: Turn)
    ensures before + StreamTrace(t.script) + ToolTrace(t) + [TurnEnd(Reply(t), Results(t))] == before + Body(t)
    ensures Failed(Reply(t)) ==> Results(t) == [] && !WantsMore(t)
    ensures Failed(Reply(t)) ==> before + StreamTrace(t.script) + [TurnEnd(Reply(t), [])] == before + Body(t)
  {
    hide StreamTrace, BatchTrace;
    AppendAssoc(before, StreamTrace(t.script), ToolTrace(t));
    AppendAssoc(before, StreamTrace(t.script) + ToolTrace(t), [TurnEnd(Reply(t), Results(t))]);
    if Failed(Reply(t)) {
      assert StreamTrace(t.script) + [] == StreamTrace(t.script);
      AppendAssoc(before, StreamTrace(t.script), [TurnEnd(Reply(t), [])]);
    }
  }

  /** The shape of the turn that comes next, up to its schedule. */
  ghost function NextTurn(oracle: RunOracle, n: nat, injected: seq<Injected>): Turn {
    Turn(injected, oracle.streams(n), oracle.batches(n), [],
         if Failed(oracle.streams(n).outcome) then None else oracle.nextContext(n), oracle.stops(n))
  }

  lemma ExtendRun(oracle: RunOracle, turns: seq<Turn>, t: Turn)
    requires Legal(turns) && Follows(turns, oracle) && WellFormed(t)
    requires t == NextTurn(oracle, |turns|, t.injected).(schedule := t.schedule)
    requires turns != [] ==> MayFollow(turns[|turns| - 1], t)
    ensures Legal(turns + [t]) && Follows(turns + [t], oracle)
  {
    hide WellFormed, MayFollow;
    var all := turns + [t];
    forall u <- all ensures WellFormed(u) {
      assert u in turns || u == t;
    }
    forall n | 0 < n < |all| ensures MayFollow(all[n - 1], all[n]) {
      assert all[n - 1] == turns[n - 1];
    }
  }

  /** How one more turn extends everything a run is measured by. */
  lemma TurnExtends(base: RunBase, turns: seq<Turn>, opening: seq<Injected>, pending: seq<Injected>, t: Turn, source: Source)
    requires t.injected == opening + pending && (turns != [] ==> opening == [])
    ensures RenderedAll(turns + [t])
         == RenderedAll(turns) + (if turns == [] then Opening(opening) else [TurnStart]) + Pairs(Untag(pending)) + Body(t)
    ensures RunMessages(turns + [t]) == RunMessages(turns) + Untag(opening) + Untag(pending) + [Reply(t)] + Results(t)
    ensures ContextAfter(base.snapshot, turns + [t])
         == t.nextContext.GetOr(ContextAfter(base.snapshot, turns) + Untag(opening) + Untag(pending) + StreamContext(t.script) + Results(t))
    ensures Entered(turns + [t], source) == Entered(turns, source) + From(opening + pending, source)
  {
    hide RenderedAll, RunMessages, ContextAfter, Entered, From, Pairs, Body, Results;
    OneMoreTurn(turns, t, base.snapshot, source);
    UntagAppend(opening, pending);
    PairsAppend(Untag(opening), Untag(pending));
    var start := [TurnStart] + Pairs(Untag(opening));
    assert Opening(t.injected) == start + Pairs(Untag(pending)) by {
      AppendAssoc([TurnStart], Pairs(Untag(opening)), Pairs(Untag(pending)));
    }
    AppendAssoc(RenderedAll(turns), start + Pairs(Untag(pending)), Body(t));
    AppendAssoc(RenderedAll(turns), start, Pairs(Untag(pending)));
    if turns != [] {
      assert Untag(opening) == [];
      NoPairs();
      assert start == [TurnStart];
    }
    var head := Untag(opening) + Untag(pending);
    assert TurnMessages(t) == head + [Reply(t)] + Results(t);
    MessagesAssoc(RunMessages(turns), Untag(opening), Untag(pending), [Reply(t)], Results(t));
    assert ContextGain(t) == head + StreamContext(t.script) + Results(t);
    MessagesAssoc(ContextAfter(base.snapshot, turns), Untag(opening), Untag(pending), StreamContext(t.script), Results(t));
  }

  lemma MessagesAssoc(a: seq<Message>, b: seq<Message>, c: seq<Message>, d: seq<Message>, e: seq<Message>)
    ensures a + (b + c + d + e) == a + b + c + d + e
  {
    AppendAssoc(a, b + c + d, e);
    AppendAssoc(a, b + c, d);
    AppendAssoc(a, b, c);
  }

  /** One turn with the `prepareNextTurn` hook behind it, which may replace the context object. */
  method TakeTurn(ghost base: RunBase, ghost turns: seq<Turn>, ghost opening: seq<Injected>, ghost pending: seq<Injected>,
                  oracle: RunOracle, n: nat, firstTurn: bool, pendingMessages: seq<Message>,
                  initialContext: MessageList, newMessages: MessageList, config: LoopConfig, sink: AgentState)
      returns (message: AssistantMessage, hasMoreToolCalls: bool, context: MessageList, ghost turn: Turn)
    requires BetweenTurns(base, turns, opening, pending, initialContext, newMessages, config, sink)
    requires n == |turns| && (firstTurn <==> turns == []) && pendingMessages == Untag(pending)
    requires Legal(turns) && Follows(turns, oracle)
    requires turns != [] ==> MayFollow(turns[n - 1], NextTurn(oracle, n, opening + pending))
    modifies initialContext, newMessages, sink
    ensures turn == NextTurn(oracle, n, opening + pending).(schedule := turn.schedule)
    ensures Legal(turns + [turn]) && Follows(turns + [turn], oracle)
    ensures message == Reply(turn) && hasMoreToolCalls == WantsMore(turn)
    ensures sink.Valid() && sink.origin == old(sink.origin)
    ensures context == initialContext || fresh(context)
    ensures BetweenTurns(base, turns + [turn], [], [], context, newMessages, config, sink)
  {
    hide ReduceAll, RenderedAll, RunMessages, ContextAfter, Entered, From, Pairs, Body, Results, WantsMore, Legal, Follows,
      StreamContext, StreamTrace, BatchTrace, LegalSchedule, ToolTrace, Opening, WellFormed;
    ghost var shell := NextTurn(oracle, n, opening + pending);
    message, hasMoreToolCalls, turn :=
      RunTurn(shell, firstTurn, pendingMessages, oracle.streams(n), oracle.batches(n), initialContext, newMessages, sink);
    context := initialContext;
    if !Failed(message) {
      match oracle.nextContext(n) {
        case None =>
        case Some(items) => context := new MessageList(items);
      }
    }
    ExtendRun(oracle, turns, turn);
    TurnTaken(base, turns, opening, pending, turn);
  }

  /** A turn on top of the state between turns, as the next such state has it. */
  lemma TurnTaken(base: RunBase, turns: seq<Turn>, opening: seq<Injected>, pending: seq<Injected>, t: Turn)
    requires t.injected == opening + pending && (turns != [] ==> opening == [])
    ensures base.trace + RenderedAll(turns + [t]) + []
      == base.trace + RenderedAll(turns) + (if turns == [] then Opening(opening) else [])
         + (if turns == [] then [] else [TurnStart]) + Pairs(Untag(pending)) + Body(t)
    ensures RunMessages(turns + [t]) + Untag([])
      == RunMessages(turns) + Untag(opening) + Untag(pending) + [Reply(t)] + Results(t)
    ensures ContextAfter(base.snapshot, turns + [t]) + Untag([])
      == t.nextContext.GetOr(ContextAfter(base.snapshot, turns) + Untag(opening) + Untag(pending) + StreamContext(t.script) + Results(t))
    ensures base.steered + Entered(turns + [t], Steered) + From([] + [], Steered)
      == base.steered + Entered(turns, Steered) + From(opening + pending, Steered)
    ensures base.followedUp + Entered(turns + [t], FollowedUp) + From([] + [], FollowedUp)
      == base.followedUp + Entered(turns, FollowedUp) + From(opening + pending, FollowedUp)
  {
    hide RenderedAll, RunMessages, ContextAfter, Entered, From, Pairs, Body, Results, StreamContext, Opening;
    TurnExtends(base, turns, opening, pending, t, Steered);
    TurnExtends(base, turns, opening, pending, t, FollowedUp);
    var rendered, start := RenderedAll(turns), if turns == [] then Opening(opening) else [TurnStart];
    AppendAssoc(base.trace, rendered, start);
    AppendAssoc(base.trace, rendered + start, Pairs(Untag(pending)));
    AppendAssoc(base.trace, rendered + start + Pairs(Untag(pending)), Body(t));
    AppendAssoc(base.steered, Entered(turns, Steered), From(opening + pending, Steered));
    AppendAssoc(base.followedUp, Entered(turns, FollowedUp), From(opening + pending, FollowedUp));
    NoTurns([], Steered);
    NoTurns([], FollowedUp);
    var none: seq<Injected> := [];
    assert none + none == none;
  }

  /** The state a finished run leaves: everything accounted for, nothing held back. */
  ghost predicate RunEnded(base: RunBase, turns: seq<Turn>, context: MessageList, newMessages: MessageList,
                           config: LoopConfig, sink: AgentState)
    reads context, newMessages, config, config.steering, config.followUps, sink
  {
    && context != newMessages && config.Valid() && sink.Valid()
    && turns != []
    && sink.trace == base.trace + RenderedAll(turns) + [AgentEnd(RunMessages(turns))]
    && newMessages.items == RunMessages(turns)
    && context.items == ContextAfter(base.snapshot, turns)
    && config.steering.drained == base.steered + Entered(turns, Steered)
    && config.followUps.drained == base.followedUp + Entered(turns, FollowedUp)
  }

  /** What the loop carries between turns: why it may go on, and where `pending` came from. */
  ghost predicate Carries(turns: seq<Turn>, pending: seq<Injected>, hasMoreToolCalls: bool) {
    if turns == [] then hasMoreToolCalls && AllFrom(pending, Steered)
    else
      var last := turns[|turns| - 1];
      && !Failed(Reply(last)) && !last.stops
      && (|| (hasMoreToolCalls == WantsMore(last) && AllFrom(pending, Steered))
          || (hasMoreToolCalls && !WantsMore(last) && pending != [] && AllFrom(pending, FollowedUp)))
  }

  lemma CarriesOn(turns: seq<Turn>, pending: seq<Injected>, hasMoreToolCalls: bool, oracle: RunOracle, head: seq<Injected>)
    requires Carries(turns, pending, hasMoreToolCalls) && (hasMoreToolCalls || pending != []) && (turns != [] ==> head == [])
    ensures turns != [] ==> MayFollow(turns[|turns| - 1], NextTurn(oracle, |turns|, head + pending))
  {
    hide WantsMore;
    assert [] + pending == pending;
  }

  lemma PendingPolled(messages: seq<Message>, source: Source, head: seq<Injected>, s: Source)
    ensures Untag(Tag(source, messages)) == messages && AllFrom(Tag(source, messages), source)
    ensures From(head + Tag(source, messages), s) == if s == source then From(head, s) + messages else From(head, s)
  {
    FromAppend(head, Tag(source, messages), s);
    FromTag(messages, source, s);
  }

  /** What a poll adds to the histories of the queues. */
  lemma HistoriesGrow(base: RunBase, arrivals: seq<Arrival>, a: Arrival)
    ensures base.steeringHistory + ArrivalsOf(arrivals + [a], Steered)
         == base.steeringHistory + ArrivalsOf(arrivals, Steered) + a.steering
    ensures base.followUpHistory + ArrivalsOf(arrivals + [a], FollowedUp)
         == base.followUpHistory + ArrivalsOf(arrivals, FollowedUp) + a.followUps
  {
    ArrivalsGrow(arrivals, a, Steered);
    ArrivalsGrow(arrivals, a, FollowedUp);
  }

  /** A steering poll; what it returns becomes the pending messages. */
  method PollSteering(ghost base: RunBase, ghost turns: seq<Turn>, ghost head: seq<Injected>, ghost before: Polls, arrival: Arrival,
                      context: MessageList, newMessages: MessageList, config: LoopConfig, sink: AgentState)
      returns (messages: seq<Message>, ghost polls: Polls)
    requires BetweenTurns(base, turns, head, [], context, newMessages, config, sink) && QueuesAre(base, config, before)
    modifies config, config.steering, config.followUps
    ensures polls == SteeringPoll(before, arrival, old(config.skipInitialSteeringPoll)) && !config.skipInitialSteeringPoll
    ensures BetweenTurns(base, turns, head, polls.pending, context, newMessages, config, sink) && QueuesAre(base, config, polls)
    ensures messages == Untag(polls.pending) && AllFrom(polls.pending, Steered)
  {
    hide ReduceAll, RenderedAll, RunMessages, ContextAfter, Entered, From, ArrivalsOf, DrainOf;
    messages := config.GetSteeringMessages(arrival);
    polls := SteeringPoll(before, arrival, old(config.skipInitialSteeringPoll));
    assert polls.pending == Tag(Steered, messages);
    assert config.steering.messages == polls.steering by {
      assert (messages + config.steering.messages)[|messages|..] == config.steering.messages;
    }
    assert head + [] == head;
    PendingPolled(messages, Steered, head, Steered);
    PendingPolled(messages, Steered, head, FollowedUp);
    AppendAssoc(base.steered + Entered(turns, Steered), From(head, Steered), messages);
    HistoriesGrow(base, before.arrivals, arrival);
  }

  /** A follow-up poll, made when nothing else is left to do. */
  method PollFollowUps(ghost base: RunBase, ghost turns: seq<Turn>, ghost head: seq<Injected>, ghost before: Polls, arrival: Arrival,
                       context: MessageList, newMessages: MessageList, config: LoopConfig, sink: AgentState)
      returns (messages: seq<Message>, ghost polls: Polls)
    requires BetweenTurns(base, turns, head, [], context, newMessages, config, sink) && QueuesAre(base, config, before)
    modifies config.steering, config.followUps
    ensures polls == FollowUpPoll(before, arrival)
    ensures BetweenTurns(base, turns, head, polls.pending, context, newMessages, config, sink) && QueuesAre(base, config, polls)
    ensures messages == Untag(polls.pending) && AllFrom(polls.pending, FollowedUp)
  {
    hide ReduceAll, RenderedAll, RunMessages, ContextAfter, Entered, From, ArrivalsOf, DrainOf;
    messages := config.GetFollowUpMessages(arrival);
    polls := FollowUpPoll(before, arrival);
    assert polls.pending == Tag(FollowedUp, messages);
    assert config.followUps.messages == polls.followUps by {
      assert (messages + config.followUps.messages)[|messages|..] == config.followUps.messages;
    }
    assert head + [] == head;
    PendingPolled(messages, FollowedUp, head, Steered);
    PendingPolled(messages, FollowedUp, head, FollowedUp);
    AppendAssoc(base.followedUp + Entered(turns, FollowedUp), From(head, FollowedUp), messages);
    HistoriesGrow(base, before.arrivals, arrival);
  }

  method EndRun(ghost base: RunBase, ghost turns: seq<Turn>,
                context: MessageList, newMessages: MessageList, config: LoopConfig, sink: AgentState)
    requires turns != [] && BetweenTurns(base, turns, [], [], context, newMessages, config, sink)
    modifies sink
    ensures RunEnded(base, turns, context, newMessages, config, sink) && sink.origin == old(sink.origin)
  {
    hide ReduceAll, RenderedAll, RunMessages, ContextAfter, Entered, From;
    NoTurns([], Steered);
    NoTurns([], FollowedUp);
    ghost var none: seq<Injected> := [];
    assert none + none == none;
    assert sink.trace == base.trace + RenderedAll(turns);
    assert newMessages.items == RunMessages(turns);
    sink.ProcessEvent(AgentEnd(newMessages.items));
  }

  lemma NothingRunYet(oracle: RunOracle)
    ensures Legal([]) && Follows([], oracle)
    ensures forall pending :: AllFrom(pending, Steered) ==> Carries([], pending, true)
  {}

  /** A turn that neither failed nor stopped the run lets the loop go on with what is steered next. */
  lemma CarriesAfter(turns: seq<Turn>)
    requires turns != []
    ensures var last := turns[|turns| - 1];
      && (Failed(Reply(last)) || last.stops ==> Over(turns, []))
      && (!Failed(Reply(last)) && !last.stops ==>
           forall pending :: AllFrom(pending, Steered) ==> Carries(turns, pending, WantsMore(last)))
  {}

  lemma CarriesFollowUps(turns: seq<Turn>, pending: seq<Injected>)
    requires turns != [] && Carries(turns, [], false) && pending != [] && AllFrom(pending, FollowedUp)
    ensures Carries(turns, pending, true)
  {}

  /** The loop goes on exactly while the run is not over. */
  lemma CarriesUntilOver(turns: seq<Turn>, pending: seq<Injected>, hasMoreToolCalls: bool)
    requires Carries(turns, pending, hasMoreToolCalls)
    ensures hasMoreToolCalls || pending != [] <==> !Over(turns, pending)
  {}

  /** The loop between two turns, ready to take another or to stop. While it is not done with its
      steering messages the polls behind the turns are complete; otherwise the one for follow-ups is left. */
  ghost predicate LoopState(base: RunBase, oracle: RunOracle, opening: seq<Injected>, turns: seq<Turn>,
                            polls: Polls, hasMoreToolCalls: bool,
                            context: MessageList, newMessages: MessageList, config: LoopConfig, sink: AgentState)
    reads context, newMessages, config, config.steering, config.followUps, sink
  {
    && Legal(turns) && Follows(turns, oracle) && Carries(turns, polls.pending, hasMoreToolCalls)
    && TakesWhatIsPolled(base.start, opening, turns, oracle)
    && PollsAfter(base.start, turns, oracle)
       == (if hasMoreToolCalls || polls.pending != [] then polls else FollowUpPoll(polls, oracle.beforeFollowUpPoll(|turns|)))
    && BetweenTurns(base, turns, Head(turns, opening), polls.pending, context, newMessages, config, sink)
    && QueuesAre(base, config, polls)
    && !config.skipInitialSteeringPoll
  }

  /** One pass of the inner loop, with its two early exits and the steering poll at its end. */
  method LoopPass(ghost base: RunBase, ghost opening: seq<Injected>, ghost turns: seq<Turn>, ghost polls: Polls,
                  oracle: RunOracle, n: nat, firstTurn: bool, pendingMessages: seq<Message>, hasMoreToolCalls: bool,
                  initialContext: MessageList, newMessages: MessageList, config: LoopConfig, sink: AgentState)
      returns (ended: bool, nextPending: seq<Message>, more: bool, context: MessageList, ghost turn: Turn, ghost next: Polls)
    requires LoopState(base, oracle, opening, turns, polls, hasMoreToolCalls, initialContext, newMessages, config, sink)
    requires hasMoreToolCalls || polls.pending != []
    requires n == |turns| && (firstTurn <==> turns == []) && pendingMessages == Untag(polls.pending)
    modifies initialContext, newMessages, config, config.steering, config.followUps, sink
    ensures context == initialContext || fresh(context)
    ensures sink.origin == old(sink.origin)
    ensures Legal(turns + [turn]) && Follows(turns + [turn], oracle) && TakesWhatIsPolled(base.start, opening, turns + [turn], oracle)
    ensures ended ==>
      && RunEnded(base, turns + [turn], context, newMessages, config, sink) && Over(turns + [turn], [])
      && next == PollsAfter(base.start, turns + [turn], oracle) && next.pending == [] && QueuesAre(base, config, next)
    ensures !ended ==>
      && LoopState(base, oracle, opening, turns + [turn], next, more, context, newMessages, config, sink)
      && nextPending == Untag(next.pending)
  {
    hide BetweenTurns, RunEnded, ReduceAll, RenderedAll, RunMessages, ContextAfter, Entered, From, Pairs, Body, Results,
      WantsMore, Legal, Follows, WellFormed, MayFollow, AllFrom, Opening, TurnMessages, Carries, Over,
      PollsAfter, TakesWhatIsPolled, SteeringPoll, FollowUpPoll, ArrivalsOf, Head;
    nextPending, next, more, ended := [], polls.(pending := []), false, true;
    NoHead(turns, opening);
    CarriesOn(turns, polls.pending, hasMoreToolCalls, oracle, Head(turns, opening));
    var message;
    message, more, context, turn :=
      TakeTurn(base, turns, Head(turns, opening), polls.pending, oracle, n, firstTurn, pendingMessages, initialContext, newMessages, config, sink);
    OneMorePolled(base.start, opening, turns, turn, oracle);
    PollsBehind(base.start, turns, turn, oracle);
    CarriesAfter(turns + [turn]);
    if message.stopReason == ErrorStop || message.stopReason == AbortedStop {
      EndRun(base, turns + [turn], context, newMessages, config, sink);
      return;
    }
    if oracle.stops(n) {
      EndRun(base, turns + [turn], context, newMessages, config, sink);
      return;
    }
    ended := false;
    nextPending, next :=
      PollSteering(base, turns + [turn], [], polls, oracle.beforeSteeringPoll(n + 1), context, newMessages, config, sink);
    NoHead(turns + [turn], opening);
  }

  lemma NoHead(turns: seq<Turn>, opening: seq<Injected>)
    ensures turns != [] ==> Head(turns, opening) == []
  {}

  /** What the nested loops make of a run: a legal one that meets the oracle, takes in exactly what its
      polls hand over, loses nothing of what arrives, and is finished exactly when it is over. */
  ghost predicate RanLoop(base: RunBase, opening: seq<Injected>, oracle: RunOracle, maxTurns: nat, finished: bool,
                          turns: seq<Turn>, pending: seq<Injected>,
                          context: MessageList, newMessages: MessageList, config: LoopConfig, sink: AgentState)
    reads context, newMessages, config, config.steering, config.followUps, sink
  {
    && Legal(turns) && Follows(turns, oracle) && |turns| <= maxTurns
    && TakesWhatIsPolled(base.start, opening, turns, oracle)
    && QueuesAre(base, config, PollsAfter(base.start, turns, oracle))
    && pending == PollsAfter(base.start, turns, oracle).pending
    && (finished <==> Over(turns, pending)) && EndsOnTime(turns, pending, finished, oracle)
    && (finished ==> pending == [] && RunEnded(base, turns, context, newMessages, config, sink))
    && (!finished ==>
         |turns| == maxTurns && BetweenTurns(base, turns, Head(turns, opening), pending, context, newMessages, config, sink))
  }

  /** The nested loops. `maxTurns` cuts the run off between turns, so the contract speaks of every
      finite prefix of every run; `finished` says the run ended by itself. */
  method RunLoop(ghost base: RunBase, ghost opening: seq<Injected>, oracle: RunOracle, maxTurns: nat,
                 initialContext: MessageList, newMessages: MessageList, config: LoopConfig, sink: AgentState)
      returns (finished: bool, context: MessageList, ghost turns: seq<Turn>, ghost pending: seq<Injected>)
    requires BetweenTurns(base, [], opening, [], initialContext, newMessages, config, sink)
    requires QueuesAre(base, config, base.start.Queues()) && base.start.skip == config.skipInitialSteeringPoll
    modifies initialContext, newMessages, config, config.steering, config.followUps, sink
    ensures context == initialContext || fresh(context)
    ensures sink.origin == old(sink.origin)
    ensures RanLoop(base, opening, oracle, maxTurns, finished, turns, pending, context, newMessages, config, sink)
  {
    hide BetweenTurns, RunEnded, ReduceAll, RenderedAll, RunMessages, ContextAfter, Entered, From, Pairs, Body, Results,
      WantsMore, Legal, Follows, WellFormed, MayFollow, AllFrom, Opening, TurnMessages, Carries, Over,
      NextTurn, PollsAfter, TakesWhatIsPolled, SteeringPoll, FollowUpPoll, QueuesAre,
      EndsOnTime;
    turns, context := [], initialContext;
    var firstTurn, n := true, 0;
    NothingRunYet(oracle);
    NoPollYet(base.start, opening, oracle);
    var pendingMessages;
    ghost var polls;
    pendingMessages, polls :=
      PollSteering(base, turns, opening, base.start.Queues(), oracle.beforeSteeringPoll(0), context, newMessages, config, sink);

    while true
      invariant context == initialContext || fresh(context)
      invariant n == |turns| <= maxTurns && (firstTurn <==> turns == []) && pendingMessages == Untag(polls.pending)
      invariant LoopState(base, oracle, opening, turns, polls, true, context, newMessages, config, sink)
      invariant sink.origin == old(sink.origin)
      decreases maxTurns - n
    {
      var hasMoreToolCalls := true;
      ghost var before := n;
      while hasMoreToolCalls || |pendingMessages| > 0
        invariant context == initialContext || fresh(context)
        invariant n == |turns| <= maxTurns && (firstTurn <==> turns == []) && pendingMessages == Untag(polls.pending)
        invariant before <= n && (n == before ==> hasMoreToolCalls)
        invariant LoopState(base, oracle, opening, turns, polls, hasMoreToolCalls, context, newMessages, config, sink)
        invariant sink.origin == old(sink.origin)
        decreases maxTurns - n
      {
        if n == maxTurns {
          finished, pending := false, polls.pending;
          CarriesUntilOver(turns, pending, hasMoreToolCalls);
          RunEndsOnTime(turns, pending, finished, oracle);
          return;
        }
        var ended;
        ghost var turn;
        ended, pendingMessages, hasMoreToolCalls, context, turn, polls :=
          LoopPass(base, opening, turns, polls, oracle, n, firstTurn, pendingMessages, hasMoreToolCalls,
                   context, newMessages, config, sink);
        turns := turns + [turn];
        firstTurn, n := false, n + 1;
        if ended {
          finished, pending := true, polls.pending;
          RunEndsOnTime(turns, pending, finished, oracle);
          return;
        }
      }

      CarriesUntilOver(turns, [], false);
      var followUpMessages;
      ghost var followedUp;
      followUpMessages, followedUp :=
        PollFollowUps(base, turns, [], polls, oracle.beforeFollowUpPoll(n), context, newMessages, config, sink);
      if |followUpMessages| > 0 {
        CarriesFollowUps(turns, followedUp.pending);
        pendingMessages, polls := followUpMessages, followedUp;
        continue;
      }
      polls := followedUp;
      break;
    }
    EndRun(base, turns, context, newMessages, config, sink);
    finished, pending := true, [];
    RunEndsOnTime(turns, pending, finished, oracle);
  }

  method EmitPrompts(prompts: seq<Message>, sink: AgentState)
    requires sink.Valid()
    modifies sink
    ensures sink.Valid() && sink.origin == old(sink.origin)
    ensures sink.trace == old(sink.trace) + Pairs(prompts)
  {
    hide ReduceAll, Pairs;
    NoPairs();
    for i := 0 to |prompts|
      invariant sink.Valid() && sink.origin == old(sink.origin)
      invariant sink.trace == old(sink.trace) + Pairs(prompts[..i])
    {
      OneMorePair(prompts, i);
      AppendAssoc(old(sink.trace), Pairs(prompts[..i]), Pair(prompts[i]));
      EmitPair(prompts[i], sink);
    }
    assert prompts[..|prompts|] == prompts;
  }

  /** A run opened by `prompts`, which came from a caller or out of one of the queues (`origin`).
      `steered` and `followedUp` are what the queues had drained before those messages. */
  method RunAgentLoop(ghost origin: Source, ghost steered: seq<Message>, ghost followedUp: seq<Message>,
                      prompts: seq<Message>, snapshot: seq<Message>, oracle: RunOracle, maxTurns: nat,
                      config: LoopConfig, sink: AgentState)
      returns (finished: bool, newMessages: MessageList, context: MessageList, ghost base: RunBase,
               ghost turns: seq<Turn>, ghost pending: seq<Injected>)
    requires config.Valid() && sink.Valid()
    requires config.steering.drained == steered + From(Tag(origin, prompts), Steered)
    requires config.followUps.drained == followedUp + From(Tag(origin, prompts), FollowedUp)
    modifies config, config.steering, config.followUps, sink
    ensures fresh(newMessages) && fresh(context) && sink.origin == old(sink.origin)
    ensures base == RunBase(old(sink.trace) + [AgentStart], snapshot, steered, followedUp,
                            old(config.steering.enqueued), old(config.followUps.enqueued), old(StartOf(config)))
    ensures RanLoop(base, Tag(origin, prompts), oracle, maxTurns, finished, turns, pending, context, newMessages, config, sink)
  {
    hide RanLoop, ReduceAll, From, Pairs;
    newMessages := new MessageList(prompts);
    var initialContext := new MessageList(snapshot + prompts);
    sink.ProcessEvent(AgentStart);
    sink.ProcessEvent(TurnStart);
    EmitPrompts(prompts, sink);
    base := RunBase(old(sink.trace) + [AgentStart], snapshot, steered, followedUp,
                    config.steering.enqueued, config.followUps.enqueued, StartOf(config));
    ghost var opening := Tag(origin, prompts);
    ReadyToRun(base, opening, prompts, origin, initialContext, newMessages, config, sink);
    finished, context, turns, pending := RunLoop(base, opening, oracle, maxTurns, initialContext, newMessages, config, sink);
  }

  ghost function StartOf(config: LoopConfig): QueueStart
    reads config, config.steering, config.followUps
  {
    QueueStart(config.steering.messages, config.followUps.messages, config.skipInitialSteeringPoll)
  }

  lemma ReadyToRun(base: RunBase, opening: seq<Injected>, prompts: seq<Message>, origin: Source,
                   context: MessageList, newMessages: MessageList, config: LoopConfig, sink: AgentState)
    requires opening == Tag(origin, prompts) && context != newMessages && config.Valid() && sink.Valid()
    requires sink.trace == base.trace + [TurnStart] + Pairs(prompts)
    requires newMessages.items == prompts && context.items == base.snapshot + prompts
    requires config.steering.drained == base.steered + From(opening, Steered)
    requires config.followUps.drained == base.followedUp + From(opening, FollowedUp)
    requires config.steering.enqueued == base.steeringHistory && config.followUps.enqueued == base.followUpHistory
    requires base.start == StartOf(config)
    ensures BetweenTurns(base, [], opening, [], context, newMessages, config, sink)
    ensures QueuesAre(base, config, base.start.Queues())
  {
    hide ReduceAll, Pairs, From;
    FromTag(prompts, origin, origin);
    NoTurns(base.snapshot, Steered);
    NoTurns(base.snapshot, FollowedUp);
    assert opening + [] == opening;
    AppendAssoc(base.trace, [TurnStart], Pairs(prompts));
  }

  function LastOf(messages: seq<Message>): Message
    requires messages != []
  {
    messages[|messages| - 1]
  }

  lemma FirstCallSees(snapshot: seq<Message>, turns: seq<Turn>)
    requires turns != []
    ensures CallContext(snapshot, turns, 0) == snapshot + Untag(turns[0].injected)
  {
    assert turns[..0] == [];
  }

  /** Why a run cannot be continued from a transcript. */
  function CannotContinue(messages: seq<Message>): Option<string> {
    if messages == [] then Some("Cannot continue: no messages in context")
    else if messages[|messages| - 1].Assistant? then Some("Cannot continue from message role: assistant")
    else None
  }

  /** A run that adds no message of its own at the start; it throws on an unusable transcript. The given
      context's own array is extended in place. */
  method RunAgentLoopContinue(initialContext: MessageList, oracle: RunOracle, maxTurns: nat, config: LoopConfig, sink: AgentState)
      returns (error: Option<string>, finished: bool, newMessages: MessageList, context: MessageList, ghost base: RunBase,
               ghost turns: seq<Turn>, ghost pending: seq<Injected>)
    requires config.Valid() && sink.Valid()
    modifies initialContext, config, config.steering, config.followUps, sink
    ensures error == CannotContinue(old(initialContext.items))
    // It refuses an empty transcript and one that ends in an assistant message, and no other.
    ensures old(initialContext.items) == [] ==> error == Some("Cannot continue: no messages in context")
    ensures old(initialContext.items) != [] ==>
      error == if old(initialContext.items[|initialContext.items| - 1].Assistant?)
               then Some("Cannot continue from message role: assistant") else None
    ensures fresh(newMessages) && (context == initialContext || fresh(context)) && sink.origin == old(sink.origin)
    ensures error.Some? ==>
      unchanged(initialContext) && unchanged(config) && unchanged(config.steering) && unchanged(config.followUps) && unchanged(sink)
    ensures error.None? ==>
      base == RunBase(old(sink.trace) + [AgentStart], old(initialContext.items), old(config.steering.drained), old(config.followUps.drained),
                      old(config.steering.enqueued), old(config.followUps.enqueued), old(StartOf(config)))
    ensures error.None? ==>
      RanLoop(base, [], oracle, maxTurns, finished, turns, pending, context, newMessages, config, sink)
    // The provider never sees an empty context, nor one that ends in an assistant message when nothing came in.
    ensures error.None? && turns != [] ==>
      && CallContext(base.snapshot, turns, 0) != []
      && (turns[0].injected == [] ==> !LastOf(CallContext(base.snapshot, turns, 0)).Assistant?)
  {
    hide RanLoop, ReduceAll, From, Pairs, CallContext;
    newMessages := new MessageList([]);
    context := initialContext;
    finished, turns, pending := false, [], [];
    ghost var snapshot := initialContext.items;
    base := RunBase(sink.trace + [AgentStart], snapshot, config.steering.drained, config.followUps.drained,
                    config.steering.enqueued, config.followUps.enqueued, StartOf(config));
    error := CannotContinue(initialContext.items);
    if error.Some? {
      return;
    }
    sink.ProcessEvent(AgentStart);
    sink.ProcessEvent(TurnStart);
    NoTurns(snapshot, Steered);
    NoTurns(snapshot, FollowedUp);
    NoPairs();
    ReadyToRun(base, [], [], Prompted, context, newMessages, config, sink);
    finished, context, turns, pending := RunLoop(base, [], oracle, maxTurns, context, newMessages, config, sink);
    if turns != [] {
      FirstCallSees(base.snapshot, turns);
    }
  }
}
