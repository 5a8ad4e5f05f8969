/** The stateful wrapper: one transcript, two queues, at most one run at a time. */
module Agents {
  import opened AgentTypes
  import opened AgentStates
  import opened PendingQueues
  import opened Runs
  import opened RunLaws
  import opened Polling
  import opened TraceGrammar
  import opened AgentLoops
  import opened Lifecycles

  const BUSY_PROMPTING :=
    "Agent is already processing a prompt. Use steer() or followUp() to queue messages, or wait for completion."
  const BUSY_CONTINUING := "Agent is already processing. Wait for completion before continuing."

  /** An agent as a run finds it: the transcript, the histories of both queues, what they still hold once
      the messages that open the run are out, and the number of the run. */
  datatype RunEntry = RunEntry(
    messages: seq<Message>, steered: seq<Message>, followedUp: seq<Message>,
    steeringHistory: seq<Message>, followUpHistory: seq<Message>, start: QueueStart, runId: nat)

  function Without(messages: seq<Message>, n: nat): seq<Message> {
    if n <= |messages| then messages[n..] else []
  }

  /** At most one message of this source enters in any turn. */
  ghost predicate OnePerTurn(turns: seq<Turn>, source: Source) {
    forall t <- turns :: |From(t.injected, source)| <= 1
  }

  /** How an agent goes on from its transcript: not while a run is active or without messages; from itself
      unless it ends in an assistant message, and then only with queued messages, steering ones first. */
  ghost predicate ContinuesAs(active: bool, messages: seq<Message>, steeringMode: QueueMode, steering: seq<Message>,
                              followUpMode: QueueMode, followUps: seq<Message>, error: Option<string>, opening: seq<Injected>) {
    if active then error == Some(BUSY_CONTINUING)
    else if messages == [] then error == Some("No messages to continue from")
    else if !messages[|messages| - 1].Assistant? then error.None? && opening == []
    else if steering != [] then error.None? && opening == Tag(Steered, Handed(steeringMode, steering))
    else if followUps != [] then error.None? && opening == Tag(FollowedUp, Handed(followUpMode, followUps))
    else error == Some("Cannot continue from message role: assistant")
  }

  /** The first turn takes in what opened the run and, unless that poll is skipped, steering messages. */
  ghost predicate FirstTurnOpens(turns: seq<Turn>, opening: seq<Injected>, skip: bool, steering: seq<Message>, oracle: RunOracle) {
    turns != [] ==>
      var a := oracle.beforeSteeringPoll(0);
      turns[0].injected == opening + Tag(Steered, if skip then [] else Handed(a.steeringMode, steering + a.steering))
  }

  /** The first provider call sees some message, and a context that ends in an assistant message only if
      something came in. */
  ghost predicate FirstCallHasInput(messages: seq<Message>, turns: seq<Turn>) {
    turns != [] ==>
      var seen := CallContext(messages, turns, 0);
      seen != [] && (turns[0].injected == [] ==> !seen[|seen| - 1].Assistant?)
  }

  class Agent {
    const state: AgentState
    const steeringQueue: PendingMessageQueue
    const followUpQueue: PendingMessageQueue
    var activeRun: Option<nat>
    var aborted: bool
    var runsStarted: nat
    var settled: set<nat>

    ghost function View(): Life
      reads this, state
    {
      Life(state.Value(), activeRun, aborted, runsStarted, settled)
    }

    ghost predicate Valid()
      reads this, state, steeringQueue, followUpQueue
    {
      && state.Valid() && steeringQueue.Valid() && followUpQueue.Valid() && steeringQueue != followUpQueue
      && Sound(View())
    }

    constructor (messages: seq<Message>, steeringMode: QueueMode, followUpMode: QueueMode)
      ensures Valid() && View() == Fresh(messages)
      ensures fresh(state) && fresh(steeringQueue) && fresh(followUpQueue)
      ensures steeringQueue.messages == followUpQueue.messages == []
    {
      state := new AgentState(messages);
      steeringQueue := new PendingMessageQueue(steeringMode);
      followUpQueue := new PendingMessageQueue(followUpMode);
      activeRun, aborted, runsStarted, settled := None, false, 0, {};
    }

    method Steer(message: Message)
      requires Valid()
      modifies steeringQueue
      ensures Valid() && steeringQueue.messages == old(steeringQueue.messages) + [message]
      ensures steeringQueue.enqueued == old(steeringQueue.enqueued) + [message]
      ensures steeringQueue.drained == old(steeringQueue.drained) && steeringQueue.mode == old(steeringQueue.mode)
    {
      steeringQueue.Enqueue(message);
    }

    method FollowUp(message: Message)
      requires Valid()
      modifies followUpQueue
      ensures Valid() && followUpQueue.messages == old(followUpQueue.messages) + [message]
      ensures followUpQueue.enqueued == old(followUpQueue.enqueued) + [message]
      ensures followUpQueue.drained == old(followUpQueue.drained) && followUpQueue.mode == old(followUpQueue.mode)
    {
      followUpQueue.Enqueue(message);
    }

    method Abort()
      requires Valid()
      modifies this
      ensures Valid() && View() == Step(old(View()), Action.Abort)
      ensures aborted <==> old(aborted) || activeRun.Some?
      ensures activeRun == old(activeRun) && runsStarted == old(runsStarted) && settled == old(settled)
    {
      if activeRun.Some? {
        aborted := true;
      }
    }

    method Reset()
      requires Valid()
      modifies state, steeringQueue, followUpQueue
      ensures Valid() && View() == Step(old(View()), Action.Reset)
      ensures state.Value() == StateValue([], false, None, {}, None)
      ensures steeringQueue.messages == followUpQueue.messages == []
      ensures steeringQueue.drained == old(steeringQueue.drained) && followUpQueue.drained == old(followUpQueue.drained)
    {
      state.Assign(StateValue([], false, None, {}, None));
      followUpQueue.Clear();
      steeringQueue.Clear();
    }

    /** The head of `runWithLifecycle`; it refuses a second run. */
    method BeginRun() returns (accepted: bool)
      requires Valid()
      modifies this, state
      ensures Valid() && View() == Step(old(View()), Begin)
      ensures accepted <==> old(activeRun).None?
      ensures accepted ==> activeRun == Some(old(runsStarted)) && runsStarted == old(runsStarted) + 1
      ensures accepted ==> !aborted && settled == old(settled)
      ensures accepted ==>
        state.Value() == old(state.Value()).(isStreaming := true, streamingMessage := None, errorMessage := None)
      ensures accepted ==> state.trace == [] && state.origin == state.Value()
      ensures !accepted ==> unchanged(this) && unchanged(state)
    {
      accepted := activeRun.None?;
      if accepted {
        activeRun, aborted, runsStarted := Some(runsStarted), false, runsStarted + 1;
        state.Assign(state.Value().(isStreaming := true, streamingMessage := None, errorMessage := None));
      }
    }

    method FinishRun()
      requires Valid()
      modifies this, state
      ensures Valid() && View() == Step(old(View()), Finish)
      ensures state.Value() == old(state.Value()).(isStreaming := false, streamingMessage := None, pendingToolCalls := {})
      ensures activeRun.None? && aborted == old(aborted) && runsStarted == old(runsStarted)
      ensures settled == old(settled) + (if old(activeRun).Some? then {old(activeRun).value} else {})
    {
      state.Assign(state.Value().(isStreaming := false, streamingMessage := None, pendingToolCalls := {}));
      if activeRun.Some? {
        settled := settled + {activeRun.value};
      }
      activeRun := None;
    }

    /** Reduces one event and hands it to the listeners, one of which may throw. Outside a run it throws
        after reducing, and an event that begins nothing leaves the state idle. */
    method ProcessEvents(event: AgentEvent, listenerThrows: bool) returns (threw: bool)
      requires Valid()
      modifies state
      ensures state.Valid() && View() == Step(old(View()), Deliver(event))
      ensures activeRun.Some? || Lifecycles.Idle(state.Value()) ==> Valid()
      ensures BeginsNothing(event) ==> Valid()
      ensures threw <==> activeRun.None? || listenerThrows
      ensures state.origin == old(state.origin) && state.trace == old(state.trace) + [event]
    {
      hide ReduceAll;
      state.ProcessEvent(event);
      threw := activeRun.None? || listenerThrows;
    }

    /** The agent as a run that opens with `opening` finds it. Only steering messages out of the queue
        make it skip its first steering poll. */
    ghost function EntryOf(opening: seq<Injected>): RunEntry
      reads this, state, steeringQueue, followUpQueue
    {
      RunEntry(state.messages, steeringQueue.drained, followUpQueue.drained, steeringQueue.enqueued, followUpQueue.enqueued,
               QueueStart(Without(steeringQueue.messages, |From(opening, Steered)|),
                          Without(followUpQueue.messages, |From(opening, FollowedUp)|),
                          From(opening, Steered) != []),
               runsStarted)
    }

    /** What a run started by this agent does to the agent, whether it finished or is still going. */
    ghost predicate RanFrom(entry: RunEntry, opening: seq<Injected>, oracle: RunOracle, maxTurns: nat, finished: bool,
                            returned: seq<Message>, contextMessages: seq<Message>, turns: seq<Turn>, pending: seq<Injected>,
                            trace: seq<AgentEvent>)
      reads this, state, steeringQueue, followUpQueue
    {
      var head := if finished then [] else Head(turns, opening);
      var polls := PollsAfter(entry.start, turns, oracle);
      && Legal(turns) && Follows(turns, oracle) && |turns| <= maxTurns
      // The three copies of the transcript.
      && returned == RunMessages(turns) + Untag(head)
      && state.messages == entry.messages + returned
      && ((forall t <- turns :: t.nextContext.None?) ==> (contextMessages == state.messages <==> OneStarts(turns)))
      // What the listeners saw.
      && trace == [AgentStart] + RenderedAll(turns)
           + (if finished then [AgentEnd(RunMessages(turns))] else if turns == [] then Opening(opening) else [])
      // Every turn takes in what was polled for it, and the queues hold what the polls left.
      && TakesWhatIsPolled(entry.start, opening, turns, oracle) && pending == polls.pending
      && steeringQueue.messages == polls.steering && followUpQueue.messages == polls.followUps
      // Everything that arrived is remembered, and nothing of it is lost or doubled: it is in the
      // transcript, held by the loop or still queued.
      && steeringQueue.enqueued == entry.steeringHistory + ArrivalsOf(polls.arrivals, Steered)
         == entry.steered + Entered(turns, Steered) + From(head + pending, Steered) + steeringQueue.messages
      && followUpQueue.enqueued == entry.followUpHistory + ArrivalsOf(polls.arrivals, FollowedUp)
         == entry.followedUp + Entered(turns, FollowedUp) + From(head + pending, FollowedUp) + followUpQueue.messages
      // How it stands.
      && (finished <==> Over(turns, pending)) && EndsOnTime(turns, pending, finished, oracle)
      && (finished ==> activeRun.None? && entry.runId in settled && pending == [])
      && (!finished ==> activeRun == Some(entry.runId) && |turns| == maxTurns)
    }

    /** What follows for the number of turns and for what each of them takes in. `steered` and `followedUp`
        are how many messages either queue held before the run; later ones show in `enqueued`. */
    ghost predicate WithinLimits(entry: RunEntry, steered: nat, followedUp: nat, oracle: RunOracle, maxTurns: nat,
                                 finished: bool, turns: seq<Turn>)
      reads steeringQueue, followUpQueue
    {
      && (turns != [] ==>
           |turns| <= 1 + TurnsWantingMore(turns[..|turns| - 1]) + steered + followedUp
                    + (|steeringQueue.enqueued| - |entry.steeringHistory|)
                    + (|followUpQueue.enqueued| - |entry.followUpHistory|))
      // The run ends by itself whenever model and callers are bounded.
      && (forall batches: nat, messages: nat ::
           Bounded(oracle, batches, messages) && maxTurns > 1 + batches + messages + steered + followedUp ==> finished)
    }

    lemma RunStaysWithinLimits(entry: RunEntry, steered: nat, followedUp: nat, opening: seq<Injected>, oracle: RunOracle,
                               maxTurns: nat, finished: bool, returned: seq<Message>, contextMessages: seq<Message>,
                               turns: seq<Turn>, pending: seq<Injected>, trace: seq<AgentEvent>)
      requires RanFrom(entry, opening, oracle, maxTurns, finished, returned, contextMessages, turns, pending, trace)
      requires |entry.start.steering| <= steered && |entry.start.followUps| <= followedUp
      requires From(opening, Steered) != [] ==> entry.start.skip
      ensures WithinLimits(entry, steered, followedUp, oracle, maxTurns, finished, turns)
      ensures forall source ::
        source != Prompted && OneAtATimePolls(oracle, source) && |From(opening, source)| <= 1 ==> OnePerTurn(turns, source)
      ensures finished ==> (AdvanceAll(Before, trace) == Phase.Done <==> OneStarts(turns))
      ensures FirstTurnOpens(turns, opening, entry.start.skip, entry.start.steering, oracle)
    {
      hide Legal, Follows, TakesWhatIsPolled, Entered, From, ArrivalsOf, TurnsWantingMore, PollsAfter, Over, RunMessages, Bounded,
        OneAtATimePolls, RenderedAll, AdvanceAll, OneStarts, EndsOnTime;
      if finished {
        OverHasTurns(turns, pending);
        RunIsAccepted(turns);
      }
      forall source | source != Prompted && OneAtATimePolls(oracle, source) && |From(opening, source)| <= 1
        ensures OnePerTurn(turns, source)
      {
        OneFromQueue(entry.start, opening, turns, oracle, source);
      }
      if turns != [] {
        QueuesBoundTurns(entry.start, opening, turns, oracle);
        FirstTurnTakes(entry.start, opening, turns, oracle);
      }
      forall batches: nat, messages: nat | Bounded(oracle, batches, messages)
        ensures |turns| <= 1 + batches + messages + steered + followedUp
      {
        RunsAreFinite(entry.start, opening, turns, oracle, batches, messages);
      }
    }

    lemma OverHasTurns(turns: seq<Turn>, pending: seq<Injected>)
      requires Over(turns, pending)
      ensures turns != []
    {}

    /** The loop's own result, seen from the agent. */
    lemma LoopRan(entry: RunEntry, base: RunBase, opening: seq<Injected>, oracle: RunOracle, maxTurns: nat, finished: bool,
                  turns: seq<Turn>, pending: seq<Injected>, newMessages: MessageList, context: MessageList, config: LoopConfig,
                  begun: StateValue)
      requires RanLoop(base, opening, oracle, maxTurns, finished, turns, pending, context, newMessages, config, state)
      requires base == RunBase([AgentStart], entry.messages, entry.steered, entry.followedUp,
                               entry.steeringHistory, entry.followUpHistory, entry.start)
      requires config.steering == steeringQueue && config.followUps == followUpQueue
      requires state.origin == begun && begun.messages == entry.messages
      ensures state.Valid() && steeringQueue.Valid() && followUpQueue.Valid()
      ensures var head := if finished then [] else Head(turns, opening);
        && newMessages.items == RunMessages(turns) + Untag(head)
        && state.messages == entry.messages + newMessages.items
        && ((forall t <- turns :: t.nextContext.None?) ==> (context.items == state.messages <==> OneStarts(turns)))
        && state.trace == [AgentStart] + RenderedAll(turns)
             + (if finished then [AgentEnd(RunMessages(turns))] else if turns == [] then Opening(opening) else [])
        && steeringQueue.drained == entry.steered + Entered(turns, Steered) + From(head + pending, Steered)
        && followUpQueue.drained == entry.followedUp + Entered(turns, FollowedUp) + From(head + pending, FollowedUp)
    {
      hide ReduceAll, RenderedAll, RunMessages, ContextAfter, Entered, From, Pairs, Legal, Follows, TakesWhatIsPolled,
        PollsAfter, Over, QueuesAre, Sound, EndsOnTime;
      if finished {
        TranscriptsAgree(begun, turns);
        ghost var none: seq<Injected> := [];
        assert none + none == none;
        NoTurns([], Steered);
        NoTurns([], FollowedUp);
      } else {
        CutTranscriptsAgree(begun, turns, Head(turns, opening));
      }
    }

    method RunPromptMessages(ghost entry: RunEntry, ghost origin: Source, messages: seq<Message>, skipInitialSteeringPoll: bool,
                             oracle: RunOracle, maxTurns: nat)
        returns (finished: bool, returned: seq<Message>, ghost contextMessages: seq<Message>, ghost turns: seq<Turn>,
                 ghost pending: seq<Injected>, ghost trace: seq<AgentEvent>)
      requires Valid() && activeRun.None?
      requires entry == RunEntry(state.messages, entry.steered, entry.followedUp, steeringQueue.enqueued, followUpQueue.enqueued,
                                 QueueStart(steeringQueue.messages, followUpQueue.messages, skipInitialSteeringPoll), runsStarted)
      requires steeringQueue.drained == entry.steered + From(Tag(origin, messages), Steered)
      requires followUpQueue.drained == entry.followedUp + From(Tag(origin, messages), FollowedUp)
      modifies this, state, steeringQueue, followUpQueue
      ensures Valid()
      ensures RanFrom(entry, Tag(origin, messages), oracle, maxTurns, finished, returned, contextMessages, turns, pending, trace)
    {
      hide ReduceAll, RenderedAll, RunMessages, ContextAfter, Entered, From, Pairs, Legal, Follows, Over,
        TakesWhatIsPolled, PollsAfter, ArrivalsOf, BetweenTurns, RunEnded, EndsOnTime;
      var accepted := BeginRun();
      ghost var begun := state.Value();
      var config := new LoopConfig(steeringQueue, followUpQueue, skipInitialSteeringPoll);
      var newMessages, context;
      ghost var base;
      finished, newMessages, context, base, turns, pending :=
        RunAgentLoop(origin, entry.steered, entry.followedUp, messages, state.messages, oracle, maxTurns, config, state);
      returned, contextMessages, trace := newMessages.items, context.items, state.trace;
      LoopRan(entry, base, Tag(origin, messages), oracle, maxTurns, finished, turns, pending, newMessages, context, config, begun);
      if finished {
        FinishRun();
      }
    }

    method RunContinuation(oracle: RunOracle, maxTurns: nat)
        returns (finished: bool, returned: seq<Message>, ghost contextMessages: seq<Message>, ghost turns: seq<Turn>,
                 ghost pending: seq<Injected>, ghost trace: seq<AgentEvent>)
      requires Valid() && activeRun.None? && CannotContinue(state.messages).None?
      modifies this, state, steeringQueue, followUpQueue
      ensures Valid()
      ensures RanFrom(old(EntryOf([])), [], oracle, maxTurns, finished, returned, contextMessages, turns, pending, trace)
    {
      hide ReduceAll, RenderedAll, RunMessages, ContextAfter, Entered, From, Pairs, Legal, Follows, Over,
        TakesWhatIsPolled, PollsAfter, ArrivalsOf, BetweenTurns, RunEnded, CannotContinue, EndsOnTime;
      NoTurns([], Steered);
      NoTurns([], FollowedUp);
      ghost var entry := EntryOf([]);
      var accepted := BeginRun();
      ghost var begun := state.Value();
      var config := new LoopConfig(steeringQueue, followUpQueue, false);
      var snapshot := new MessageList(state.messages);
      var error, newMessages, context;
      ghost var base;
      error, finished, newMessages, context, base, turns, pending :=
        RunAgentLoopContinue(snapshot, oracle, maxTurns, config, state);
      returned, contextMessages, trace := newMessages.items, context.items, state.trace;
      LoopRan(entry, base, [], oracle, maxTurns, finished, turns, pending, newMessages, context, config, begun);
      if finished {
        FinishRun();
      }
    }

    /** Starts a run with messages from a caller, unless one is active. */
    method Prompt(messages: seq<Message>, oracle: RunOracle, maxTurns: nat)
        returns (error: Option<string>, finished: bool, returned: seq<Message>, ghost contextMessages: seq<Message>,
                 ghost turns: seq<Turn>,
                 ghost pending: seq<Injected>, ghost trace: seq<AgentEvent>)
      requires Valid()
      modifies this, state, steeringQueue, followUpQueue
      ensures Valid()
      ensures error == if old(activeRun).None? then None else Some(BUSY_PROMPTING)
      ensures error.Some? ==> unchanged(this) && unchanged(state) && unchanged(steeringQueue) && unchanged(followUpQueue)
      ensures error.None? ==>
        RanFrom(old(EntryOf(Tag(Prompted, messages))), Tag(Prompted, messages), oracle, maxTurns,
                finished, returned, contextMessages, turns, pending, trace)
      ensures error.None? ==>
        WithinLimits(old(EntryOf(Tag(Prompted, messages))), old(|steeringQueue.messages|), old(|followUpQueue.messages|), oracle, maxTurns,
                     finished, turns)
      ensures error.None? ==> FirstTurnOpens(turns, Tag(Prompted, messages), false, old(steeringQueue.messages), oracle)
      ensures error.None? && finished ==> (AdvanceAll(Before, trace) == Phase.Done <==> OneStarts(turns))
      ensures error.None? ==> forall source :: source != Prompted && OneAtATimePolls(oracle, source) ==> OnePerTurn(turns, source)
    {
      hide RanFrom, Entered, From, Sound, AdvanceAll, OneStarts, TakesWhatIsPolled, PollsAfter, OneAtATimePolls, OnePerTurn, WithinLimits,
        FirstTurnOpens;
      error, finished, returned, contextMessages, turns, pending, trace := None, false, [], [], [], [], [];
      if activeRun.Some? {
        error := Some(BUSY_PROMPTING);
        return;
      }
      FromTag(messages, Prompted, Steered);
      FromTag(messages, Prompted, FollowedUp);
      ghost var opening := Tag(Prompted, messages);
      ghost var entry := EntryOf(opening);
      finished, returned, contextMessages, turns, pending, trace := RunPromptMessages(entry, Prompted, messages, false, oracle, maxTurns);
      RunStaysWithinLimits(entry, |old(steeringQueue.messages)|, |old(followUpQueue.messages)|, opening, oracle, maxTurns,
                           finished, returned, contextMessages, turns, pending, trace);
    }

    /** Opens a run with what is queued: steering messages if there are any, else follow-ups. */
    method ContinueFromQueues(oracle: RunOracle, maxTurns: nat)
        returns (error: Option<string>, finished: bool, returned: seq<Message>, ghost contextMessages: seq<Message>,
                 ghost opening: seq<Injected>, ghost turns: seq<Turn>,
                 ghost pending: seq<Injected>, ghost trace: seq<AgentEvent>)
      requires Valid() && activeRun.None?
      modifies this, state, steeringQueue, followUpQueue
      ensures Valid()
      ensures error.Some? <==> old(steeringQueue.messages) == old(followUpQueue.messages) == []
      ensures error.Some? ==> error == Some("Cannot continue from message role: assistant")
      ensures error.Some? ==> View() == old(View()) && steeringQueue.messages == followUpQueue.messages == []
      ensures error.Some? ==> steeringQueue.enqueued == old(steeringQueue.enqueued) && followUpQueue.enqueued == old(followUpQueue.enqueued)
      ensures error.None? ==> opening == old(QueuedOpening())
      ensures error.None? ==>
        RanFrom(old(EntryOf(QueuedOpening())), opening, oracle, maxTurns, finished, returned, contextMessages, turns, pending, trace)
    {
      hide RanFrom, Entered, From, Sound, AdvanceAll, OneStarts, TakesWhatIsPolled, PollsAfter, DrainOf;
      error, finished, returned, contextMessages, turns, pending, trace := None, false, [], [], [], [], [];
      opening := QueuedOpening();
      ghost var entry := EntryOf(opening);
      var queuedSteering := steeringQueue.Drain();
      if |queuedSteering| > 0 {
        FromTag(queuedSteering, Steered, Steered);
        FromTag(queuedSteering, Steered, FollowedUp);
        WithoutFront(old(steeringQueue.messages), queuedSteering, steeringQueue.messages);
        finished, returned, contextMessages, turns, pending, trace := RunPromptMessages(entry, Steered, queuedSteering, true, oracle, maxTurns);
        return;
      }
      assert steeringQueue.drained == old(steeringQueue.drained);
      var queuedFollowUps := followUpQueue.Drain();
      if |queuedFollowUps| > 0 {
        FromTag(queuedFollowUps, FollowedUp, Steered);
        FromTag(queuedFollowUps, FollowedUp, FollowedUp);
        WithoutFront(old(followUpQueue.messages), queuedFollowUps, followUpQueue.messages);
        finished, returned, contextMessages, turns, pending, trace := RunPromptMessages(entry, FollowedUp, queuedFollowUps, false, oracle, maxTurns);
        return;
      }
      error := Some("Cannot continue from message role: assistant");
    }

    lemma WithoutFront(all: seq<Message>, front: seq<Message>, rest: seq<Message>)
      requires all == front + rest
      ensures Without(all, |front|) == rest
    {}

    /** The messages a run opens with when it is continued behind an assistant message. */
    ghost function QueuedOpening(): seq<Injected>
      reads steeringQueue, followUpQueue
    {
      if steeringQueue.messages != [] then Tag(Steered, DrainOf(steeringQueue.mode, steeringQueue.messages))
      else Tag(FollowedUp, DrainOf(followUpQueue.mode, followUpQueue.messages))
    }

    /** The messages a continued run opens with: none unless the transcript ends in an assistant message. */
    ghost function ContinueOpening(): seq<Injected>
      reads state, steeringQueue, followUpQueue
    {
      if CannotContinue(state.messages).None? then [] else QueuedOpening()
    }

    /** Goes on from the transcript. After an assistant message only queued messages can open a run:
        steering messages first, then follow-ups. */
    method Continue(oracle: RunOracle, maxTurns: nat)
        returns (error: Option<string>, finished: bool, returned: seq<Message>, ghost contextMessages: seq<Message>,
                 ghost opening: seq<Injected>, ghost turns: seq<Turn>,
                 ghost pending: seq<Injected>, ghost trace: seq<AgentEvent>)
      requires Valid()
      modifies this, state, steeringQueue, followUpQueue
      ensures Valid()
      ensures error.Some? <==>
        || old(activeRun).Some?
        || old(state.messages) == []
        || (old(CannotContinue(state.messages)).Some? && old(steeringQueue.messages) == old(followUpQueue.messages) == [])
      ensures ContinuesAs(old(activeRun).Some?, old(state.messages), old(steeringQueue.mode), old(steeringQueue.messages),
                          old(followUpQueue.mode), old(followUpQueue.messages), error, opening)
      // Only a run that opens with steering messages skips its first steering poll.
      ensures error.None? ==>
        FirstTurnOpens(turns, opening, opening != [] && old(steeringQueue.messages) != [], old(steeringQueue.messages), oracle)
      ensures error.None? ==> FirstCallHasInput(old(state.messages), turns)
      ensures error.Some? ==>
        && View() == old(View())
        && steeringQueue.messages == old(steeringQueue.messages) && steeringQueue.enqueued == old(steeringQueue.enqueued)
        && followUpQueue.messages == old(followUpQueue.messages) && followUpQueue.enqueued == old(followUpQueue.enqueued)
      ensures error.None? ==> opening == old(ContinueOpening())
      ensures error.None? ==>
        RanFrom(old(EntryOf(ContinueOpening())), opening, oracle, maxTurns, finished, returned, contextMessages, turns, pending, trace)
      ensures error.None? ==>
        WithinLimits(old(EntryOf(ContinueOpening())), old(|steeringQueue.messages|), old(|followUpQueue.messages|), oracle, maxTurns,
                     finished, turns)
      ensures error.None? && finished ==> (AdvanceAll(Before, trace) == Phase.Done <==> OneStarts(turns))
      ensures error.None? && OneAtATimePolls(oracle, Steered) && old(steeringQueue.mode) == OneAtATime ==> OnePerTurn(turns, Steered)
      ensures error.None? && OneAtATimePolls(oracle, FollowedUp) && old(followUpQueue.mode) == OneAtATime ==> OnePerTurn(turns, FollowedUp)
    {
      hide RanFrom, Entered, From, Sound, AdvanceAll, OneStarts, TakesWhatIsPolled, PollsAfter, OneAtATimePolls, OnePerTurn, WithinLimits,
        FirstTurnOpens, QueuedOpening, FirstCallHasInput, Tag, Handed, DrainOf;
      error, finished, returned, contextMessages, opening, turns, pending, trace := None, false, [], [], [], [], [], [];
      if activeRun.Some? {
        error := Some(BUSY_CONTINUING);
        return;
      }
      if state.messages == [] {
        error := Some("No messages to continue from");
        return;
      }
      ghost var entry := EntryOf(ContinueOpening());
      OpeningIsSmall();
      OpeningIsHanded();
      SkipsExactly();
      if state.messages[|state.messages| - 1].Assistant? {
        error, finished, returned, contextMessages, opening, turns, pending, trace := ContinueFromQueues(oracle, maxTurns);
      } else {
        finished, returned, contextMessages, turns, pending, trace := RunContinuation(oracle, maxTurns);
      }
      if error.None? {
        RunStaysWithinLimits(entry, |old(steeringQueue.messages)|, |old(followUpQueue.messages)|, opening, oracle, maxTurns,
                             finished, returned, contextMessages, turns, pending, trace);
        SkippedPoll(turns, opening, entry.start.steering, old(steeringQueue.messages), oracle);
        FirstCall(entry, opening, oracle, maxTurns, finished, returned, contextMessages, turns, pending, trace);
      }
    }

    lemma OpeningIsHanded()
      ensures QueuedOpening() ==
        if steeringQueue.messages != [] then Tag(Steered, Handed(steeringQueue.mode, steeringQueue.messages))
        else Tag(FollowedUp, Handed(followUpQueue.mode, followUpQueue.messages))
      ensures steeringQueue.messages != [] || followUpQueue.messages != [] ==> QueuedOpening() != []
      ensures CannotContinue(state.messages).None? <==>
        state.messages != [] && !state.messages[|state.messages| - 1].Assistant?
    {
      HandedIsDrained(steeringQueue.mode, steeringQueue.messages);
      HandedIsDrained(followUpQueue.mode, followUpQueue.messages);
    }

    lemma FirstCall(entry: RunEntry, opening: seq<Injected>, oracle: RunOracle, maxTurns: nat, finished: bool,
                    returned: seq<Message>, contextMessages: seq<Message>, turns: seq<Turn>, pending: seq<Injected>, trace: seq<AgentEvent>)
      requires RanFrom(entry, opening, oracle, maxTurns, finished, returned, contextMessages, turns, pending, trace)
      requires entry.messages != [] && (opening == [] ==> !entry.messages[|entry.messages| - 1].Assistant?)
      ensures FirstCallHasInput(entry.messages, turns)
    {
      hide Legal, Follows, TakesWhatIsPolled, Entered, From, ArrivalsOf, PollsAfter, Over, RunMessages, RenderedAll, OneStarts,
        EndsOnTime, CallContext;
      if turns != [] {
        FirstTurnTakes(entry.start, opening, turns, oracle);
        FirstCallSees(entry.messages, turns);
      }
    }

    lemma SkipsExactly()
      ensures var opening, start := ContinueOpening(), EntryOf(ContinueOpening()).start;
        && (start.skip <==> opening != [] && steeringQueue.messages != [])
        && (!start.skip ==> start.steering == steeringQueue.messages)
    {
      hide From, CannotContinue, DrainOf;
      NoTurns([], Steered);
      var steered, followed := DrainOf(steeringQueue.mode, steeringQueue.messages), DrainOf(followUpQueue.mode, followUpQueue.messages);
      FromTag(steered, Steered, Steered);
      FromTag(followed, FollowedUp, Steered);
    }

    lemma SkippedPoll(turns: seq<Turn>, opening: seq<Injected>, a: seq<Message>, b: seq<Message>, oracle: RunOracle)
      ensures FirstTurnOpens(turns, opening, true, a, oracle) <==> FirstTurnOpens(turns, opening, true, b, oracle)
    {}

    lemma OpeningIsSmall()
      ensures steeringQueue.mode == OneAtATime ==> |From(ContinueOpening(), Steered)| <= 1
      ensures followUpQueue.mode == OneAtATime ==> |From(ContinueOpening(), FollowedUp)| <= 1
    {
      hide From, CannotContinue, DrainOf;
      NoTurns([], Steered);
      NoTurns([], FollowedUp);
      var steered, followed := DrainOf(steeringQueue.mode, steeringQueue.messages), DrainOf(followUpQueue.mode, followUpQueue.messages);
      FromTag(steered, Steered, Steered);
      FromTag(steered, Steered, FollowedUp);
      FromTag(followed, FollowedUp, Steered);
      FromTag(followed, FollowedUp, FollowedUp);
    }

    /** Delivers events until one is thrown over; `from` is the number of the first. */
    method DeliverAll(events: seq<AgentEvent>, throws: nat -> bool, from: nat) returns (delivered: nat, threw: bool)
      requires Valid() && activeRun.Some?
      modifies state
      ensures Valid() && state.origin == old(state.origin)
      ensures state.trace == old(state.trace) + Delivered(events, throws, from)
      ensures delivered == |Delivered(events, throws, from)| && threw == ThrowsIn(events, throws, from)
    {
      hide ReduceAll, Sound, Delivered, ThrowsIn;
      delivered, threw := 0, false;
      ghost var out: seq<AgentEvent> := [];
      DeliverOne(events, throws, from);
      assert events[0..] == events;
      while delivered < |events| && !threw
        invariant delivered == |out| <= |events| && Valid() && activeRun == old(activeRun) && state.origin == old(state.origin)
        invariant state.trace == old(state.trace) + out
        invariant threw ==> out == Delivered(events, throws, from) && ThrowsIn(events, throws, from)
        invariant !threw ==> Delivered(events, throws, from) == out + Delivered(events[delivered..], throws, from + delivered)
        invariant !threw ==> (ThrowsIn(events, throws, from) <==> ThrowsIn(events[delivered..], throws, from + delivered))
        decreases |events| - delivered
      {
        DeliverNext(events, throws, from, delivered);
        AppendAssoc(old(state.trace), out, [events[delivered]]);
        AppendAssoc(out, [events[delivered]], Delivered(events[delivered + 1..], throws, from + delivered + 1));
        assert [events[delivered]] + [] == [events[delivered]];
        threw := ProcessEvents(events[delivered], throws(from + delivered));
        out := out + [events[delivered]];
        delivered := delivered + 1;
      }
      DeliverOne([], throws, from + delivered);
    }

    /** Events of tools that are still running; a throwing listener makes only their own promises reject. */
    method DeliverLate(events: seq<AgentEvent>)
      requires Valid() && activeRun.Some?
      modifies state
      ensures Valid() && state.origin == old(state.origin) && state.trace == old(state.trace) + events
    {
      hide ReduceAll, Sound;
      for k := 0 to |events|
        invariant Valid() && activeRun == old(activeRun) && state.origin == old(state.origin)
        invariant state.trace == old(state.trace) + events[..k]
      {
        AppendAssoc(old(state.trace), events[..k], [events[k]]);
        assert events[..k + 1] == events[..k] + [events[k]];
        var threw := ProcessEvents(events[k], false);
      }
      assert events[..|events|] == events;
    }

    /** The failure handler, which stops at the first event a listener throws over. */
    method HandleRunFailure(error: string, h: Handling) returns (threw: bool)
      requires Valid() && activeRun.Some?
      modifies state
      ensures Valid() && state.origin == old(state.origin)
      ensures state.trace == old(state.trace) + HandlerTrace(FailureTrace(error, aborted), h, 0)
      ensures var m := Assistant([Text("", None)], if aborted then AbortedStop else ErrorStop, Some(error));
        state.trace == old(state.trace) + HandlerTrace([MessageStart(m), MessageEnd(m), TurnEnd(m, []), AgentEnd([m])], h, 0)
      ensures threw <==> exists k: nat :: k < 4 && h.throws(k)
    {
      FailureIsReported(error, aborted);
      FourEvents(error, aborted, h.throws);
      hide ReduceAll, Sound, HandlerTrace, FailureTrace;
      var events := FailureTrace(error, aborted);
      var k := 0;
      threw := false;
      ghost var out: seq<AgentEvent> := [];
      assert events[0..] == events;
      while k < |events| && !threw
        invariant 0 <= k <= |events| && Valid() && activeRun == old(activeRun) && aborted == old(aborted)
        invariant state.origin == old(state.origin) && state.trace == old(state.trace) + out
        invariant HandlerTrace(events, h, 0) == out + if threw then h.late(k) else HandlerTrace(events[k..], h, k)
        invariant threw <==> exists j: nat :: j < k && h.throws(j)
        decreases |events| - k
      {
        ghost var late, rest := h.late(k), if h.throws(k) then h.late(k + 1) else HandlerTrace(events[k + 1..], h, k + 1);
        HandlerStep(events, h, k);
        DeliverLate(h.late(k));
        threw := ProcessEvents(events[k], h.throws(k));
        AppendAssoc(old(state.trace), out, late);
        AppendAssoc(old(state.trace), out + late, [events[k]]);
        AppendAssoc(out, late + [events[k]], rest);
        AppendAssoc(out, late, [events[k]]);
        out := out + late + [events[k]];
        k := k + 1;
      }
      HandlerStep(events, h, k);
      DeliverLate(h.late(k));
      AppendAssoc(old(state.trace), out, h.late(k));
    }

    /** A run through `runWithLifecycle` seen from outside the loop: the loop emits `events` and returns
        or throws, somebody may abort meanwhile, any listener may throw, tools may still be running while
        a failure is handled, and the run is over and settled whichever way it went. */
    method RunWithLifecycle(events: seq<AgentEvent>, exit: Attempt<()>, aborts: bool, throws: nat -> bool,
                            listenerError: string, h: Handling)
        returns (accepted: bool, rejected: bool, ghost trace: seq<AgentEvent>)
      requires Valid()
      modifies this, state
      ensures Valid()
      ensures accepted <==> old(activeRun).None?
      ensures !accepted ==> View() == old(View()) && rejected
      ensures accepted ==> activeRun.None? && old(runsStarted) in settled && Lifecycles.Idle(state.Value())
      ensures accepted ==> trace == LifecycleTrace(events, exit, aborts, throws, listenerError, h)
      ensures accepted ==> aborted == aborts
      ensures accepted ==> state.messages == old(state.messages) + MessageEnds(trace)
      ensures accepted ==> FailureIsVisible(state.messages, trace, events, exit, aborts, throws, listenerError, h)
      ensures accepted ==>
        (rejected <==> Fails(events, exit, throws) && exists k: nat :: k < 4 && h.throws(k))
    {
      hide ReduceAll, MessageEnds, Delivered, ThrowsIn, HandlerTrace, FailureIsVisible, Lifecycles.Step, FailureTrace;
      trace, rejected := [], true;
      accepted := BeginRun();
      if !accepted {
        return;
      }
      rejected := false;
      ghost var begun := state.Value();
      var delivered, threw := DeliverAll(events, throws, 0);
      if aborts {
        Abort();
      }
      if threw || exit.Threw? {
        var error := if threw then listenerError else exit.error;
        rejected := HandleRunFailure(error, h);
      }
      trace := state.trace;
      TranscriptIsMessageEnds(begun, trace);
      FailureShows(begun.messages, events, exit, aborts, throws, listenerError, h);
      FinishRun();
    }
  }
}
