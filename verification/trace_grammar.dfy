/** The grammar of a run's events, as a recogniser that reads them one at a time and knows nothing of
    turns, oracles or the loop. */
module TraceGrammar {
  import opened AgentTypes
  import opened AgentStates
  import opened Streaming
  import opened ToolBatches
  import opened ToolBatchLaws
  import opened Runs
  import opened RunLaws

  /** `ended` are the messages finished so far. In `Replying` a turn has run no tool yet: messages come
      one after the other, `last` is the latest of them, and `final` says that it was streamed, so that no
      more may follow. `Working` is the tool part of a turn, `Reporting` a result message inside it. */
  datatype Phase =
    | Before
    | Between(ended: seq<Message>)
    | Replying(ended: seq<Message>, last: Option<Message>, final: bool)
    | Speaking(ended: seq<Message>, begun: Message, changed: bool)
    | Working(ended: seq<Message>, reply: Message, results: seq<Message>)
    | Reporting(ended: seq<Message>, reply: Message, results: seq<Message>, begun: Message)
    | Done
    | Broken

  function Advance(p: Phase, e: AgentEvent): Phase {
    match (p, e)
    case (Before, AgentStart) => Between([])
    case (Between(ended), TurnStart) => Replying(ended, None, false)
    case (Between(ended), AgentEnd(messages)) => if ended != [] && messages == ended then Done else Broken
    case (Replying(ended, _, final), MessageStart(m)) => if final then Broken else Speaking(ended, m, false)
    case (Speaking(ended, begun, _), MessageUpdate(_)) => Speaking(ended, begun, true)
    case (Speaking(ended, begun, changed), MessageEnd(m)) => Replying(ended + [m], Some(m), changed || m != begun)
    case (Replying(ended, last, _), ToolExecutionStart(_, _, _)) =>
      if last.Some? && last.value.Assistant? then Working(ended, last.value, []) else Broken
    case (Replying(ended, last, _), TurnEnd(reply, results)) =>
      if last == Some(reply) && reply.Assistant? && results == [] then Between(ended) else Broken
    case (Working(_, _, _), ToolExecutionStart(_, _, _)) => p
    case (Working(_, _, _), ToolExecutionUpdate(_, _, _, _)) => p
    case (Working(_, _, _), ToolExecutionEnd(_, _, _, _)) => p
    case (Working(ended, reply, results), MessageStart(m)) => Reporting(ended, reply, results, m)
    case (Reporting(ended, reply, results, begun), MessageEnd(m)) =>
      if m == begun && m.ToolResult? then Working(ended + [m], reply, results + [m]) else Broken
    case (Working(ended, reply, results), TurnEnd(message, toolResults)) =>
      if message == reply && toolResults == results then Between(ended) else Broken
    case _ => Broken
  }

  function AdvanceAll(p: Phase, trace: seq<AgentEvent>): Phase {
    if trace == [] then p else Advance(AdvanceAll(p, trace[..|trace| - 1]), trace[|trace| - 1])
  }

  lemma {:induction false} AdvanceAllAppend(p: Phase, a: seq<AgentEvent>, b: seq<AgentEvent>)
    ensures AdvanceAll(p, a + b) == AdvanceAll(AdvanceAll(p, a), b)
  {
    hide Advance;
    if b == [] {
      assert a + b == a;
    } else {
      AdvanceAllAppend(p, a, b[..|b| - 1]);
      assert (a + b)[..|a + b| - 1] == a + b[..|b| - 1];
    }
  }

  lemma AdvanceOne(p: Phase, e: AgentEvent)
    ensures AdvanceAll(p, [e]) == Advance(p, e) && AdvanceAll(p, []) == p
  {
    hide Advance;
    assert [e][..0] == [];
  }

  // ---- The parts of a turn ----

  /** Injected messages: each ends as it began, and none of them is taken for a streamed one. */
  lemma {:induction false} PairsAreInjected(ended: seq<Message>, last: Option<Message>, messages: seq<Message>)
    ensures var after := AdvanceAll(Replying(ended, last, false), Pairs(messages));
      after.Replying? && after.ended == ended + messages && !after.final
  {
    hide AdvanceAll, Advance;
    var p := Replying(ended, last, false);
    if messages == [] {
      AdvanceOne(p, TurnStart);
      assert ended + messages == ended;
    } else {
      var front, m := messages[..|messages| - 1], messages[|messages| - 1];
      PairsAreInjected(ended, last, front);
      AdvanceAllAppend(p, Pairs(front), Pair(m));
      PairIsInjected(AdvanceAll(p, Pairs(front)), m);
      AppendAssoc(ended, front, [m]);
      assert messages == front + [m];
    }
  }

  lemma PairIsInjected(p: Phase, m: Message)
    requires p.Replying? && !p.final
    ensures AdvanceAll(p, Pair(m)) == Replying(p.ended + [m], Some(m), false)
  {
    AdvanceOne(p, MessageStart(m));
    AdvanceOne(Advance(p, MessageStart(m)), MessageEnd(m));
    AdvanceAllAppend(p, [MessageStart(m)], [MessageEnd(m)]);
    assert Pair(m) == [MessageStart(m)] + [MessageEnd(m)];
  }

  lemma {:induction false} UpdatesAreSpoken(p: Phase, updates: seq<AgentEvent>)
    requires p.Speaking? && AllUpdates(updates)
    ensures var after := AdvanceAll(p, updates); after.Speaking? && after.ended == p.ended && after.begun == p.begun
  {
    if updates != [] {
      assert updates[|updates| - 1] in updates;
      UpdatesAreSpoken(p, updates[..|updates| - 1]);
    }
  }

  /** The streamed reply. */
  lemma ReplyIsSpoken(p: Phase, script: StreamScript)
    requires p.Replying? && !p.final && OneStart(script)
    ensures var after := AdvanceAll(p, StreamTrace(script));
      after.Replying? && after.ended == p.ended + [script.outcome] && after.last == Some(script.outcome)
  {
    hide StreamTrace, AdvanceAll, OneStart, MessageStartCount;
    var trace := StreamTrace(script);
    StreamTraceShape(script);
    var first, updates, last := trace[0], trace[1..|trace| - 1], trace[|trace| - 1];
    assert trace == [first] + updates + [last];
    AdvanceAllAppend(p, [first] + updates, [last]);
    AdvanceAllAppend(p, [first], updates);
    AdvanceOne(p, first);
    var speaking := Advance(p, first);
    UpdatesAreSpoken(speaking, updates);
    AdvanceOne(AdvanceAll(speaking, updates), last);
  }

  lemma {:induction false} BrokenStays(trace: seq<AgentEvent>)
    ensures AdvanceAll(Broken, trace) == Broken
  {
    if trace != [] {
      BrokenStays(trace[..|trace| - 1]);
    }
  }

  /** A second start while a message is being spoken breaks the grammar. */
  lemma {:induction false} SecondStartBreaks(p: Phase, events: seq<AgentEvent>)
    requires p.Speaking? && forall e <- events :: e.MessageStart? || e.MessageUpdate?
    ensures AdvanceAll(p, events) == Broken || (AllUpdates(events) && AdvanceAll(p, events).Speaking?)
  {
    if events != [] {
      assert events[|events| - 1] in events;
      SecondStartBreaks(p, events[..|events| - 1]);
      assert events == events[..|events| - 1] + [events[|events| - 1]];
    }
  }

  /** A stream that starts more than once is not accepted. */
  lemma RepeatedStartBreaks(p: Phase, script: StreamScript)
    requires p.Replying? && !OneStart(script)
    ensures AdvanceAll(p, StreamTrace(script)) == Broken
  {
    hide StreamTrace, AdvanceAll, OneStart, MessageStartCount;
    var trace := StreamTrace(script);
    StreamTraceShape(script);
    var first, middle, last := trace[0], trace[1..|trace| - 1], trace[|trace| - 1];
    assert trace == [first] + middle + [last];
    AdvanceAllAppend(p, [first] + middle, [last]);
    AdvanceAllAppend(p, [first], middle);
    AdvanceOne(p, first);
    BrokenStays(middle);
    BrokenStays([last]);
    StartsAndUpdates(script);
    if !p.final {
      SecondStartBreaks(Advance(p, first), middle);
    }
  }

  lemma StartsAndUpdates(script: StreamScript)
    ensures var trace := StreamTrace(script);
      forall k :: 0 <= k < |trace| - 1 ==> trace[k].MessageStart? || trace[k].MessageUpdate?
  {
    var partials := PartialEvents(Consumed(script.events));
    PartialEventShape(Consumed(script.events));
    assert forall k :: 0 <= k < |partials| ==> partials[k] in partials;
  }

  predicate OnlyToolEvents(trace: seq<AgentEvent>) {
    forall e <- trace :: e.ToolExecutionStart? || e.ToolExecutionUpdate? || e.ToolExecutionEnd?
  }

  lemma {:induction false} ToolsAreWork(p: Phase, trace: seq<AgentEvent>)
    requires p.Working? && OnlyToolEvents(trace)
    ensures AdvanceAll(p, trace) == p
  {
    if trace != [] {
      assert trace[|trace| - 1] in trace;
      ToolsAreWork(p, trace[..|trace| - 1]);
    }
  }

  /** A turn whose tools may begin or go on: its latest message is the reply, and these are its results. */
  ghost predicate Ready(p: Phase, ended: seq<Message>, reply: Message, results: seq<Message>) {
    reply.Assistant? &&
    (p == Working(ended, reply, results) || (p.Replying? && p.ended == ended && p.last == Some(reply) && results == []))
  }

  lemma WorkBegins(p: Phase, ended: seq<Message>, reply: Message, results: seq<Message>, trace: seq<AgentEvent>)
    requires Ready(p, ended, reply, results) && OnlyToolEvents(trace) && trace != [] && trace[0].ToolExecutionStart?
    ensures AdvanceAll(p, trace) == Working(ended, reply, results)
  {
    hide AdvanceAll;
    var rest := trace[1..];
    assert trace == [trace[0]] + rest;
    AdvanceAllAppend(p, [trace[0]], rest);
    AdvanceOne(p, trace[0]);
    ToolsAreWork(Working(ended, reply, results), rest);
  }

  lemma ResultIsReported(ended: seq<Message>, reply: Message, results: seq<Message>, m: Message)
    requires m.ToolResult?
    ensures AdvanceAll(Working(ended, reply, results), Pair(m)) == Working(ended + [m], reply, results + [m])
  {
    var p := Working(ended, reply, results);
    AdvanceOne(p, MessageStart(m));
    AdvanceOne(Reporting(ended, reply, results, m), MessageEnd(m));
    AdvanceAllAppend(p, [MessageStart(m)], [MessageEnd(m)]);
    assert Pair(m) == [MessageStart(m)] + [MessageEnd(m)];
  }

  lemma {:induction false} ResultsAreReported(ended: seq<Message>, reply: Message, messages: seq<Message>)
    requires forall m <- messages :: m.ToolResult?
    ensures AdvanceAll(Working(ended, reply, []), Pairs(messages)) == Working(ended + messages, reply, messages)
  {
    hide AdvanceAll, Advance;
    var p := Working(ended, reply, []);
    if messages == [] {
      AdvanceOne(p, TurnStart);
      assert ended + messages == ended;
    } else {
      var front, m := messages[..|messages| - 1], messages[|messages| - 1];
      ResultsAreReported(ended, reply, front);
      AdvanceAllAppend(p, Pairs(front), Pair(m));
      ResultIsReported(ended + front, reply, front, m);
      AppendAssoc(ended, front, [m]);
      assert messages == front + [m];
    }
  }

  lemma {:induction false} SequentialIsWork(p: Phase, ended: seq<Message>, reply: Message, calls: seq<ToolCall>, w: BatchWorld, n: nat)
    requires n <= |calls| && Ready(p, ended, reply, [])
    ensures var results := ResultMessages(Outcomes(calls, w, n));
      Ready(AdvanceAll(p, SequentialTrace(calls, w, n)), ended + results, reply, results)
    ensures n > 0 ==> AdvanceAll(p, SequentialTrace(calls, w, n)).Working?
  {
    hide Tail, Outcome, PreparationOf, SequentialTrace, Outcomes, ResultMessages, AdvanceAll, Advance;
    if n == 0 {
      EmptyBatch(calls, w);
      AdvanceOne(p, TurnStart);
      assert ended + [] == ended;
    } else {
      SequentialIsWork(p, ended, reply, calls, w, n - 1);
      OneMoreCall(calls, w, n - 1);
      TailIsToolEvents(calls, w, n - 1);
      var before, own := SequentialTrace(calls, w, n - 1), [StartEvent(calls[n - 1])] + Tail(calls, w, n - 1);
      var earlier, result := ResultMessages(Outcomes(calls, w, n - 1)), ResultMessage(Outcome(calls, w, n - 1));
      WorkBegins(AdvanceAll(p, before), ended + earlier, reply, earlier, own);
      ResultIsReported(ended + earlier, reply, earlier, result);
      AdvanceAllAppend(p, before, own);
      AdvanceAllAppend(p, before + own, Pair(result));
      AppendAssoc(ended, earlier, [result]);
    }
  }

  lemma BatchIsWork(p: Phase, ended: seq<Message>, reply: Message, calls: seq<ToolCall>, w: BatchWorld, schedule: seq<nat>)
    requires Ready(p, ended, reply, []) && calls != []
    ensures var results := BatchMessages(calls, w);
      AdvanceAll(p, BatchTrace(calls, w, schedule)) == Working(ended + results, reply, results)
  {
    hide SequentialTrace, Preflight, Played, Pairs, AdvanceAll, Advance, RunsSequentially, Reached, ResultMessages, Outcomes;
    var n, results := Reached(calls, w, 0), BatchMessages(calls, w);
    ReachedStopsAtAbort(calls, w, 0);
    SequentialIsWork(p, ended, reply, calls, w, n);
    ResultsPairWithCalls(calls, w);
    var first, second, third := Preflight(calls, w, n), Played(calls, w, schedule), Pairs(results);
    PreflightOnlyTools(calls, w, n);
    PreflightStarts(calls, w, n);
    PlayedOnlyTools(calls, w, schedule);
    WorkBegins(p, ended, reply, [], first);
    ToolsAreWork(Working(ended, reply, []), second);
    ResultsAreReported(ended, reply, results);
    AdvanceAllAppend(p, first, second);
    AdvanceAllAppend(p, first + second, third);
  }

  lemma {:induction false} PreflightStarts(calls: seq<ToolCall>, w: BatchWorld, n: nat)
    requires 0 < n <= |calls|
    ensures Preflight(calls, w, n) != [] && Preflight(calls, w, n)[0].ToolExecutionStart?
  {
    PreflightStep(calls, w, n - 1);
    if n == 1 {
      EmptyBatch(calls, w);
    } else {
      PreflightStarts(calls, w, n - 1);
    }
  }

  lemma {:induction false} PreflightOnlyTools(calls: seq<ToolCall>, w: BatchWorld, n: nat)
    requires n <= |calls|
    ensures OnlyToolEvents(Preflight(calls, w, n))
  {
    if n > 0 {
      PreflightOnlyTools(calls, w, n - 1);
    }
  }

  lemma {:induction false} PlayedOnlyTools(calls: seq<ToolCall>, w: BatchWorld, schedule: seq<nat>)
    ensures OnlyToolEvents(Played(calls, w, schedule))
  {
    if schedule != [] {
      var i := schedule[|schedule| - 1];
      PlayedOnlyTools(calls, w, schedule[..|schedule| - 1]);
      if i < |calls| {
        TailIsToolEvents(calls, w, i);
      }
    }
  }

  // ---- Turns and runs ----

  /** What a turn's events do to the recogniser. */
  ghost function AfterTurn(ended: seq<Message>, t: Turn): Phase {
    if OneStart(t.script) then Between(ended + TurnMessages(t)) else Broken
  }

  lemma TurnIsAccepted(ended: seq<Message>, t: Turn)
    requires WellFormed(t)
    ensures AdvanceAll(Between(ended), Rendered(t)) == AfterTurn(ended, t)
  {
    hide AdvanceAll, StreamTrace, BatchTrace, BatchMessages, Pairs, CallsIn, BatchTerminates, LegalSchedule, OneStart;
    var injected, stream, tools, last := Untag(t.injected), StreamTrace(t.script), ToolTrace(t), TurnEnd(Reply(t), Results(t));
    var p := Between(ended);
    AdvanceOne(p, TurnStart);
    PairsAreInjected(ended, None, injected);
    AdvanceAllAppend(p, [TurnStart], Pairs(injected));
    var begun := AdvanceAll(p, Opening(t.injected));
    AdvanceAllAppend(begun, stream, tools);
    AdvanceAllAppend(begun, stream + tools, [last]);
    AdvanceAllAppend(p, Opening(t.injected), Body(t));
    if OneStart(t.script) {
      ReplyIsSpoken(begun, t.script);
      ToolsFollow(AdvanceAll(begun, stream), ended + injected + [Reply(t)], t);
      AppendAssoc(ended, injected + [Reply(t)], Results(t));
      AppendAssoc(ended, injected, [Reply(t)]);
    } else {
      RepeatedStartBreaks(begun, t.script);
      BrokenStays(tools);
      BrokenStays([last]);
    }
  }

  lemma ToolsFollow(p: Phase, before: seq<Message>, t: Turn)
    requires p.Replying? && p.ended == before && p.last == Some(Reply(t))
    ensures AdvanceAll(AdvanceAll(p, ToolTrace(t)), [TurnEnd(Reply(t), Results(t))]) == Between(before + Results(t))
  {
    hide AdvanceAll, BatchTrace, BatchMessages, CallsIn;
    if Calls(t) == [] {
      AdvanceOne(p, TurnStart);
      assert before + [] == before;
    } else {
      BatchIsWork(p, before, Reply(t), Calls(t), t.world, t.schedule);
    }
    AdvanceOne(AdvanceAll(p, ToolTrace(t)), TurnEnd(Reply(t), Results(t)));
  }

  lemma {:induction false} TurnsAreAccepted(turns: seq<Turn>)
    requires forall t <- turns :: WellFormed(t)
    ensures AdvanceAll(Between([]), RenderedAll(turns)) == if OneStarts(turns) then Between(RunMessages(turns)) else Broken
  {
    hide Rendered, WellFormed, RenderedAll, RunMessages, TurnMessages, AdvanceAll, Advance, OneStart;
    NoTurns([], Steered);
    if turns == [] {
      AdvanceOne(Between([]), TurnStart);
    } else {
      var front, t := turns[..|turns| - 1], turns[|turns| - 1];
      assert t in turns && turns == front + [t];
      TurnsAreAccepted(front);
      OneMoreTurn(front, t, [], Steered);
      TurnIsAccepted(RunMessages(front), t);
      BrokenStays(Rendered(t));
      AdvanceAllAppend(Between([]), RenderedAll(front), Rendered(t));
    }
  }

  /** A finished run is accepted exactly when its streams start at most once each: one `agent_start`, at
      least one turn, one `agent_end` that carries exactly the finished messages. Each turn takes in messages
      that end as they began, streams one reply, then runs tools and reports their results, and closes with a
      `turn_end` that carries that reply and those results. */
  lemma RunIsAccepted(turns: seq<Turn>)
    requires Legal(turns) && turns != []
    ensures AdvanceAll(Before, RunTrace(turns)) == if OneStarts(turns) then Done else Broken
  {
    hide AdvanceAll, RenderedAll, WellFormed, MayFollow, RunMessages, OneStarts;
    var middle, last := RenderedAll(turns), AgentEnd(RunMessages(turns));
    TurnsAreAccepted(turns);
    SomeMessages(turns);
    AdvanceOne(Before, AgentStart);
    AdvanceAllAppend(Before, [AgentStart], middle);
    AdvanceOne(Between(RunMessages(turns)), last);
    BrokenStays([last]);
    AdvanceAllAppend(Before, [AgentStart] + middle, [last]);
  }

  lemma SomeMessages(turns: seq<Turn>)
    requires turns != []
    ensures RunMessages(turns) != []
  {}

  // ---- What accepted traces look like ----

  /** The recogniser remembers exactly the finished messages, and has seen no end before it is done. */
  lemma {:induction false} PhaseRemembers(trace: seq<AgentEvent>)
    requires AdvanceAll(Before, trace) !in {Done, Broken}
    ensures var p := AdvanceAll(Before, trace);
      MessageEnds(trace) == if p.Before? then [] else p.ended
    ensures forall k :: 0 <= k < |trace| ==> !trace[k].AgentEnd?
  {
    if trace != [] {
      PhaseRemembers(trace[..|trace| - 1]);
    }
  }

  /** An accepted trace ends with its only `agent_end`, which carries the finished messages; there are some. */
  lemma AcceptedIsFinal(trace: seq<AgentEvent>)
    requires AdvanceAll(Before, trace) == Done
    ensures MessageEnds(trace) != [] && trace != [] && trace[|trace| - 1] == AgentEnd(MessageEnds(trace))
    ensures forall k :: 0 <= k < |trace| - 1 ==> !trace[k].AgentEnd?
  {
    hide MessageEnds, AdvanceAll;
    LastStep(trace);
    var front, last := trace[..|trace| - 1], trace[|trace| - 1];
    assert trace == front + [last];
    PhaseRemembers(front);
    NoMessageEnds([last]);
    MessageEndsAppend(front, [last]);
  }

  lemma LastStep(trace: seq<AgentEvent>)
    requires AdvanceAll(Before, trace) == Done
    ensures trace != [] && Advance(AdvanceAll(Before, trace[..|trace| - 1]), trace[|trace| - 1]) == Done
  {}

  ghost function Balance(trace: seq<AgentEvent>): int {
    if trace == [] then 0
    else
      var e := trace[|trace| - 1];
      Balance(trace[..|trace| - 1]) + (if e.TurnStart? then 1 else if e.TurnEnd? then -1 else 0)
  }

  /** Turn starts and ends alternate: inside a turn one more has started, outside none is open. */
  lemma {:induction false} TurnsBalance(trace: seq<AgentEvent>)
    requires !AdvanceAll(Before, trace).Broken?
    ensures Balance(trace) == if AdvanceAll(Before, trace) in {Before, Done} || AdvanceAll(Before, trace).Between? then 0 else 1
  {
    if trace != [] {
      TurnsBalance(trace[..|trace| - 1]);
    }
  }
}
