/** What holds of every run the loop can make, finished or cut off between turns. */
module RunLaws {
  import opened AgentTypes
  import opened AgentStates
  import opened Streaming
  import opened ToolBatches
  import opened ToolBatchLaws
  import opened PendingQueues
  import opened Runs

  // ---- Three transcripts agree ----

  lemma TurnTranscript(t: Turn)
    ensures MessageEnds(Rendered(t)) == TurnMessages(t)
  {
    hide MessageEnds, StreamTrace, BatchTrace, BatchMessages, Pairs, CallsIn, BatchTerminates;
    var opening, stream, tools, last := Opening(t.injected), StreamTrace(t.script), ToolTrace(t), [TurnEnd(Reply(t), Results(t))];
    PairsCarryTheirMessages(Untag(t.injected), "");
    NoMessageEnds([TurnStart]);
    MessageEndsAppend([TurnStart], Pairs(Untag(t.injected)));
    StreamEndsOnce(t.script, "");
    EmptyTrace("");
    BatchFinishesItsResults(Calls(t), t.world, t.schedule);
    NoMessageEnds(last);
    MessageEndsAppend(stream, tools);
    MessageEndsAppend(stream + tools, last);
    MessageEndsAppend(opening, Body(t));
  }

  /** The messages reported finished are the messages the run returns, in order and once each. */
  lemma {:induction false} RunTranscript(turns: seq<Turn>)
    ensures MessageEnds(RenderedAll(turns)) == RunMessages(turns)
  {
    hide MessageEnds, Rendered, TurnMessages, RenderedAll, RunMessages;
    if turns == [] {
      NoTurns([], Steered);
      EmptyTrace("");
    } else {
      var front, t := turns[..|turns| - 1], turns[|turns| - 1];
      assert turns == front + [t];
      RunTranscript(front);
      TurnTranscript(t);
      OneMoreTurn(front, t, [], Steered);
      MessageEndsAppend(RenderedAll(front), Rendered(t));
    }
  }

  /** What a turn adds to the context is its messages exactly when its stream starts at most once, and is
      more otherwise. */
  lemma TurnContext(t: Turn)
    ensures OneStart(t.script) ==> ContextGain(t) == TurnMessages(t)
    ensures !OneStart(t.script) ==> |ContextGain(t)| > |TurnMessages(t)|
  {
    hide StreamContext, Results;
    StreamingIsOneAppend(t.script);
  }

  /** Unless a hook replaced it, the context is the snapshot followed by the run's messages exactly when
      every stream starts at most once; otherwise stale partial messages are left in it. */
  lemma {:induction false} ContextIsSnapshotAndRun(snapshot: seq<Message>, turns: seq<Turn>)
    requires forall t <- turns :: t.nextContext.None?
    ensures ContextAfter(snapshot, turns) == snapshot + RunMessages(turns) <==> OneStarts(turns)
    ensures |ContextAfter(snapshot, turns)| >= |snapshot| + |RunMessages(turns)|
  {
    hide ContextAfter, RunMessages, ContextGain, TurnMessages, OneStart;
    NoTurns(snapshot, Steered);
    if turns == [] {
      assert snapshot + [] == snapshot;
    } else {
      var front, t := turns[..|turns| - 1], turns[|turns| - 1];
      assert t in turns && turns == front + [t];
      ContextIsSnapshotAndRun(snapshot, front);
      OneMoreTurn(front, t, snapshot, Steered);
      TurnContext(t);
      AppendAssoc(snapshot, RunMessages(front), TurnMessages(t));
      if OneStart(t.script) {
        SameFront(ContextAfter(snapshot, front), snapshot + RunMessages(front), TurnMessages(t));
      }
    }
  }

  lemma SameFront(a: seq<Message>, b: seq<Message>, behind: seq<Message>)
    ensures a + behind == b + behind <==> a == b
  {
    if a + behind == b + behind {
      assert |a| == |b|;
      assert a == (a + behind)[..|a|] && b == (b + behind)[..|b|];
    }
  }

  /** The events of a finished run. */
  ghost function RunTrace(turns: seq<Turn>): seq<AgentEvent> {
    [AgentStart] + RenderedAll(turns) + [AgentEnd(RunMessages(turns))]
  }

  /** The three copies of the transcript a run leaves behind: the one returned, the one in the
      context and the one folded from the events. */
  lemma TranscriptsAgree(v: StateValue, turns: seq<Turn>)
    ensures ReduceAll(v, RunTrace(turns)).messages == v.messages + RunMessages(turns)
    ensures (forall t <- turns :: t.nextContext.None?) ==>
      (ContextAfter(v.messages, turns) == ReduceAll(v, RunTrace(turns)).messages <==> OneStarts(turns))
    ensures ReduceAll(v, RunTrace(turns)).streamingMessage == None
  {
    hide ReduceAll, MessageEnds, RunTrace, RunMessages, ContextAfter;
    FinishedMessages(turns);
    TranscriptIsMessageEnds(v, RunTrace(turns));
    NothingStreams(v, turns);
    if forall t <- turns :: t.nextContext.None? {
      ContextIsSnapshotAndRun(v.messages, turns);
    }
  }

  lemma FinishedMessages(turns: seq<Turn>)
    ensures MessageEnds(RunTrace(turns)) == RunMessages(turns)
  {
    hide MessageEnds, RenderedAll, RunMessages;
    var middle, last := RenderedAll(turns), [AgentEnd(RunMessages(turns))];
    NoMessageEnds([AgentStart]);
    NoMessageEnds(last);
    RunTranscript(turns);
    MessageEndsAppend([AgentStart], middle);
    MessageEndsAppend([AgentStart] + middle, last);
    assert [] + RunMessages(turns) + [] == RunMessages(turns);
  }

  lemma NothingStreams(v: StateValue, turns: seq<Turn>)
    ensures ReduceAll(v, RunTrace(turns)).streamingMessage == None
  {
    hide ReduceAll, RenderedAll, RunMessages;
    ReduceOneMore(v, [AgentStart] + RenderedAll(turns), AgentEnd(RunMessages(turns)));
  }

  /** The same of a run cut off between turns; `head` is what was emitted ahead of the first one. */
  lemma CutTranscriptsAgree(v: StateValue, turns: seq<Turn>, head: seq<Injected>)
    requires turns != [] ==> head == []
    ensures var trace := [AgentStart] + RenderedAll(turns) + (if turns == [] then Opening(head) else []);
      ReduceAll(v, trace).messages == v.messages + (RunMessages(turns) + Untag(head))
    ensures (forall t <- turns :: t.nextContext.None?) ==>
      (ContextAfter(v.messages, turns) + Untag(head) == v.messages + (RunMessages(turns) + Untag(head)) <==> OneStarts(turns))
  {
    hide ReduceAll, MessageEnds, RenderedAll, RunMessages, ContextAfter, Opening;
    var trace := [AgentStart] + RenderedAll(turns) + (if turns == [] then Opening(head) else []);
    CutMessageEnds(turns, head);
    TranscriptIsMessageEnds(v, trace);
    if forall t <- turns :: t.nextContext.None? {
      ContextWithHead(v.messages, turns, head);
    }
  }

  lemma CutMessageEnds(turns: seq<Turn>, head: seq<Injected>)
    requires turns != [] ==> head == []
    ensures MessageEnds([AgentStart] + RenderedAll(turns) + (if turns == [] then Opening(head) else []))
      == RunMessages(turns) + Untag(head)
  {
    hide MessageEnds, RenderedAll, RunMessages, Opening;
    var middle, last := RenderedAll(turns), if turns == [] then Opening(head) else [];
    NoMessageEnds([AgentStart]);
    EmptyTrace("");
    RunTranscript(turns);
    OpeningTranscript(head);
    MessageEndsAppend([AgentStart], middle);
    MessageEndsAppend([AgentStart] + middle, last);
    assert [] + RunMessages(turns) == RunMessages(turns);
    if turns != [] {
      assert Untag(head) == [];
    }
  }

  lemma OpeningTranscript(injected: seq<Injected>)
    ensures MessageEnds(Opening(injected)) == Untag(injected)
  {
    hide MessageEnds, Pairs;
    NoMessageEnds([TurnStart]);
    PairsCarryTheirMessages(Untag(injected), "");
    MessageEndsAppend([TurnStart], Pairs(Untag(injected)));
    assert [] + Untag(injected) == Untag(injected);
  }

  lemma ContextWithHead(snapshot: seq<Message>, turns: seq<Turn>, head: seq<Injected>)
    requires forall t <- turns :: t.nextContext.None?
    ensures ContextAfter(snapshot, turns) + Untag(head) == snapshot + (RunMessages(turns) + Untag(head)) <==> OneStarts(turns)
  {
    hide RunMessages, ContextAfter, OneStarts;
    ContextIsSnapshotAndRun(snapshot, turns);
    AppendAssoc(snapshot, RunMessages(turns), Untag(head));
    SameFront(ContextAfter(snapshot, turns), snapshot + RunMessages(turns), Untag(head));
  }

  // ---- Nothing is pending between turns ----

  lemma TurnLeavesNothingPending(v: StateValue, t: Turn)
    requires WellFormed(t) && DistinctIds(Calls(t)) && v.pendingToolCalls == {}
    ensures ReduceAll(v, Rendered(t)).pendingToolCalls == {}
  {
    forall id ensures id !in ReduceAll(v, Rendered(t)).pendingToolCalls {
      CallIsClosedByTurn(v, t, id);
    }
  }

  lemma CallIsClosedByTurn(v: StateValue, t: Turn, id: string)
    requires WellFormed(t) && DistinctIds(Calls(t)) && v.pendingToolCalls == {}
    ensures id !in ReduceAll(v, Rendered(t)).pendingToolCalls
  {
    hide ReduceAll, ToolEvents, StreamTrace, BatchTrace, BatchMessages, Pairs, CallsIn, LegalSchedule, BatchTerminates,
      Reached, Started, Ended, OpenAfter;
    var opening, stream, tools, last := Opening(t.injected), StreamTrace(t.script), ToolTrace(t), [TurnEnd(Reply(t), Results(t))];
    PairsCarryTheirMessages(Untag(t.injected), id);
    NoToolEvents([TurnStart], id);
    ToolEventsAppend([TurnStart], Pairs(Untag(t.injected)), id);
    StreamEndsOnce(t.script, id);
    NoToolEvents(last, id);
    ToolEventsAppend(stream, tools, id);
    ToolEventsAppend(stream + tools, last, id);
    ToolEventsAppend(opening, Body(t), id);
    assert ToolEvents(Rendered(t), id) == ToolEvents(tools, id);
    PendingIsOpenCalls(v, Rendered(t), id);
    PendingIsOpenCalls(v, tools, id);
    if Calls(t) == [] {
      LastEvent(v, tools, id);
    } else {
      PendingSetIsExact(Calls(t), t.world, t.schedule, v, |tools|);
      assert tools[..|tools|] == tools;
    }
  }

  lemma {:induction false} NoToolEvents(trace: seq<AgentEvent>, id: string)
    requires forall e <- trace :: !AboutCall(e, id)
    ensures ToolEvents(trace, id) == []
  {
    if trace != [] {
      assert trace[|trace| - 1] in trace;
      NoToolEvents(trace[..|trace| - 1], id);
    }
  }

  /** After every turn of a run whose messages carry distinct call ids, no call is pending. */
  lemma {:induction false} NothingPendingBetweenTurns(v: StateValue, turns: seq<Turn>)
    requires v.pendingToolCalls == {}
    requires forall t <- turns :: WellFormed(t) && DistinctIds(Calls(t))
    ensures ReduceAll(v, RenderedAll(turns)).pendingToolCalls == {}
  {
    hide ReduceAll, Rendered, WellFormed, Calls, RenderedAll;
    if turns == [] {
      NoTurns([], Steered);
      LastEvent(v, [], "");
    } else {
      var front, t := turns[..|turns| - 1], turns[|turns| - 1];
      assert turns == front + [t] && t in turns;
      NothingPendingBetweenTurns(v, front);
      OneMoreTurn(front, t, [], Steered);
      ReduceAllAppend(v, RenderedAll(front), Rendered(t));
      TurnLeavesNothingPending(ReduceAll(v, RenderedAll(front)), t);
    }
  }

  // ---- Every call is answered before the next provider call ----

  /** A turn's results answer a prefix of its calls in source order; in a turn where no abort is seen
      every call is answered exactly once, and a failed reply is answered not at all. */
  lemma TurnAnswersItsCalls(t: Turn)
    ensures |Results(t)| <= |Calls(t)| && (Calls(t) != [] ==> Results(t) != [])
    ensures forall i :: 0 <= i < |Results(t)| ==> Results(t)[i].ToolResult? && Results(t)[i].toolCallId == Calls(t)[i].id
    ensures |Results(t)| == |Calls(t)| <==> !AbortSeen(Calls(t), t.world)
    ensures Failed(Reply(t)) ==> Results(t) == []
  {
    hide BatchMessages, CallsIn, BatchTrace;
    ResultsPairWithCalls(Calls(t), t.world);
  }

  /** The results of a turn, field by field, in terms of what its tools meet. */
  lemma TurnIsAnswered(t: Turn)
    ensures !Failed(Reply(t)) ==> Answers(CallsIn(Reply(t).content), t.world, Results(t))
  {
    hide BatchMessages, CallsIn;
    var calls := CallsIn(Reply(t).content);
    BatchIsAnswered(calls, t.world);
    ReachedStopsAtAbort(calls, t.world, 0);
  }

  // ---- The provider is never called twice without new input ----

  /** What the provider sees in turn `n`: the context once the turn's messages are injected. */
  ghost function CallContext(snapshot: seq<Message>, turns: seq<Turn>, n: nat): seq<Message>
    requires n < |turns|
  {
    ContextAfter(snapshot, turns[..n]) + Untag(turns[n].injected)
  }

  /** Between two provider calls the context gains what the reply's stream leaves, which is the reply alone
      when it starts at most once, and then at least one message that is not a reply of the loop: a tool
      result, a steering message or a follow-up. */
  lemma NewInputBetweenCalls(snapshot: seq<Message>, turns: seq<Turn>, n: nat) returns (input: seq<Message>)
    requires Legal(turns) && 0 < n < |turns| && turns[n - 1].nextContext.None?
    ensures input == Results(turns[n - 1]) + Untag(turns[n].injected) && input != []
    ensures CallContext(snapshot, turns, n) == CallContext(snapshot, turns, n - 1) + StreamContext(turns[n - 1].script) + input
    ensures OneStart(turns[n - 1].script) ==> StreamContext(turns[n - 1].script) == [Reply(turns[n - 1])]
  {
    hide StreamContext, OneStart, CallsIn, BatchMessages, BatchTerminates, WellFormed;
    var t, next := turns[n - 1], turns[n];
    input := Results(t) + Untag(next.injected);
    assert MayFollow(t, next);
    TurnAnswersItsCalls(t);
    assert turns[..n][..n - 1] == turns[..n - 1];
    var before := ContextAfter(snapshot, turns[..n - 1]);
    var streamed := StreamContext(t.script);
    StreamingIsOneAppend(t.script);
    AppendAssoc(before, Untag(t.injected) + streamed, Results(t));
    AppendAssoc(before, Untag(t.injected), streamed);
    AppendAssoc(before + Untag(t.injected) + streamed, Results(t), Untag(next.injected));
  }

  /** The `prepareNextTurn` hook has the last word on what the next provider call sees; without it that is
      what the turn left. */
  lemma HookSetsTheContext(snapshot: seq<Message>, turns: seq<Turn>, n: nat, oracle: RunOracle)
    requires Legal(turns) && Follows(turns, oracle) && 0 < n < |turns|
    ensures CallContext(snapshot, turns, n) ==
      (match oracle.nextContext(n - 1)
       case Some(messages) => messages
       case None => CallContext(snapshot, turns, n - 1) + StreamContext(turns[n - 1].script) + Results(turns[n - 1]))
      + Untag(turns[n].injected)
  {
    hide StreamContext, CallsIn, BatchMessages, BatchTerminates, WellFormed, Results;
    var t := turns[n - 1];
    assert MayFollow(t, turns[n]);
    assert turns[..n][..n - 1] == turns[..n - 1];
    var before := ContextAfter(snapshot, turns[..n - 1]);
    AppendAssoc(before, Untag(t.injected) + StreamContext(t.script), Results(t));
    AppendAssoc(before, Untag(t.injected), StreamContext(t.script));
  }

  /** Another provider call is wanted exactly if some tool that was reached did not ask to stop. */
  lemma WantsMoreExactly(t: Turn)
    ensures WantsMore(t) <==> !Failed(Reply(t)) && AsksForMore(t)
  {
    hide CallsIn, Outcome, ShouldTerminate, BatchTerminates;
    var calls := CallsIn(Reply(t).content);
    TerminationIsUnanimous(calls, t.world);
    ReachedStopsAtAbort(calls, t.world, 0);
  }

  // ---- Turn bound ----

  ghost function TurnsWantingMore(turns: seq<Turn>): nat {
    if turns == [] then 0
    else TurnsWantingMore(turns[..|turns| - 1]) + if WantsMore(turns[|turns| - 1]) then 1 else 0
  }

  lemma {:induction false} AllFromCounts(injected: seq<Injected>, source: Source)
    requires AllFrom(injected, source)
    ensures |From(injected, source)| == |injected|
  {
    if injected != [] {
      assert injected[|injected| - 1] in injected;
      AllFromCounts(injected[..|injected| - 1], source);
    }
  }

  /** Every turn but the first was paid for by a tool batch that wanted more or by a message of a
      queue, so the turns number at most one more than these; what the queues contributed to the
      first turn pays for nothing. */
  lemma {:induction false} TurnBound(turns: seq<Turn>)
    requires Legal(turns) && turns != []
    ensures var first := turns[0].injected; var front := turns[..|turns| - 1];
      |turns| <= 1 + TurnsWantingMore(front)
               + |Entered(turns, Steered)| - |From(first, Steered)|
               + |Entered(turns, FollowedUp)| - |From(first, FollowedUp)|
  {
    hide WantsMore, WellFormed, Reply;
    var front, t := turns[..|turns| - 1], turns[|turns| - 1];
    if |turns| == 1 {
      assert front == [];
      NoTurns([], Steered);
      NoTurns([], FollowedUp);
    } else {
      var previous := front[|front| - 1];
      assert MayFollow(turns[|turns| - 2], t) && previous == turns[|turns| - 2];
      TurnBound(front);
      if AllFrom(t.injected, Steered) {
        AllFromCounts(t.injected, Steered);
      } else {
        AllFromCounts(t.injected, FollowedUp);
      }
    }
  }
}
