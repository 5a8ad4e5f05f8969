/** What holds of every batch, in both modes and under every interleaving. */
module ToolBatchLaws {
  import opened AgentTypes
  import opened AgentStates
  import opened ToolBatches

  // ---- Calls and results pair up ----

  predicate AbortSeen(calls: seq<ToolCall>, w: BatchWorld) {
    exists i: nat :: i < |calls| - 1 && w.aborted(3 * i + 2)
  }

  lemma {:induction false} ReachedStopsAtAbort(calls: seq<ToolCall>, w: BatchWorld, from: nat)
    requires from <= |calls|
    ensures var n := Reached(calls, w, from);
      && (from < |calls| ==> from < n)
      && (forall i: nat :: from <= i < n - 1 ==> !w.aborted(3 * i + 2))
      && (n < |calls| ==> n > from && w.aborted(3 * (n - 1) + 2))
    decreases |calls| - from
  {
    if from < |calls| && !w.aborted(3 * from + 2) {
      ReachedStopsAtAbort(calls, w, from + 1);
    }
  }

  /** The results answer a prefix of the calls in source order, one each; the prefix is not empty
      when there were calls, and it is everything exactly when no abort was seen before the last call. */
  lemma ResultsPairWithCalls(calls: seq<ToolCall>, w: BatchWorld)
    ensures var results := BatchMessages(calls, w);
      && |results| <= |calls|
      && (calls != [] ==> results != [])
      && (|results| == |calls| <==> !AbortSeen(calls, w))
      && (forall i :: 0 <= i < |results| ==> results[i].ToolResult? && results[i].toolCallId == calls[i].id)
  {
    hide Outcome, Outcomes, ResultMessages, Reached;
    ReachedStopsAtAbort(calls, w, 0);
    var n := Reached(calls, w, 0);
    if n < |calls| {
      assert w.aborted(3 * (n - 1) + 2);
    }
    ResultsOfOutcomes(calls, w, n);
  }

  lemma {:induction false} ResultsOfOutcomes(calls: seq<ToolCall>, w: BatchWorld, n: nat)
    requires n <= |calls|
    ensures forall i :: 0 <= i < n ==> Outcomes(calls, w, n)[i] == Outcome(calls, w, i)
    ensures forall i :: 0 <= i < n ==> ResultMessages(Outcomes(calls, w, n))[i] == ResultMessage(Outcome(calls, w, i))
    ensures forall i :: 0 <= i < n ==> Outcome(calls, w, i).call == calls[i]
  {
    hide PreparationOf, Outcomes, ResultMessages, ResultMessage;
    if n > 0 {
      ResultsOfOutcomes(calls, w, n - 1);
      OneMoreCall(calls, w, n - 1);
    }
  }

  /** A batch asks the run to stop only if every call it reached asked for it. */
  lemma TerminationIsUnanimous(calls: seq<ToolCall>, w: BatchWorld)
    ensures BatchTerminates(calls, w) <==>
      calls != [] && forall i :: 0 <= i < Reached(calls, w, 0) ==> Outcome(calls, w, i).output.terminate == Some(true)
  {
    hide Outcome, Outcomes, Reached;
    ReachedStopsAtAbort(calls, w, 0);
    var n := Reached(calls, w, 0);
    ResultsOfOutcomes(calls, w, n);
    var fs := Outcomes(calls, w, n);
    assert forall i :: 0 <= i < n ==> fs[i] in fs;
  }

  // ---- The messages a batch finishes are its results, in source order ----

  lemma {:induction false} NoMessageEnds(trace: seq<AgentEvent>)
    requires forall e <- trace :: !e.MessageEnd?
    ensures MessageEnds(trace) == []
  {
    if trace != [] {
      assert trace[|trace| - 1] in trace;
      NoMessageEnds(trace[..|trace| - 1]);
    }
  }

  lemma TailIsToolEvents(calls: seq<ToolCall>, w: BatchWorld, i: nat)
    requires i < |calls|
    ensures forall e <- Tail(calls, w, i) :: AboutCall(e, calls[i].id)
    ensures Tail(calls, w, i) != [] && Tail(calls, w, i)[|Tail(calls, w, i)| - 1] == EndEvent(Outcome(calls, w, i))
    ensures forall k :: 0 <= k < |Tail(calls, w, i)| - 1 ==> Tail(calls, w, i)[k].ToolExecutionUpdate?
    ensures Outcome(calls, w, i).call == calls[i]
  {}

  lemma {:induction false} PlayedIsToolEvents(calls: seq<ToolCall>, w: BatchWorld, schedule: seq<nat>)
    ensures forall e <- Played(calls, w, schedule) :: !e.MessageEnd?
  {
    if schedule != [] {
      var before, i := schedule[..|schedule| - 1], schedule[|schedule| - 1];
      PlayedIsToolEvents(calls, w, before);
      if i < |calls| {
        TailIsToolEvents(calls, w, i);
      }
    }
  }

  lemma {:induction false} PreflightIsToolEvents(calls: seq<ToolCall>, w: BatchWorld, n: nat)
    requires n <= |calls|
    ensures forall e <- Preflight(calls, w, n) :: !e.MessageEnd?
  {
    if n > 0 {
      PreflightIsToolEvents(calls, w, n - 1);
    }
  }

  lemma {:induction false} SequentialMessageEnds(calls: seq<ToolCall>, w: BatchWorld, n: nat)
    requires n <= |calls|
    ensures MessageEnds(SequentialTrace(calls, w, n)) == ResultMessages(Outcomes(calls, w, n))
  {
    hide Tail, Outcome, PreparationOf, SequentialTrace, Outcomes, ResultMessages, MessageEnds;
    EmptyBatch(calls, w);
    EmptyTrace("");
    if n > 0 {
      SequentialMessageEnds(calls, w, n - 1);
      OneMoreCall(calls, w, n - 1);
      var own := [StartEvent(calls[n - 1])] + Tail(calls, w, n - 1);
      var result := ResultMessage(Outcome(calls, w, n - 1));
      TailIsToolEvents(calls, w, n - 1);
      NoMessageEnds(own);
      PairHasNoToolEvent(result, "");
      MessageEndsAppend(SequentialTrace(calls, w, n - 1), own);
      MessageEndsAppend(SequentialTrace(calls, w, n - 1) + own, Pair(result));
    }
  }

  lemma BatchFinishesItsResults(calls: seq<ToolCall>, w: BatchWorld, schedule: seq<nat>)
    ensures MessageEnds(BatchTrace(calls, w, schedule)) == BatchMessages(calls, w)
  {
    var n := Reached(calls, w, 0);
    SequentialMessageEnds(calls, w, n);
    var tools := Preflight(calls, w, n) + Played(calls, w, schedule);
    PreflightIsToolEvents(calls, w, n);
    PlayedIsToolEvents(calls, w, schedule);
    NoMessageEnds(tools);
    PairsCarryTheirMessages(BatchMessages(calls, w), "");
    MessageEndsAppend(tools, Pairs(BatchMessages(calls, w)));
  }

  // ---- Each call's own events, whatever they are interleaved with ----

  predicate DistinctIds(calls: seq<ToolCall>) {
    forall i, j :: 0 <= i < j < |calls| ==> calls[i].id != calls[j].id
  }

  /** Start, updates, end: what one call emits when nothing else runs. */
  function CallTrace(calls: seq<ToolCall>, w: BatchWorld, i: nat): seq<AgentEvent>
    requires i < |calls|
  {
    [StartEvent(calls[i])] + Tail(calls, w, i)
  }

  lemma {:induction false} EventsOfOneCall(trace: seq<AgentEvent>, id: string, other: string)
    requires forall e <- trace :: AboutCall(e, id)
    ensures ToolEvents(trace, id) == trace
    ensures other != id ==> ToolEvents(trace, other) == []
  {
    if trace != [] {
      assert trace[|trace| - 1] in trace;
      EventsOfOneCall(trace[..|trace| - 1], id, other);
    }
  }

  lemma {:induction false} SequentialEventsOf(calls: seq<ToolCall>, w: BatchWorld, n: nat, id: string)
    requires DistinctIds(calls) && n <= |calls|
    ensures (forall j :: 0 <= j < n ==> calls[j].id != id) ==> ToolEvents(SequentialTrace(calls, w, n), id) == []
    ensures forall i :: 0 <= i < n && calls[i].id == id ==> ToolEvents(SequentialTrace(calls, w, n), id) == CallTrace(calls, w, i)
  {
    hide Tail, Outcome, PreparationOf, SequentialTrace, Outcomes, ResultMessages, ToolEvents;
    EmptyBatch(calls, w);
    EmptyTrace(id);
    if n > 0 {
      var before, own := SequentialTrace(calls, w, n - 1), CallTrace(calls, w, n - 1);
      var result := ResultMessage(Outcome(calls, w, n - 1));
      SequentialEventsOf(calls, w, n - 1, id);
      OneMoreCall(calls, w, n - 1);
      TailIsToolEvents(calls, w, n - 1);
      EventsOfOneCall(own, calls[n - 1].id, id);
      PairHasNoToolEvent(result, id);
      ToolEventsAppend(before, own, id);
      ToolEventsAppend(before + own, Pair(result), id);
      assert ToolEvents(SequentialTrace(calls, w, n), id) == ToolEvents(before, id) + ToolEvents(own, id);
    }
  }

  lemma {:induction false} PreflightEventsOf(calls: seq<ToolCall>, w: BatchWorld, n: nat, id: string)
    requires DistinctIds(calls) && n <= |calls|
    ensures (forall j :: 0 <= j < n ==> calls[j].id != id) ==> ToolEvents(Preflight(calls, w, n), id) == []
    ensures forall i :: 0 <= i < n && calls[i].id == id ==> ToolEvents(Preflight(calls, w, n), id) == PreflightOf(calls, w, i)
  {
    hide Tail, Outcome, PreparationOf, Preflight, PreflightOf, ToolEvents;
    EmptyBatch(calls, w);
    EmptyTrace(id);
    if n > 0 {
      var before, own := Preflight(calls, w, n - 1), PreflightOf(calls, w, n - 1);
      PreflightEventsOf(calls, w, n - 1, id);
      PreflightStep(calls, w, n - 1);
      PreflightIsOwn(calls, w, n - 1);
      EventsOfOneCall(own, calls[n - 1].id, id);
      ToolEventsAppend(before, own, id);
      assert ToolEvents(Preflight(calls, w, n), id) == ToolEvents(before, id) + ToolEvents(own, id);
    }
  }

  lemma PreflightIsOwn(calls: seq<ToolCall>, w: BatchWorld, i: nat)
    requires i < |calls|
    ensures forall e <- PreflightOf(calls, w, i) :: AboutCall(e, calls[i].id)
  {
    hide Tail, Outcome;
    TailIsToolEvents(calls, w, i);
  }

  /** Whatever the interleaving, call `i` has played exactly as many events of its tail as it was stepped. */
  lemma {:induction false} PlayedEventsOf(calls: seq<ToolCall>, w: BatchWorld, schedule: seq<nat>, id: string)
    requires DistinctIds(calls)
    requires forall i <- schedule :: i < |calls| && multiset(schedule)[i] <= |Tail(calls, w, i)|
    ensures (forall j :: 0 <= j < |calls| ==> calls[j].id != id) ==> ToolEvents(Played(calls, w, schedule), id) == []
    ensures forall i: nat :: i < |calls| && calls[i].id == id ==>
      multiset(schedule)[i] <= |Tail(calls, w, i)| &&
      ToolEvents(Played(calls, w, schedule), id) == Tail(calls, w, i)[..multiset(schedule)[i]]
  {
    hide Tail, Played, ToolEvents;
    EmptyBatch(calls, w);
    EmptyTrace(id);
    if schedule != [] {
      var before, s := schedule[..|schedule| - 1], schedule[|schedule| - 1];
      assert schedule == before + [s];
      assert multiset(schedule) == multiset(before) + multiset{s};
      forall i <- before ensures i < |calls| && multiset(before)[i] <= |Tail(calls, w, i)| {
        assert i in schedule;
      }
      assert s in schedule;
      PlayedEventsOf(calls, w, before, id);
      OneMoreStep(calls, w, before, s);
      var next := [Tail(calls, w, s)[multiset(before)[s]]];
      TailIsToolEvents(calls, w, s);
      EventsOfOneCall(next, calls[s].id, id);
      ToolEventsAppend(Played(calls, w, before), next, id);
    }
  }

  /** In every legal batch, the events of a reached call are its start, updates and end in that
      order, and a call that was not reached has none: interleaving reorders only across calls. */
  lemma BatchEventsOf(calls: seq<ToolCall>, w: BatchWorld, schedule: seq<nat>, id: string)
    requires DistinctIds(calls) && LegalSchedule(calls, w, schedule)
    ensures var n := Reached(calls, w, 0); var own := ToolEvents(BatchTrace(calls, w, schedule), id);
      && ((forall j :: 0 <= j < n ==> calls[j].id != id) ==> own == [])
      && (forall i :: 0 <= i < n && calls[i].id == id ==> own == CallTrace(calls, w, i))
  {
    var n := Reached(calls, w, 0);
    if RunsSequentially(calls, w) {
      SequentialEventsOf(calls, w, n, id);
    } else {
      ParallelEventsOf(calls, w, schedule, id);
    }
  }

  /** Preflight emits all of a call that never runs, and only the start of one that does. */
  lemma DeferredOrNot(calls: seq<ToolCall>, w: BatchWorld, i: nat)
    requires i < |calls|
    ensures PreparationOf(calls, w, i).Prepared? ==> PreflightOf(calls, w, i) + Tail(calls, w, i) == CallTrace(calls, w, i)
    ensures !PreparationOf(calls, w, i).Prepared? ==> PreflightOf(calls, w, i) == CallTrace(calls, w, i)
  {}

  lemma ParallelEventsOf(calls: seq<ToolCall>, w: BatchWorld, schedule: seq<nat>, id: string)
    requires DistinctIds(calls) && Complete(calls, w, Reached(calls, w, 0), schedule) && !RunsSequentially(calls, w)
    ensures var n := Reached(calls, w, 0); var own := ToolEvents(BatchTrace(calls, w, schedule), id);
      && ((forall j :: 0 <= j < n ==> calls[j].id != id) ==> own == [])
      && (forall i :: 0 <= i < n && calls[i].id == id ==> own == CallTrace(calls, w, i))
  {
    hide RunsSequentially, Preflight, Played, Tail, Pairs, BatchMessages, ToolEvents, PreflightOf, Reached;
    var n := Reached(calls, w, 0);
    var first, second, third := Preflight(calls, w, n), Played(calls, w, schedule), Pairs(BatchMessages(calls, w));
    PreflightEventsOf(calls, w, n, id);
    PlayedEventsOf(calls, w, schedule, id);
    PairsCarryTheirMessages(BatchMessages(calls, w), id);
    ToolEventsAppend(first, second, id);
    ToolEventsAppend(first + second, third, id);
    assert ToolEvents(BatchTrace(calls, w, schedule), id) == ToolEvents(first, id) + ToolEvents(second, id);
    if i :| 0 <= i < |calls| && calls[i].id == id {
      assert i !in schedule ==> multiset(schedule)[i] == 0;
      if i < n {
        DeferredOrNot(calls, w, i);
      }
    }
  }

  // ---- The pending set is exact ----

  function Started(trace: seq<AgentEvent>): set<string> {
    set e <- trace | e.ToolExecutionStart? :: e.toolCallId
  }

  function Ended(trace: seq<AgentEvent>): set<string> {
    set e <- trace | e.ToolExecutionEnd? :: e.toolCallId
  }

  lemma {:induction false} ToolEventsKeepMembers(trace: seq<AgentEvent>, id: string, e: AgentEvent)
    ensures e in ToolEvents(trace, id) <==> e in trace && AboutCall(e, id)
  {
    if trace != [] {
      ToolEventsKeepMembers(trace[..|trace| - 1], id, e);
    }
  }

  /** A call with nothing out, or with some but not all of its events out, is open just in between. */
  lemma OpenMeansStartedNotEnded(calls: seq<ToolCall>, w: BatchWorld, i: nat, k: nat)
    requires i < |calls| && k <= |CallTrace(calls, w, i)|
    ensures var own := CallTrace(calls, w, i)[..k];
      && (OpenAfter(false, own) <==> 0 < k < |CallTrace(calls, w, i)|)
      && ((exists e <- own :: e.ToolExecutionStart?) <==> 0 < k)
      && ((exists e <- own :: e.ToolExecutionEnd?) <==> k == |CallTrace(calls, w, i)|)
  {
    hide Tail;
    TailIsToolEvents(calls, w, i);
    var all := CallTrace(calls, w, i);
    assert all[|all| - 1].ToolExecutionEnd?;
    assert all[0].ToolExecutionStart?;
    assert forall j :: 1 <= j < |all| - 1 ==> all[j].ToolExecutionUpdate?;
    if 0 < k { assert all[0] in all[..k]; }
    if k == |all| { assert all[|all| - 1] in all[..k]; }
    if k < |all| { OpenUntilEnd(all, k); }
  }

  lemma {:induction false} OpenUntilEnd(all: seq<AgentEvent>, k: nat)
    requires k < |all| && all[0].ToolExecutionStart?
    requires forall j :: 1 <= j < |all| - 1 ==> all[j].ToolExecutionUpdate?
    ensures OpenAfter(false, all[..k]) <==> 0 < k
  {
    if k > 1 {
      OpenUntilEnd(all, k - 1);
      assert all[..k][..k - 1] == all[..k - 1];
    }
  }

  /** After every event of a batch the pending set is the ids started minus the ids ended; at the
      end nothing is pending and the ended ids are exactly those of the calls reached. */
  lemma PendingSetIsExact(calls: seq<ToolCall>, w: BatchWorld, schedule: seq<nat>, v: StateValue, k: nat)
    requires DistinctIds(calls) && LegalSchedule(calls, w, schedule) && v.pendingToolCalls == {}
    requires k <= |BatchTrace(calls, w, schedule)|
    ensures var out := BatchTrace(calls, w, schedule)[..k];
      && ReduceAll(v, out).pendingToolCalls == Started(out) - Ended(out)
      && (k == |BatchTrace(calls, w, schedule)| ==>
            ReduceAll(v, out).pendingToolCalls == {}
            && Ended(out) == set i | 0 <= i < Reached(calls, w, 0) :: calls[i].id)
  {
    var trace := BatchTrace(calls, w, schedule);
    var out, n := trace[..k], Reached(calls, w, 0);
    forall id ensures id in ReduceAll(v, out).pendingToolCalls <==> id in Started(out) && id !in Ended(out)
      ensures k == |trace| ==> (id in Ended(out) <==> exists i :: 0 <= i < n && calls[i].id == id)
      ensures k == |trace| ==> id !in ReduceAll(v, out).pendingToolCalls
    {
      PendingOfOneCall(calls, w, schedule, v, k, id);
    }
  }

  lemma PendingOfOneCall(calls: seq<ToolCall>, w: BatchWorld, schedule: seq<nat>, v: StateValue, k: nat, id: string)
    requires DistinctIds(calls) && LegalSchedule(calls, w, schedule) && v.pendingToolCalls == {}
    requires k <= |BatchTrace(calls, w, schedule)|
    ensures var out := BatchTrace(calls, w, schedule)[..k];
      && (id in ReduceAll(v, out).pendingToolCalls <==> id in Started(out) && id !in Ended(out))
      && (k == |BatchTrace(calls, w, schedule)| ==>
           && (id in Ended(out) <==> exists i :: 0 <= i < Reached(calls, w, 0) && calls[i].id == id)
           && id !in ReduceAll(v, out).pendingToolCalls)
  {
    hide LegalSchedule, Reached, Played, Preflight, SequentialTrace, BatchTrace, Tail, ReduceAll, OpenAfter, ToolEvents, CallTrace;
    var trace := BatchTrace(calls, w, schedule);
    var out, n := trace[..k], Reached(calls, w, 0);
    var own := ToolEvents(out, id);
    PendingIsOpenCalls(v, out, id);
    forall e ensures e in own <==> e in out && AboutCall(e, id) {
      ToolEventsKeepMembers(out, id, e);
    }
    assert id in Started(out) <==> exists e <- own :: e.ToolExecutionStart?;
    assert id in Ended(out) <==> exists e <- own :: e.ToolExecutionEnd?;
    assert trace == out + trace[k..];
    ToolEventsAppend(out, trace[k..], id);
    BatchEventsOf(calls, w, schedule, id);
    if i :| 0 <= i < n && calls[i].id == id {
      assert own == CallTrace(calls, w, i)[..|own|];
      OpenMeansStartedNotEnded(calls, w, i, |own|);
      if k == |trace| {
        assert out == trace;
      }
    } else {
      assert own == [];
      NothingOpen();
    }
  }

  lemma NothingOpen()
    ensures !OpenAfter(false, [])
  {}

  /** In every legal batch, the events of a reached call are what its tool, hooks and abort readings make of
      it, in both modes and under every interleaving. */
  lemma BatchEmitsWhatItMeets(calls: seq<ToolCall>, w: BatchWorld, schedule: seq<nat>, i: nat)
    requires DistinctIds(calls) && LegalSchedule(calls, w, schedule) && i < Reached(calls, w, 0)
    ensures exists output: ToolOutput, isError: bool ::
      && AnsweredAs(calls, w, i, output, isError)
      && EmittedAs(calls, w, i, ToolEvents(BatchTrace(calls, w, schedule), calls[i].id), output, isError)
  {
    hide Outcome, Tail, LegalSchedule, BatchTrace, AnsweredAs, EmittedAs, Reached, ToolEvents;
    var f, own := Outcome(calls, w, i), ToolEvents(BatchTrace(calls, w, schedule), calls[i].id);
    BatchEventsOf(calls, w, schedule, calls[i].id);
    assert own == CallTrace(calls, w, i);
    CallIsAnswered(calls, w, i);
    CallEmits(calls, w, i);
    assert AnsweredAs(calls, w, i, f.output, f.isError) && EmittedAs(calls, w, i, own, f.output, f.isError);
  }
}
