/** The life of an `Agent` as a state machine: runs begin, deliver events, fail, are aborted or reset
    and finish, with the calls of different callers interleaved in any order. */
module Lifecycles {
  import opened AgentTypes
  import opened AgentStates
  import opened ToolBatchLaws
  import opened Runs
  import opened RunLaws

  /** Runs are numbered as they begin; `settled` holds those whose idle promise is resolved. */
  datatype Life = Life(value: StateValue, active: Option<nat>, aborted: bool, started: nat, settled: set<nat>)

  datatype Action =
    | Begin
    | Deliver(event: AgentEvent)
    | Abort
    | Reset
    | Finish

  function Fresh(messages: seq<Message>): Life {
    Life(StateValue(messages, false, None, {}, None), None, false, 0, {})
  }

  function Step(l: Life, a: Action): Life {
    match a
    case Begin =>
      if l.active.Some? then l
      else Life(l.value.(isStreaming := true, streamingMessage := None, errorMessage := None),
                Some(l.started), false, l.started + 1, l.settled)
    case Deliver(e) => l.(value := Reduce(l.value, e))
    case Abort => if l.active.Some? then l.(aborted := true) else l
    case Reset => l.(value := StateValue([], false, None, {}, None))
    case Finish =>
      Life(l.value.(isStreaming := false, streamingMessage := None, pendingToolCalls := {}),
           None, l.aborted, l.started, if l.active.Some? then l.settled + {l.active.value} else l.settled)
  }

  function After(l: Life, history: seq<Action>): Life {
    if history == [] then l else Step(After(l, history[..|history| - 1]), history[|history| - 1])
  }

  /** Events that begin nothing. */
  predicate BeginsNothing(e: AgentEvent) {
    !e.MessageStart? && !e.MessageUpdate? && !e.ToolExecutionStart?
  }

  /** Messages and tools begin only while a run is active. Everything else may come late: tools that run
      concurrently with one whose listener threw go on after the run has failed, and their progress
      reports and ends are still reduced. */
  predicate Possible(l: Life, history: seq<Action>) {
    history != [] ==>
      var front, last := history[..|history| - 1], history[|history| - 1];
      Possible(l, front) &&
      (last.Deliver? && !BeginsNothing(last.event) ==> After(l, front).active.Some?)
  }

  /** Nothing of a run is left over. */
  predicate Idle(v: StateValue) {
    !v.isStreaming && v.streamingMessage == None && v.pendingToolCalls == {}
  }

  /** At most one run is unsettled, it is the latest one, and between runs the state is idle. */
  ghost predicate Sound(l: Life) {
    && (l.active.None? ==> Idle(l.value))
    && (forall id: nat :: id in l.settled <==> id < l.started && l.active != Some(id))
    && (l.active.Some? ==> l.active.value == l.started - 1)
  }

  /** Whether the transcript was reset since the active run began. */
  predicate ResetInRun(l: Life, history: seq<Action>) {
    history != [] &&
    var front, last := history[..|history| - 1], history[|history| - 1];
    last.Reset? || (!(last.Begin? && After(l, front).active.None?) && ResetInRun(l, front))
  }

  lemma SoundStep(l: Life, a: Action)
    requires Sound(l)
    requires a.Deliver? && !BeginsNothing(a.event) ==> l.active.Some?
    ensures Sound(Step(l, a))
  {}

  /** Whatever the history of calls, runs, failures and resets, the lifecycle stays sound. */
  lemma {:induction false} HistoriesAreSound(messages: seq<Message>, history: seq<Action>)
    requires Possible(Fresh(messages), history)
    ensures Sound(After(Fresh(messages), history))
  {
    hide Sound, Step;
    if history == [] {
      FreshIsSound(messages);
    } else {
      HistoriesAreSound(messages, history[..|history| - 1]);
      SoundStep(After(Fresh(messages), history[..|history| - 1]), history[|history| - 1]);
    }
  }

  lemma FreshIsSound(messages: seq<Message>)
    ensures Sound(Fresh(messages))
  {}

  /** The streaming flag means "a run is active" exactly until someone resets during the run. */
  lemma {:induction false} StreamingMeansActive(messages: seq<Message>, history: seq<Action>)
    requires Possible(Fresh(messages), history)
    ensures var l := After(Fresh(messages), history);
      l.value.isStreaming <==> l.active.Some? && !ResetInRun(Fresh(messages), history)
  {
    if history != [] {
      var front := history[..|history| - 1];
      StreamingMeansActive(messages, front);
      HistoriesAreSound(messages, front);
    }
  }

  // ---- Delivery when listeners or the loop itself throw ----

  function FailureMessage(error: string, aborted: bool): Message {
    Assistant([Text("", None)], if aborted then AbortedStop else ErrorStop, Some(error))
  }

  /** What the failure handler emits. */
  function FailureTrace(error: string, aborted: bool): seq<AgentEvent> {
    var m := FailureMessage(error, aborted);
    [MessageStart(m), MessageEnd(m), TurnEnd(m, []), AgentEnd([m])]
  }

  /** The events that get out when a listener throws at event number `n` if `throws(n)`: everything up
      to and including the first such event. `from` is the number of the first event. */
  function Delivered(events: seq<AgentEvent>, throws: nat -> bool, from: nat): (out: seq<AgentEvent>)
    ensures |out| <= |events|
  {
    if events == [] then []
    else if throws(from) then [events[0]]
    else [events[0]] + Delivered(events[1..], throws, from + 1)
  }

  predicate ThrowsIn(events: seq<AgentEvent>, throws: nat -> bool, from: nat) {
    exists k: nat :: from <= k < from + |events| && throws(k)
  }

  /** What surrounds the failure handler: `late(k)` are events of still running tools ahead of its event
      number `k`, and `throws(k)` says that a listener throws over that event. What listeners throw over a
      late event is lost. */
  datatype Handling = Handling(late: nat -> seq<AgentEvent>, throws: nat -> bool) {
    ghost predicate OnlyTools() {
      forall k: nat :: forall e <- late(k) :: e.ToolExecutionUpdate? || e.ToolExecutionEnd?
    }
  }

  /** What gets out while the failure handler emits `events`, the first of which has number `from`. */
  function HandlerTrace(events: seq<AgentEvent>, h: Handling, from: nat): seq<AgentEvent> {
    if events == [] then h.late(from)
    else h.late(from) + [events[0]] + (if h.throws(from) then h.late(from + 1) else HandlerTrace(events[1..], h, from + 1))
  }

  /** Whether a run takes the failure path, and with which error. */
  predicate Fails(events: seq<AgentEvent>, exit: Attempt<()>, throws: nat -> bool) {
    ThrowsIn(events, throws, 0) || exit.Threw?
  }

  function ErrorOf(events: seq<AgentEvent>, exit: Attempt<()>, throws: nat -> bool, listenerError: string): string {
    if ThrowsIn(events, throws, 0) || exit.Returned? then listenerError else exit.error
  }

  /** All events of one run: those the loop got out and, if it failed or a listener threw, those that get
      out while the failure is handled. */
  function LifecycleTrace(events: seq<AgentEvent>, exit: Attempt<()>, aborted: bool, throws: nat -> bool,
                          listenerError: string, h: Handling): seq<AgentEvent> {
    Delivered(events, throws, 0)
    + if Fails(events, exit, throws)
      then HandlerTrace(FailureTrace(ErrorOf(events, exit, throws, listenerError), aborted), h, 0)
      else []
  }

  function EndCount(trace: seq<AgentEvent>): nat {
    if trace == [] then 0 else (if trace[0].AgentEnd? then 1 else 0) + EndCount(trace[1..])
  }

  lemma {:induction false} EndCountAppend(a: seq<AgentEvent>, b: seq<AgentEvent>)
    ensures EndCount(a + b) == EndCount(a) + EndCount(b)
  {
    if a == [] {
      assert a + b == b;
    } else {
      EndCountAppend(a[1..], b);
      assert (a + b)[1..] == a[1..] + b;
    }
  }

  lemma {:induction false} DeliveredIsPrefix(events: seq<AgentEvent>, throws: nat -> bool, from: nat)
    ensures var out := Delivered(events, throws, from);
      && out == events[..|out|]
      && (!ThrowsIn(events, throws, from) ==> out == events)
      && (ThrowsIn(events, throws, from) ==> out != [] && throws(from + |out| - 1) && !ThrowsIn(events[..|out| - 1], throws, from))
  {
    if events != [] {
      var rest := events[1..];
      DeliveredIsPrefix(rest, throws, from + 1);
      if !throws(from) {
        var later := Delivered(rest, throws, from + 1);
        assert Delivered(events, throws, from) == [events[0]] + later;
        assert ThrowsIn(events, throws, from) <==> ThrowsIn(rest, throws, from + 1);
      }
    }
  }

  lemma DeliverOne(events: seq<AgentEvent>, throws: nat -> bool, from: nat)
    ensures events == [] ==> Delivered(events, throws, from) == [] && !ThrowsIn(events, throws, from)
    ensures events != [] ==>
      && Delivered(events, throws, from)
           == (if throws(from) then [events[0]] else [events[0]] + Delivered(events[1..], throws, from + 1))
      && (ThrowsIn(events, throws, from) <==> throws(from) || ThrowsIn(events[1..], throws, from + 1))
  {}

  /** Delivering the event after the first `n`, when none of those was thrown over. */
  lemma DeliverNext(events: seq<AgentEvent>, throws: nat -> bool, from: nat, n: nat)
    requires n < |events|
    ensures Delivered(events[n..], throws, from + n)
      == [events[n]] + if throws(from + n) then [] else Delivered(events[n + 1..], throws, from + n + 1)
    ensures ThrowsIn(events[n..], throws, from + n)
      <==> throws(from + n) || ThrowsIn(events[n + 1..], throws, from + n + 1)
  {
    hide Delivered, ThrowsIn;
    var rest := events[n..];
    assert rest[1..] == events[n + 1..] && rest[0] == events[n];
    DeliverOne(rest, throws, from + n);
  }

  /** One step of the failure handler, and what is left when it is through. */
  lemma HandlerStep(events: seq<AgentEvent>, h: Handling, k: nat)
    requires k <= |events|
    ensures HandlerTrace(events[k..], h, k) == if k == |events| then h.late(k)
      else h.late(k) + [events[k]] + (if h.throws(k) then h.late(k + 1) else HandlerTrace(events[k + 1..], h, k + 1))
  {
    if k < |events| {
      assert events[k..][1..] == events[k + 1..];
    }
  }

  lemma FourEvents(error: string, aborted: bool, throws: nat -> bool)
    ensures ThrowsIn(FailureTrace(error, aborted), throws, 0) <==> exists k: nat :: k < 4 && throws(k)
  {}

  lemma {:induction false} NoEndNoCount(trace: seq<AgentEvent>)
    requires forall e <- trace :: !e.AgentEnd?
    ensures EndCount(trace) == 0
  {
    if trace != [] {
      assert trace[0] in trace;
      NoEndNoCount(trace[1..]);
    }
  }

  lemma OneEndLast(events: seq<AgentEvent>)
    requires events != [] && events[|events| - 1].AgentEnd?
    requires forall k :: 0 <= k < |events| - 1 ==> !events[k].AgentEnd?
    ensures EndCount(events) == 1
  {
    var front, last := events[..|events| - 1], events[|events| - 1];
    assert events == front + [last];
    NoEndNoCount(front);
    EndCountAppend(front, [last]);
    assert [last][1..] == [];
  }

  // ---- What the failure handler adds ----

  /** Late tool events add neither messages nor ends to what the handler gets out. */
  lemma {:induction false} HandlerAdds(events: seq<AgentEvent>, h: Handling, from: nat)
    requires h.OnlyTools()
    ensures EndCount(HandlerTrace(events, h, from)) == EndCount(Delivered(events, h.throws, from))
    ensures MessageEnds(HandlerTrace(events, h, from)) == MessageEnds(Delivered(events, h.throws, from))
  {
    hide MessageEnds, EndCount;
    LateAddsNothing(h, from);
    LateAddsNothing(h, from + 1);
    NothingCounts();
    if events != [] {
      var first, late := [events[0]], h.late(from);
      var rest := if h.throws(from) then h.late(from + 1) else HandlerTrace(events[1..], h, from + 1);
      var delivered := if h.throws(from) then [] else Delivered(events[1..], h.throws, from + 1);
      if !h.throws(from) {
        HandlerAdds(events[1..], h, from + 1);
      }
      assert Delivered(events, h.throws, from) == first + delivered;
      EndCountAppend(late, first);
      EndCountAppend(late + first, rest);
      EndCountAppend(first, delivered);
      MessageEndsAppend(late, first);
      MessageEndsAppend(late + first, rest);
      MessageEndsAppend(first, delivered);
      assert [] + MessageEnds(first) == MessageEnds(first);
    }
  }

  lemma NothingCounts()
    ensures EndCount([]) == 0 && MessageEnds([]) == []
  {}

  lemma LateAddsNothing(h: Handling, k: nat)
    requires h.OnlyTools()
    ensures EndCount(h.late(k)) == 0 && MessageEnds(h.late(k)) == []
  {
    hide MessageEnds, EndCount;
    NoEndNoCount(h.late(k));
    NoMessageEnds(h.late(k));
  }

  lemma CountHead(e: AgentEvent, rest: seq<AgentEvent>)
    ensures EndCount([e] + rest) == (if e.AgentEnd? then 1 else 0) + EndCount(rest)
    ensures MessageEnds([e] + rest) == (if e.MessageEnd? then [e.message] else []) + MessageEnds(rest)
  {
    hide MessageEnds;
    assert ([e] + rest)[1..] == rest;
    MessageEndsAppend([e], rest);
    LastIsAll(e);
  }

  lemma LastIsAll(e: AgentEvent)
    ensures MessageEnds([e]) == if e.MessageEnd? then [e.message] else []
  {
    assert [e][..0] == [];
  }

  /** The handler's own end gets out unless a listener throws over one of the three events ahead of it,
      and its message unless one throws over the first. */
  lemma HandlerGetsOut(error: string, aborted: bool, throws: nat -> bool)
    ensures var out := Delivered(FailureTrace(error, aborted), throws, 0);
      && EndCount(out) == (if throws(0) || throws(1) || throws(2) then 0 else 1)
      && MessageEnds(out) == (if throws(0) then [] else [FailureMessage(error, aborted)])
  {
    hide EndCount, MessageEnds;
    var m, all := FailureMessage(error, aborted), FailureTrace(error, aborted);
    DeliverNext(all, throws, 0, 3);
    DeliverNext(all, throws, 0, 2);
    DeliverNext(all, throws, 0, 1);
    DeliverNext(all, throws, 0, 0);
    assert all[0..] == all && all[4..] == [];
    DeliverOne([], throws, 4);
    NothingCounts();
    var third := if throws(2) then [] else Delivered(all[3..], throws, 3);
    var second := if throws(1) then [] else Delivered(all[2..], throws, 2);
    var first := if throws(0) then [] else Delivered(all[1..], throws, 1);
    CountHead(AgentEnd([m]), []);
    CountHead(TurnEnd(m, []), third);
    CountHead(MessageEnd(m), second);
    CountHead(MessageStart(m), first);
  }

  /** The failure handler's four events, spelled out. */
  lemma FailureIsReported(error: string, aborted: bool)
    ensures var m := Assistant([Text("", None)], if aborted then AbortedStop else ErrorStop, Some(error));
      FailureTrace(error, aborted) == [MessageStart(m), MessageEnd(m), TurnEnd(m, []), AgentEnd([m])]
  {}

  /** What gets out while a failure is handled is one of the handler's own events or a late one. */
  lemma {:induction false} HandlerEvents(events: seq<AgentEvent>, h: Handling, from: nat)
    requires h.OnlyTools()
    ensures forall e <- HandlerTrace(events, h, from) :: e in events || e.ToolExecutionUpdate? || e.ToolExecutionEnd?
  {
    if events != [] && !h.throws(from) {
      HandlerEvents(events[1..], h, from + 1);
    }
  }

  /** Whether a failed run still reports the handler's end. */
  predicate EndHandled(events: seq<AgentEvent>, exit: Attempt<()>, throws: nat -> bool, h: Handling) {
    Fails(events, exit, throws) && !h.throws(0) && !h.throws(1) && !h.throws(2)
  }

  /** A run reports the ends its loop gets out, and one more if it fails and no listener throws while that
      failure is handled. The transcript gains the messages the loop gets out finished, and behind them
      the failure message unless a listener throws over its start. */
  lemma RunReports(events: seq<AgentEvent>, exit: Attempt<()>, aborted: bool, throws: nat -> bool, listenerError: string, h: Handling)
    requires h.OnlyTools()
    ensures var trace, out := LifecycleTrace(events, exit, aborted, throws, listenerError, h), Delivered(events, throws, 0);
      && out <= trace
      && (exit.Returned? && (forall k: nat :: k < |events| ==> !throws(k)) ==> trace == events)
      && EndCount(trace) == EndCount(out) + (if EndHandled(events, exit, throws, h) then 1 else 0)
      && MessageEnds(trace) == MessageEnds(out)
           + if Fails(events, exit, throws) && !h.throws(0)
             then [FailureMessage(ErrorOf(events, exit, throws, listenerError), aborted)] else []
  {
    hide EndCount, MessageEnds, Delivered, HandlerTrace, FailureTrace;
    DeliveredIsPrefix(events, throws, 0);
    var out, error := Delivered(events, throws, 0), ErrorOf(events, exit, throws, listenerError);
    var handled := if Fails(events, exit, throws) then HandlerTrace(FailureTrace(error, aborted), h, 0) else [];
    NothingCounts();
    HandlerAdds(FailureTrace(error, aborted), h, 0);
    HandlerGetsOut(error, aborted, h.throws);
    EndCountAppend(out, handled);
    MessageEndsAppend(out, handled);
  }

  /** The same in the fields of the message: an error, or an abort exactly if the run was aborted, with the
      text of what the loop or else a listener threw, in the transcript as in the handler's `turn_end` and
      `agent_end`. */
  ghost predicate FailsWith(message: Message, events: seq<AgentEvent>, exit: Attempt<()>, aborted: bool,
                            throws: nat -> bool, listenerError: string) {
    && message.Assistant? && message.content == [Text("", None)]
    && message.stopReason == (if aborted then AbortedStop else ErrorStop)
    && ((exists k: nat :: k < |events| && throws(k)) ==> message.errorMessage == Some(listenerError))
    && (!(exists k: nat :: k < |events| && throws(k)) && exit.Threw? ==> message.errorMessage == Some(exit.error))
  }

  ghost predicate ShowsFailure(trace: seq<AgentEvent>, events: seq<AgentEvent>, exit: Attempt<()>, aborted: bool,
                               throws: nat -> bool, listenerError: string) {
    forall k :: |Delivered(events, throws, 0)| <= k < |trace| ==>
      && (trace[k].TurnEnd? ==>
           trace[k].toolResults == [] && FailsWith(trace[k].message, events, exit, aborted, throws, listenerError))
      && (trace[k].AgentEnd? ==>
           |trace[k].messages| == 1 && FailsWith(trace[k].messages[0], events, exit, aborted, throws, listenerError))
  }

  lemma FailureInFields(events: seq<AgentEvent>, exit: Attempt<()>, aborted: bool, throws: nat -> bool, listenerError: string, h: Handling)
    requires h.OnlyTools() && (exit.Threw? || exists k: nat :: k < |events| && throws(k))
    ensures var trace := LifecycleTrace(events, exit, aborted, throws, listenerError, h);
      && ShowsFailure(trace, events, exit, aborted, throws, listenerError)
      && (!h.throws(0) ==>
           MessageEnds(trace) != [] && FailsWith(MessageEnds(trace)[|MessageEnds(trace)| - 1], events, exit, aborted, throws, listenerError))
  {
    hide EndCount, MessageEnds, Delivered, HandlerTrace, FailureTrace, FailsWith;
    var error, out := ErrorOf(events, exit, throws, listenerError), Delivered(events, throws, 0);
    var own := FailureTrace(error, aborted);
    var trace := LifecycleTrace(events, exit, aborted, throws, listenerError, h);
    FailureIsReported(error, aborted);
    RunReports(events, exit, aborted, throws, listenerError, h);
    FailureMessageFails(events, exit, aborted, throws, listenerError);
    HandlerEvents(own, h, 0);
    var handled := HandlerTrace(own, h, 0);
    assert trace == out + handled;
    forall k | |out| <= k < |trace| ensures trace[k] in own || trace[k].ToolExecutionUpdate? || trace[k].ToolExecutionEnd? {
      assert trace[k] == handled[k - |out|] && handled[k - |out|] in handled;
    }
  }

  /** A failed run shows it, in the last message of the transcript unless a listener throws over its start,
      and in the turn and run ends of the failure handler. */
  ghost predicate FailureIsVisible(messages: seq<Message>, trace: seq<AgentEvent>, events: seq<AgentEvent>, exit: Attempt<()>,
                                   aborted: bool, throws: nat -> bool, listenerError: string, h: Handling) {
    h.OnlyTools() && (exit.Threw? || exists k: nat :: k < |events| && throws(k)) ==>
      && ShowsFailure(trace, events, exit, aborted, throws, listenerError)
      && (!h.throws(0) ==>
           messages != [] && FailsWith(messages[|messages| - 1], events, exit, aborted, throws, listenerError))
  }

  lemma FailureShows(before: seq<Message>, events: seq<AgentEvent>, exit: Attempt<()>, aborted: bool,
                     throws: nat -> bool, listenerError: string, h: Handling)
    ensures var trace := LifecycleTrace(events, exit, aborted, throws, listenerError, h);
      FailureIsVisible(before + MessageEnds(trace), trace, events, exit, aborted, throws, listenerError, h)
  {
    hide LifecycleTrace, ShowsFailure, FailsWith, MessageEnds;
    if h.OnlyTools() && (exit.Threw? || exists k: nat :: k < |events| && throws(k)) {
      FailureInFields(events, exit, aborted, throws, listenerError, h);
    }
  }

  lemma FailureMessageFails(events: seq<AgentEvent>, exit: Attempt<()>, aborted: bool, throws: nat -> bool, listenerError: string)
    ensures FailsWith(FailureMessage(ErrorOf(events, exit, throws, listenerError), aborted), events, exit, aborted, throws, listenerError)
  {}

  /** For a loop that ends its run with its last event, and only there, the number of ends is known for
      every behaviour of the listeners: it is one exactly when either the loop's end gets out or the
      handler's does, two when a listener throws over the loop's end itself and over nothing the handler
      emits ahead of its own, and none when both are prevented. */
  lemma EndsReported(events: seq<AgentEvent>, exit: Attempt<()>, aborted: bool, throws: nat -> bool, listenerError: string, h: Handling)
    requires h.OnlyTools() && events != [] && events[|events| - 1].AgentEnd?
    requires forall k :: 0 <= k < |events| - 1 ==> !events[k].AgentEnd?
    ensures var count := EndCount(LifecycleTrace(events, exit, aborted, throws, listenerError, h));
      var ended, handled := !ThrowsIn(events[..|events| - 1], throws, 0), EndHandled(events, exit, throws, h);
      && count == (if ended then 1 else 0) + (if handled then 1 else 0)
      && (count == 1 <==> ended != handled)
  {
    hide EndCount, LifecycleTrace, HandlerTrace, FailureTrace;
    var out := Delivered(events, throws, 0);
    DeliveredIsPrefix(events, throws, 0);
    RunReports(events, exit, aborted, throws, listenerError, h);
    if ThrowsIn(events[..|events| - 1], throws, 0) {
      EarlierThrow(events, throws);
      NoEndNoCount(out);
    } else {
      assert out == events by {
        if ThrowsIn(events, throws, 0) {
          assert throws(|out| - 1);
          assert |out| == |events|;
        }
      }
      OneEndLast(events);
    }
  }

  lemma EarlierThrow(events: seq<AgentEvent>, throws: nat -> bool)
    requires events != [] && ThrowsIn(events[..|events| - 1], throws, 0)
    ensures |Delivered(events, throws, 0)| < |events|
  {
    DeliveredIsPrefix(events, throws, 0);
  }

  /** A loop that throws before it ends its run reports exactly one end, the handler's, or none. */
  lemma EndsReportedByFailure(events: seq<AgentEvent>, error: string, aborted: bool, throws: nat -> bool, listenerError: string, h: Handling)
    requires h.OnlyTools() && forall e <- events :: !e.AgentEnd?
    ensures EndCount(LifecycleTrace(events, Threw(error), aborted, throws, listenerError, h))
      == if h.throws(0) || h.throws(1) || h.throws(2) then 0 else 1
  {
    hide EndCount, LifecycleTrace;
    DeliveredIsPrefix(events, throws, 0);
    NoEndNoCount(Delivered(events, throws, 0));
    RunReports(events, Threw(error), aborted, throws, listenerError, h);
  }

  /** What a run leaves in the transcript that a listener cut off anywhere: the messages of a legal run up
      to that point, in order and once each, all of them if nobody threw, and behind them the failure message
      under the condition above. */
  lemma CutRunKeepsItsMessages(turns: seq<Turn>, events: seq<AgentEvent>, exit: Attempt<()>, aborted: bool,
                               throws: nat -> bool, listenerError: string, h: Handling)
    requires h.OnlyTools() && events <= RunTrace(turns)
    ensures var kept := MessageEnds(Delivered(events, throws, 0));
      && kept <= RunMessages(turns)
      && (events == RunTrace(turns) && !ThrowsIn(events, throws, 0) ==> kept == RunMessages(turns))
      && MessageEnds(LifecycleTrace(events, exit, aborted, throws, listenerError, h))
         == kept + if Fails(events, exit, throws) && !h.throws(0)
                   then [FailureMessage(ErrorOf(events, exit, throws, listenerError), aborted)] else []
  {
    hide MessageEnds, LifecycleTrace, RunTrace, RunMessages, Delivered, ThrowsIn;
    var out, all := Delivered(events, throws, 0), RunTrace(turns);
    DeliveredIsPrefix(events, throws, 0);
    RunReports(events, exit, aborted, throws, listenerError, h);
    FinishedMessages(turns);
    assert all == out + all[|out|..];
    MessageEndsAppend(out, all[|out|..]);
  }
}
