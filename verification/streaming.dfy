/** One provider call: how a stream of partial messages lands in the context and the event trace. */
module Streaming {
  import opened AgentTypes
  import opened AgentStates

  /** `Delta` stands for the nine text/thinking/toolcall events, `Terminal` for done and error. */
  datatype StreamEvent =
    | Start(partial: Message)
    | Delta(partial: Message)
    | Terminal

  /** The events a provider stream yields and the message its result promise resolves to. */
  datatype StreamScript = StreamScript(events: seq<StreamEvent>, outcome: AssistantMessage)

  /** The events read before the loop returns: everything ahead of the first terminal one. */
  function Consumed(events: seq<StreamEvent>): seq<StreamEvent> {
    if events == [] || events[0].Terminal? then []
    else [events[0]] + Consumed(events[1..])
  }

  function StartCount(events: seq<StreamEvent>): nat {
    if events == [] then 0
    else StartCount(events[..|events| - 1]) + (if events[|events| - 1].Start? then 1 else 0)
  }

  /** The partial messages standing at the end of the context after `events`. */
  function Partials(events: seq<StreamEvent>): seq<Message> {
    if events == [] then []
    else
      var before := Partials(events[..|events| - 1]);
      match events[|events| - 1]
      case Start(p) => before + [p]
      case Delta(p) => if before == [] then [] else before[..|before| - 1] + [p]
      case Terminal => before
  }

  function PartialEvents(events: seq<StreamEvent>): seq<AgentEvent> {
    if events == [] then []
    else
      var front := events[..|events| - 1];
      match events[|events| - 1]
      case Start(p) => PartialEvents(front) + [MessageStart(p)]
      case Delta(p) => PartialEvents(front) + (if StartCount(front) == 0 then [] else [MessageUpdate(p)])
      case Terminal => PartialEvents(front)
  }

  /** What one call appends to the context. */
  function StreamContext(script: StreamScript): seq<Message> {
    var partials := Partials(Consumed(script.events));
    if partials == [] then [script.outcome]
    else partials[..|partials| - 1] + [script.outcome]
  }

  /** What one call emits. */
  function StreamTrace(script: StreamScript): seq<AgentEvent> {
    var read := Consumed(script.events);
    PartialEvents(read) +
    (if StartCount(read) == 0 then [MessageStart(script.outcome)] else []) +
    [MessageEnd(script.outcome)]
  }

  /** The stream protocol as far as the loop relies on it: at most one start is read. */
  predicate OneStart(script: StreamScript) {
    StartCount(Consumed(script.events)) <= 1
  }

  /** A prefix of unread-terminal-free events is consumed as it stands. */
  lemma {:induction false} ConsumedPrefix(events: seq<StreamEvent>, n: nat)
    requires n <= |events| && forall k :: 0 <= k < n ==> !events[k].Terminal?
    requires n < |events| ==> events[n].Terminal?
    ensures Consumed(events) == events[..n]
  {
    if n > 0 {
      ConsumedPrefix(events[1..], n - 1);
      assert events[..n] == [events[0]] + events[1..][..n - 1];
    }
  }

  lemma NothingRead()
    ensures StartCount([]) == 0 && Partials([]) == [] && PartialEvents([]) == []
  {}

  /** How reading one more event extends what the context and the trace hold. */
  lemma ReadOneMore(events: seq<StreamEvent>, i: nat)
    requires i < |events|
    ensures var e := events[i]; var before, now := events[..i], events[..i + 1];
      && (e.Start? ==>
        && StartCount(now) > 0 && Partials(now) == Partials(before) + [e.partial]
        && PartialEvents(now) == PartialEvents(before) + [MessageStart(e.partial)])
      && (e.Delta? && StartCount(before) > 0 ==>
        && StartCount(now) > 0 && Partials(before) != []
        && Partials(now) == Partials(before)[..|Partials(before)| - 1] + [e.partial]
        && PartialEvents(now) == PartialEvents(before) + [MessageUpdate(e.partial)])
      && (e.Delta? && StartCount(before) == 0 ==>
        StartCount(now) == 0 && Partials(now) == Partials(before) && PartialEvents(now) == PartialEvents(before))
  {
    assert events[..i + 1][..i] == events[..i];
    OnePartialPerStart(events[..i]);
  }

  /** Reads the stream up to its terminal event or its end, keeping the newest partial message
      last in the context. */
  method ReadPartials(context: MessageList, script: StreamScript, sink: AgentState)
      returns (addedPartial: bool)
    requires sink.Valid()
    modifies context, sink
    ensures sink.Valid() && sink.origin == old(sink.origin)
    ensures addedPartial <==> StartCount(Consumed(script.events)) > 0
    ensures context.items == old(context.items) + Partials(Consumed(script.events))
    ensures sink.trace == old(sink.trace) + PartialEvents(Consumed(script.events))
  {
    hide ReduceAll, Partials, PartialEvents, StartCount;
    addedPartial := false;
    NothingRead();
    var i := 0;
    while i < |script.events|
      invariant 0 <= i <= |script.events|
      invariant forall k :: 0 <= k < i ==> !script.events[k].Terminal?
      invariant sink.Valid() && sink.origin == old(sink.origin)
      invariant addedPartial <==> StartCount(script.events[..i]) > 0
      invariant context.items == old(context.items) + Partials(script.events[..i])
      invariant sink.trace == old(sink.trace) + PartialEvents(script.events[..i])
    {
      ReadOneMore(script.events, i);
      match script.events[i] {
        case Start(partial) =>
          context.Push(partial);
          addedPartial := true;
          sink.ProcessEvent(MessageStart(partial));
        case Delta(partial) =>
          if addedPartial {
            context.SetLast(partial);
            sink.ProcessEvent(MessageUpdate(partial));
          }
        case Terminal =>
          break;
      }
      i := i + 1;
    }
    ConsumedPrefix(script.events, i);
  }

  method StreamAssistantResponse(context: MessageList, script: StreamScript, sink: AgentState)
      returns (message: AssistantMessage)
    requires sink.Valid()
    modifies context, sink
    ensures message == script.outcome
    ensures sink.Valid() && sink.origin == old(sink.origin)
    ensures context.items == old(context.items) + StreamContext(script)
    ensures sink.trace == old(sink.trace) + StreamTrace(script)
  {
    hide ReduceAll;
    var addedPartial := ReadPartials(context, script, sink);
    OnePartialPerStart(Consumed(script.events));
    message := script.outcome;
    if addedPartial {
      context.SetLast(message);
    } else {
      context.Push(message);
      sink.ProcessEvent(MessageStart(message));
    }
    sink.ProcessEvent(MessageEnd(message));
  }

  // ---- A protocol-respecting stream refines a single append ----

  lemma {:induction false} OnePartialPerStart(events: seq<StreamEvent>)
    ensures |Partials(events)| == StartCount(events)
  {
    if events != [] {
      OnePartialPerStart(events[..|events| - 1]);
    }
  }

  /** The context gains exactly the final message just when the stream starts at most once;
      every further start leaves one stale partial message behind. */
  lemma StreamingIsOneAppend(script: StreamScript)
    ensures StreamContext(script) == [script.outcome] <==> OneStart(script)
    ensures OneStart(script) || |StreamContext(script)| == StartCount(Consumed(script.events))
  {
    OnePartialPerStart(Consumed(script.events));
  }

  function MessageStartCount(trace: seq<AgentEvent>): nat {
    if trace == [] then 0
    else MessageStartCount(trace[..|trace| - 1]) + (if trace[|trace| - 1].MessageStart? then 1 else 0)
  }

  predicate AllUpdates(trace: seq<AgentEvent>) {
    forall e <- trace :: e.MessageUpdate?
  }

  /** While a stream is read: nothing, or one start per `Start` with the updates behind them. */
  lemma {:induction false} PartialEventShape(events: seq<StreamEvent>)
    ensures MessageStartCount(PartialEvents(events)) == StartCount(events)
    ensures StartCount(events) == 0 ==> PartialEvents(events) == []
    ensures StartCount(events) == 1 ==>
      PartialEvents(events) != [] && PartialEvents(events)[0].MessageStart? && AllUpdates(PartialEvents(events)[1..])
    ensures forall e <- PartialEvents(events) :: e.MessageStart? || e.MessageUpdate?
  {
    if events != [] {
      var front := PartialEvents(events[..|events| - 1]);
      PartialEventShape(events[..|events| - 1]);
      var all := PartialEvents(events);
      if |all| == |front| {
        assert all == front;
      } else {
        assert all[..|all| - 1] == front;
        if front != [] {
          assert all[1..] == front[1..] + [all[|all| - 1]];
        }
      }
    }
  }

  /** A protocol-respecting call emits one start, updates, and the end of the final message;
      otherwise it emits one start for each `Start` it read. */
  lemma StreamTraceShape(script: StreamScript)
    ensures var trace := StreamTrace(script);
      && |trace| >= 2 && trace[0].MessageStart?
      && trace[|trace| - 1] == MessageEnd(script.outcome)
      && (AllUpdates(trace[1..|trace| - 1]) <==> OneStart(script))
      && (MessageStartCount(trace) == 1 <==> OneStart(script))
  {
    var read := Consumed(script.events);
    var trace := StreamTrace(script);
    var early := PartialEvents(read);
    PartialEventShape(read);
    assert trace[..|trace| - 1] == early + (if StartCount(read) == 0 then [MessageStart(script.outcome)] else []);
    if StartCount(read) == 0 {
      assert trace == [MessageStart(script.outcome), MessageEnd(script.outcome)];
      assert MessageStartCount(trace[..1]) == 1;
    } else {
      assert trace[..|trace| - 1] == early;
      FirstEventIsStart(read);
      if StartCount(read) > 1 && AllUpdates(trace[1..|trace| - 1]) {
        assert trace[1..|trace| - 1] == early[1..];
        OneStartThenUpdates(early);
      } else if StartCount(read) == 1 {
        assert trace[1..|trace| - 1] == early[1..];
      }
    }
  }

  lemma {:induction false} FirstEventIsStart(events: seq<StreamEvent>)
    requires StartCount(events) > 0
    ensures PartialEvents(events) != [] && PartialEvents(events)[0].MessageStart?
  {
    var front := events[..|events| - 1];
    if StartCount(front) > 0 {
      FirstEventIsStart(front);
    } else {
      PartialEventShape(front);
    }
  }

  lemma {:induction false} OneStartThenUpdates(trace: seq<AgentEvent>)
    requires trace != [] && trace[0].MessageStart? && AllUpdates(trace[1..])
    ensures MessageStartCount(trace) == 1
  {
    var front := trace[..|trace| - 1];
    if |trace| > 1 {
      assert front[1..] == trace[1..][..|trace| - 2];
      OneStartThenUpdates(front);
      assert trace[|trace| - 1] == trace[1..][|trace| - 2];
      assert trace[|trace| - 1] in trace[1..];
    } else {
      assert front == [];
    }
  }

  /** Only the final message is reported as finished, whatever the stream did. */
  lemma StreamEndsOnce(script: StreamScript, id: string)
    ensures MessageEnds(StreamTrace(script)) == [script.outcome]
    ensures ToolEvents(StreamTrace(script), id) == []
  {
    hide MessageEnds, ToolEvents, PartialEvents, StartCount, MessageStartCount;
    var read := Consumed(script.events);
    PartialEventShape(read);
    var early := PartialEvents(read) + if StartCount(read) == 0 then [MessageStart(script.outcome)] else [];
    assert StreamTrace(script) == early + [MessageEnd(script.outcome)];
    UnfinishedTraceEndsNothing(early, id);
    MessageEndsAppend(early, [MessageEnd(script.outcome)]);
    ToolEventsAppend(early, [MessageEnd(script.outcome)], id);
    EndEndsOne(script.outcome, id);
  }

  lemma EndEndsOne(message: Message, id: string)
    ensures MessageEnds([MessageEnd(message)]) == [message] && ToolEvents([MessageEnd(message)], id) == []
  {
    assert [MessageEnd(message)][..0] == [];
  }

  lemma {:induction false} UnfinishedTraceEndsNothing(trace: seq<AgentEvent>, id: string)
    requires forall e <- trace :: e.MessageStart? || e.MessageUpdate?
    ensures MessageEnds(trace) == [] && ToolEvents(trace, id) == []
  {
    if trace != [] {
      var last := trace[|trace| - 1];
      assert last in trace;
      UnfinishedTraceEndsNothing(trace[..|trace| - 1], id);
    }
  }

  // ---- The events of a stream, one by one ----

  predicate OnlyDeltas(events: seq<StreamEvent>) {
    forall e <- events :: e.Delta?
  }

  function Updates(deltas: seq<StreamEvent>): seq<AgentEvent>
    requires OnlyDeltas(deltas)
  {
    seq(|deltas|, k requires 0 <= k < |deltas| => assert deltas[k] in deltas; MessageUpdate(deltas[k].partial))
  }

  /** Nothing is read behind a terminal event or the end of the stream. */
  ghost predicate Ends(rest: seq<StreamEvent>) {
    rest == [] || rest[0].Terminal?
  }

  /** A stream that starts once reports the message it starts with, then the message of every delta behind
      that start, and ends with its final message; deltas ahead of the start and everything behind a
      terminal event leave no trace. */
  lemma StartedStreamReports(early: seq<StreamEvent>, start: StreamEvent, deltas: seq<StreamEvent>, rest: seq<StreamEvent>,
                             script: StreamScript)
    requires OnlyDeltas(early) && start.Start? && OnlyDeltas(deltas) && Ends(rest)
    requires script.events == early + [start] + deltas + rest
    ensures StreamTrace(script) == [MessageStart(start.partial)] + Updates(deltas) + [MessageEnd(script.outcome)]
    ensures StreamContext(script) == [script.outcome]
  {
    hide Partials, PartialEvents, StartCount;
    var read := early + [start] + deltas;
    ReadUpTo(read, rest);
    NotStarted(early);
    StartedOnce(early, start, deltas);
  }

  /** A stream that never starts reports its final message alone, as started and ended. */
  lemma UnstartedStreamReports(early: seq<StreamEvent>, rest: seq<StreamEvent>, script: StreamScript)
    requires OnlyDeltas(early) && Ends(rest) && script.events == early + rest
    ensures StreamTrace(script) == [MessageStart(script.outcome), MessageEnd(script.outcome)]
    ensures StreamContext(script) == [script.outcome]
  {
    hide Partials, PartialEvents, StartCount;
    ReadUpTo(early, rest);
    NotStarted(early);
    assert [] + [MessageStart(script.outcome)] + [MessageEnd(script.outcome)]
        == [MessageStart(script.outcome), MessageEnd(script.outcome)];
  }

  lemma ReadUpTo(read: seq<StreamEvent>, rest: seq<StreamEvent>)
    requires (forall e <- read :: !e.Terminal?) && Ends(rest)
    ensures Consumed(read + rest) == read
  {
    var all := read + rest;
    assert all[..|read|] == read;
    assert forall k :: 0 <= k < |read| ==> all[k] in read;
    ConsumedPrefix(all, |read|);
  }

  lemma {:induction false} NotStarted(early: seq<StreamEvent>)
    requires OnlyDeltas(early)
    ensures StartCount(early) == 0 && Partials(early) == [] && PartialEvents(early) == []
  {
    if early != [] {
      assert early[|early| - 1] in early;
      NotStarted(early[..|early| - 1]);
    }
  }

  lemma {:induction false} StartedOnce(early: seq<StreamEvent>, start: StreamEvent, deltas: seq<StreamEvent>)
    requires OnlyDeltas(early) && start.Start? && OnlyDeltas(deltas)
    ensures var read := early + [start] + deltas;
      && StartCount(read) == 1 && |Partials(read)| == 1
      && PartialEvents(read) == [MessageStart(start.partial)] + Updates(deltas)
  {
    hide StartCount, Partials, PartialEvents;
    var read := early + [start] + deltas;
    var n := |read| - 1;
    ReadOneMore(read, n);
    assert read[..n + 1] == read;
    NotStarted(early);
    if deltas == [] {
      assert read[..n] == early && read[n] == start;
      OneStarted(early, start);
    } else {
      var front, last := deltas[..|deltas| - 1], deltas[|deltas| - 1];
      assert last in deltas && read[..n] == early + [start] + front && read[n] == last;
      StartedOnce(early, start, front);
      OneMoreDelta(early + [start] + front, last);
      assert read == early + [start] + front + [last];
      assert Updates(deltas) == Updates(front) + [MessageUpdate(last.partial)];
    }
  }

  lemma OneStarted(early: seq<StreamEvent>, start: StreamEvent)
    requires start.Start? && StartCount(early) == 0 && Partials(early) == []
    ensures StartCount(early + [start]) == 1 && |Partials(early + [start])| == 1
  {
    assert (early + [start])[..|early|] == early;
  }

  lemma OneMoreDelta(front: seq<StreamEvent>, last: StreamEvent)
    requires last.Delta? && StartCount(front) == 1 && |Partials(front)| == 1
    ensures StartCount(front + [last]) == 1 && |Partials(front + [last])| == 1
  {
    assert (front + [last])[..|front|] == front;
  }
}
