/** The state an `Agent` keeps about its transcript, and how each emitted event changes it. */
module AgentStates {
  import opened AgentTypes

  datatype StateValue = StateValue(
    messages: seq<Message>,
    isStreaming: bool,
    streamingMessage: Option<Message>,
    pendingToolCalls: set<string>,
    errorMessage: Option<string>)

  function Reduce(v: StateValue, e: AgentEvent): StateValue {
    match e
    case MessageStart(m) => v.(streamingMessage := Some(m))
    case MessageUpdate(m) => v.(streamingMessage := Some(m))
    case MessageEnd(m) => v.(streamingMessage := None, messages := v.messages + [m])
    case ToolExecutionStart(id, _, _) => v.(pendingToolCalls := v.pendingToolCalls + {id})
    case ToolExecutionEnd(id, _, _, _) => v.(pendingToolCalls := v.pendingToolCalls - {id})
    case TurnEnd(m, _) =>
      if m.Assistant? && m.errorMessage.Some? && m.errorMessage.value != ""
      then v.(errorMessage := m.errorMessage)
      else v
    case AgentEnd(_) => v.(streamingMessage := None)
    case _ => v
  }

  function ReduceAll(v: StateValue, trace: seq<AgentEvent>): StateValue {
    if trace == [] then v
    else Reduce(ReduceAll(v, trace[..|trace| - 1]), trace[|trace| - 1])
  }

  lemma ReduceOneMore(v: StateValue, trace: seq<AgentEvent>, e: AgentEvent)
    ensures ReduceAll(v, trace + [e]) == Reduce(ReduceAll(v, trace), e)
  {
    assert (trace + [e])[..|trace|] == trace;
  }

  /** The mutable state, with the events it has reduced since `origin` was its value. */
  class AgentState {
    var messages: seq<Message>
    var isStreaming: bool
    var streamingMessage: Option<Message>
    var pendingToolCalls: set<string>
    var errorMessage: Option<string>
    ghost var origin: StateValue
    ghost var trace: seq<AgentEvent>

    function Value(): StateValue
      reads this
    {
      StateValue(messages, isStreaming, streamingMessage, pendingToolCalls, errorMessage)
    }

    ghost predicate Valid()
      reads this
    {
      Value() == ReduceAll(origin, trace)
    }

    constructor (messages: seq<Message>)
      ensures Valid() && trace == []
      ensures Value() == StateValue(messages, false, None, {}, None)
    {
      this.messages := messages;
      isStreaming := false;
      streamingMessage := None;
      pendingToolCalls := {};
      errorMessage := None;
      origin := StateValue(messages, false, None, {}, None);
      trace := [];
    }

    /** Assigns the state outside the event stream; the trace restarts here. */
    method Assign(v: StateValue)
      modifies this
      ensures Valid() && Value() == origin == v && trace == []
    {
      messages := v.messages;
      isStreaming := v.isStreaming;
      streamingMessage := v.streamingMessage;
      pendingToolCalls := v.pendingToolCalls;
      errorMessage := v.errorMessage;
      origin := v;
      trace := [];
    }

    method ProcessEvent(event: AgentEvent)
      requires Valid()
      modifies this
      ensures Valid() && origin == old(origin)
      ensures trace == old(trace) + [event]
      ensures Value() == Reduce(old(Value()), event)
    {
      hide ReduceAll;
      match event {
        case MessageStart(m) => streamingMessage := Some(m);
        case MessageUpdate(m) => streamingMessage := Some(m);
        case MessageEnd(m) =>
          streamingMessage := None;
          messages := messages + [m];
        case ToolExecutionStart(id, _, _) => pendingToolCalls := pendingToolCalls + {id};
        case ToolExecutionEnd(id, _, _, _) => pendingToolCalls := pendingToolCalls - {id};
        case TurnEnd(m, _) =>
          if m.Assistant? && m.errorMessage.Some? && m.errorMessage.value != "" {
            errorMessage := m.errorMessage;
          }
        case AgentEnd(_) => streamingMessage := None;
        case AgentStart =>
        case TurnStart =>
        case ToolExecutionUpdate(_, _, _, _) =>
      }
      trace := trace + [event];
      ReduceOneMore(origin, old(trace), event);
    }
  }

  // ---- What a whole trace does to the state ----

  function MessageEnds(trace: seq<AgentEvent>): seq<Message> {
    if trace == [] then []
    else
      MessageEnds(trace[..|trace| - 1]) +
      (var e := trace[|trace| - 1]; if e.MessageEnd? then [e.message] else [])
  }

  predicate AboutCall(e: AgentEvent, id: string) {
    (e.ToolExecutionStart? || e.ToolExecutionUpdate? || e.ToolExecutionEnd?) && e.toolCallId == id
  }

  function ToolEvents(trace: seq<AgentEvent>, id: string): seq<AgentEvent> {
    if trace == [] then []
    else
      ToolEvents(trace[..|trace| - 1], id) +
      (var e := trace[|trace| - 1]; if AboutCall(e, id) then [e] else [])
  }

  /** Whether a call is open after its own events, given whether it was open before. */
  predicate OpenAfter(open: bool, events: seq<AgentEvent>) {
    if events == [] then open
    else
      var e := events[|events| - 1];
      if e.ToolExecutionStart? then true
      else if e.ToolExecutionEnd? then false
      else OpenAfter(open, events[..|events| - 1])
  }

  lemma EmptyTrace(id: string)
    ensures MessageEnds([]) == [] && ToolEvents([], id) == []
  {}

  lemma {:induction false} MessageEndsAppend(a: seq<AgentEvent>, b: seq<AgentEvent>)
    ensures MessageEnds(a + b) == MessageEnds(a) + MessageEnds(b)
  {
    if b == [] {
      assert a + b == a;
    } else {
      MessageEndsAppend(a, b[..|b| - 1]);
      assert (a + b)[..|a + b| - 1] == a + b[..|b| - 1];
    }
  }

  lemma {:induction false} ToolEventsAppend(a: seq<AgentEvent>, b: seq<AgentEvent>, id: string)
    ensures ToolEvents(a + b, id) == ToolEvents(a, id) + ToolEvents(b, id)
  {
    if b == [] {
      assert a + b == a;
    } else {
      ToolEventsAppend(a, b[..|b| - 1], id);
      assert (a + b)[..|a + b| - 1] == a + b[..|b| - 1];
    }
  }

  lemma {:induction false} ReduceAllAppend(v: StateValue, a: seq<AgentEvent>, b: seq<AgentEvent>)
    ensures ReduceAll(v, a + b) == ReduceAll(ReduceAll(v, a), b)
  {
    if b == [] {
      assert a + b == a;
    } else {
      ReduceAllAppend(v, a, b[..|b| - 1]);
      assert (a + b)[..|a + b| - 1] == a + b[..|b| - 1];
    }
  }

  /** The folded transcript is the old one followed by the finished messages, in order and once each. */
  lemma {:induction false} TranscriptIsMessageEnds(v: StateValue, trace: seq<AgentEvent>)
    ensures ReduceAll(v, trace).messages == v.messages + MessageEnds(trace)
  {
    if trace != [] {
      TranscriptIsMessageEnds(v, trace[..|trace| - 1]);
    }
  }

  /** A call is pending exactly when its own latest start or end event is a start. */
  lemma {:induction false} PendingIsOpenCalls(v: StateValue, trace: seq<AgentEvent>, id: string)
    ensures id in ReduceAll(v, trace).pendingToolCalls
       <==> OpenAfter(id in v.pendingToolCalls, ToolEvents(trace, id))
  {
    hide ReduceAll, ToolEvents;
    LastEvent(v, trace, id);
    if trace != [] {
      var front, e := trace[..|trace| - 1], trace[|trace| - 1];
      PendingIsOpenCalls(v, front, id);
      var own := ToolEvents(trace, id);
      if AboutCall(e, id) {
        assert own[..|own| - 1] == ToolEvents(front, id) && own[|own| - 1] == e;
      }
    }
  }

  lemma LastEvent(v: StateValue, trace: seq<AgentEvent>, id: string)
    ensures trace == [] ==> ReduceAll(v, trace) == v && ToolEvents(trace, id) == []
    ensures trace != [] ==> var front, e := trace[..|trace| - 1], trace[|trace| - 1];
      && ReduceAll(v, trace) == Reduce(ReduceAll(v, front), e)
      && ToolEvents(trace, id) == if AboutCall(e, id) then ToolEvents(front, id) + [e] else ToolEvents(front, id)
  {}

  /** The events do not touch the streaming flag; only the wrapper sets it. */
  lemma {:induction false} EventsKeepStreamingFlag(v: StateValue, trace: seq<AgentEvent>)
    ensures ReduceAll(v, trace).isStreaming == v.isStreaming
  {
    if trace != [] {
      EventsKeepStreamingFlag(v, trace[..|trace| - 1]);
    }
  }

  lemma {:induction false} PairsAppend(a: seq<Message>, b: seq<Message>)
    ensures Pairs(a + b) == Pairs(a) + Pairs(b)
  {
    if b == [] {
      assert a + b == a;
    } else {
      PairsAppend(a, b[..|b| - 1]);
      assert (a + b)[..|a + b| - 1] == a + b[..|b| - 1];
    }
  }

  lemma {:induction false} PairsCarryTheirMessages(messages: seq<Message>, id: string)
    ensures MessageEnds(Pairs(messages)) == messages
    ensures ToolEvents(Pairs(messages), id) == []
  {
    if messages != [] {
      var front := messages[..|messages| - 1];
      var last := Pair(messages[|messages| - 1]);
      PairsCarryTheirMessages(front, id);
      PairHasNoToolEvent(messages[|messages| - 1], id);
      MessageEndsAppend(Pairs(front), last);
      ToolEventsAppend(Pairs(front), last, id);
      assert messages == front + [messages[|messages| - 1]];
    }
  }

  lemma PairHasNoToolEvent(message: Message, id: string)
    ensures MessageEnds(Pair(message)) == [message] && ToolEvents(Pair(message), id) == []
  {
    var p := Pair(message);
    assert p[..1] == [MessageStart(message)];
    assert MessageEnds(p[..1]) == [] && ToolEvents(p[..1], id) == [];
  }

  // ---- What is streaming, and which error is shown ----

  /** The message being streamed after a trace: that of its latest start or update, unless a message or the
      run ended behind it. */
  function Speaking(trace: seq<AgentEvent>, before: Option<Message>): Option<Message> {
    if trace == [] then before
    else
      var e := trace[|trace| - 1];
      if e.MessageStart? || e.MessageUpdate? then Some(e.message)
      else if e.MessageEnd? || e.AgentEnd? then None
      else Speaking(trace[..|trace| - 1], before)
  }

  /** The error text of the latest turn whose assistant message carries one. */
  function LatestError(trace: seq<AgentEvent>, before: Option<string>): Option<string> {
    if trace == [] then before
    else
      match trace[|trace| - 1]
      case TurnEnd(Assistant(_, _, Some(error)), _) =>
        if error == "" then LatestError(trace[..|trace| - 1], before) else Some(error)
      case _ => LatestError(trace[..|trace| - 1], before)
  }

  lemma {:induction false} StateShowsTheLatest(v: StateValue, trace: seq<AgentEvent>)
    ensures ReduceAll(v, trace).streamingMessage == Speaking(trace, v.streamingMessage)
    ensures ReduceAll(v, trace).errorMessage == LatestError(trace, v.errorMessage)
  {
    if trace != [] {
      StateShowsTheLatest(v, trace[..|trace| - 1]);
    }
  }
}
