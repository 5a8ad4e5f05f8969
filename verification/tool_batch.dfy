/** Executing the tool calls of one assistant message, one by one or concurrently. */
module ToolBatches {
  import opened AgentTypes
  import opened AgentStates

  /** What `beforeToolCall` and `afterToolCall` may answer. */
  datatype BeforeResult = BeforeResult(block: bool, reason: Option<string>)
  datatype AfterResult = AfterResult(
    text: Option<string>, details: Option<Json>, isError: Option<bool>, terminate: Option<bool>)

  /** Everything foreign that one call meets: the tool, its argument check and the two hooks. */
  datatype ToolBehaviour = ToolBehaviour(
    registered: bool,
    runsSequentially: bool,
    arguments: Attempt<Json>,
    before: Option<Attempt<Option<BeforeResult>>>,
    updates: seq<ToolOutput>,
    execution: Attempt<ToolOutput>,
    after: Option<Attempt<Option<AfterResult>>>)

  /** One batch: the behaviour met by the call at each source position, the configured mode,
      and what `signal.aborted` reads at each position where the code looks at it.
      Call `i` looks at 3i (after the before-hook), 3i+1 (before running) and 3i+2 (batch break). */
  datatype BatchWorld = BatchWorld(
    sequential: bool, behave: nat -> ToolBehaviour, aborted: nat -> bool)

  datatype Preparation = Immediate(output: ToolOutput, isError: bool) | Prepared(args: Json)

  datatype Executed = Executed(output: ToolOutput, isError: bool)

  datatype Finalized = Finalized(call: ToolCall, output: ToolOutput, isError: bool)

  function ErrorOutput(message: string): ToolOutput {
    ToolOutput(message, JObject([]), None)
  }

  function PrepareToolCall(call: ToolCall, b: ToolBehaviour, abortedAfterHook: bool, abortedBeforeRun: bool): Preparation {
    if !b.registered then Immediate(ErrorOutput("Tool " + call.name + " not found"), true)
    else match b.arguments
      case Threw(error) => Immediate(ErrorOutput(error), true)
      case Returned(args) =>
        match b.before
        case Some(Threw(error)) => Immediate(ErrorOutput(error), true)
        case Some(Returned(answer)) =>
          if abortedAfterHook then Immediate(ErrorOutput("Operation aborted"), true)
          else if answer.Some? && answer.value.block then Immediate(ErrorOutput(BlockReason(answer.value.reason)), true)
          else if abortedBeforeRun then Immediate(ErrorOutput("Operation aborted"), true)
          else Prepared(args)
        case None =>
          if abortedBeforeRun then Immediate(ErrorOutput("Operation aborted"), true)
          else Prepared(args)
  }

  function BlockReason(reason: Option<string>): string {
    if reason.Some? && reason.value != "" then reason.value else "Tool execution was blocked"
  }

  function ExecuteToolCall(b: ToolBehaviour): Executed {
    match b.execution
    case Returned(output) => Executed(output, false)
    case Threw(error) => Executed(ErrorOutput(error), true)
  }

  function FinalizeToolCall(call: ToolCall, b: ToolBehaviour, executed: Executed): Finalized {
    match b.after
    case None => Finalized(call, executed.output, executed.isError)
    case Some(Threw(error)) => Finalized(call, ErrorOutput(error), true)
    case Some(Returned(None)) => Finalized(call, executed.output, executed.isError)
    case Some(Returned(Some(after))) =>
      Finalized(
        call,
        ToolOutput(
          after.text.GetOr(executed.output.text),
          after.details.GetOr(executed.output.details),
          if after.terminate.Some? then after.terminate else executed.output.terminate),
        after.isError.GetOr(executed.isError))
  }

  function ResultMessage(f: Finalized): Message {
    ToolResult(f.call.id, f.call.name, f.output.text, f.output.details, f.isError)
  }

  function StartEvent(call: ToolCall): AgentEvent {
    ToolExecutionStart(call.id, call.name, call.arguments)
  }

  function EndEvent(f: Finalized): AgentEvent {
    ToolExecutionEnd(f.call.id, f.call.name, f.output, f.isError)
  }

  function UpdateEvents(call: ToolCall, updates: seq<ToolOutput>): seq<AgentEvent> {
    seq(|updates|, k requires 0 <= k < |updates| => ToolExecutionUpdate(call.id, call.name, call.arguments, updates[k]))
  }

  // ---- The batch as a function of its world ----

  function PreparationOf(calls: seq<ToolCall>, w: BatchWorld, i: nat): Preparation
    requires i < |calls|
  {
    PrepareToolCall(calls[i], w.behave(i), w.aborted(3 * i), w.aborted(3 * i + 1))
  }

  /** How the call at position `i` ends, however the batch is scheduled. */
  function Outcome(calls: seq<ToolCall>, w: BatchWorld, i: nat): Finalized
    requires i < |calls|
  {
    match PreparationOf(calls, w, i)
    case Immediate(output, isError) => Finalized(calls[i], output, isError)
    case Prepared(_) => FinalizeToolCall(calls[i], w.behave(i), ExecuteToolCall(w.behave(i)))
  }

  /** How many calls are started: all of them, or up to the one after which the abort is seen. */
  function Reached(calls: seq<ToolCall>, w: BatchWorld, from: nat): (n: nat)
    requires from <= |calls|
    ensures from <= n <= |calls|
    decreases |calls| - from
  {
    if from == |calls| then from
    else if w.aborted(3 * from + 2) then from + 1
    else Reached(calls, w, from + 1)
  }

  function Outcomes(calls: seq<ToolCall>, w: BatchWorld, n: nat): (fs: seq<Finalized>)
    requires n <= |calls|
    ensures |fs| == n
  {
    if n == 0 then [] else Outcomes(calls, w, n - 1) + [Outcome(calls, w, n - 1)]
  }

  function ResultMessages(fs: seq<Finalized>): (messages: seq<Message>)
    ensures |messages| == |fs|
  {
    if fs == [] then [] else ResultMessages(fs[..|fs| - 1]) + [ResultMessage(fs[|fs| - 1])]
  }

  predicate ShouldTerminate(fs: seq<Finalized>) {
    |fs| > 0 && forall f <- fs :: f.output.terminate == Some(true)
  }

  function BatchOutcomes(calls: seq<ToolCall>, w: BatchWorld): seq<Finalized> {
    Outcomes(calls, w, Reached(calls, w, 0))
  }

  /** The result messages of a batch and whether it asks the run to stop. */
  function BatchMessages(calls: seq<ToolCall>, w: BatchWorld): seq<Message> {
    ResultMessages(BatchOutcomes(calls, w))
  }

  predicate BatchTerminates(calls: seq<ToolCall>, w: BatchWorld) {
    ShouldTerminate(BatchOutcomes(calls, w))
  }

  predicate RunsSequentially(calls: seq<ToolCall>, w: BatchWorld) {
    w.sequential || exists i :: 0 <= i < |calls| && w.behave(i).registered && w.behave(i).runsSequentially
  }

  // ---- What an answer is, field by field ----

  /** Whether a tool runs: it is registered, its arguments are accepted, no hook threw or blocked it, and the
      abort signal was not set at either of the two places where it is looked at. */
  ghost predicate Runs(b: ToolBehaviour, abortedAfterHook: bool, abortedBeforeRun: bool) {
    && b.registered && b.arguments.Returned? && !abortedBeforeRun
    && (b.before.Some? ==>
         && b.before.value.Returned? && !abortedAfterHook
         && (b.before.value.value.Some? ==> !b.before.value.value.value.block))
  }

  /** The answer of a call that never ran: an error that says why. */
  ghost predicate Refused(call: ToolCall, b: ToolBehaviour, abortedAfterHook: bool, output: ToolOutput, isError: bool) {
    && isError && output.details == JObject([]) && output.terminate == None
    && if !b.registered then output.text == "Tool " + call.name + " not found"
       else if b.arguments.Threw? then output.text == b.arguments.error
       else if b.before.Some? && b.before.value.Threw? then output.text == b.before.value.error
       else if b.before.None? || abortedAfterHook then output.text == "Operation aborted"
       else
         match b.before.value.value
         case Some(BeforeResult(true, Some(reason))) =>
           output.text == if reason == "" then "Tool execution was blocked" else reason
         case Some(BeforeResult(true, None)) => output.text == "Tool execution was blocked"
         case _ => output.text == "Operation aborted"
  }

  /** The answer of a call that ran: what the after-hook gives where it gives something, and otherwise what
      the tool returned; an error if either of them threw and nothing was put in its place. */
  ghost predicate Answered(b: ToolBehaviour, output: ToolOutput, isError: bool) {
    var threw := b.execution.Threw?;
    var text := if threw then b.execution.error else b.execution.value.text;
    var details := if threw then JObject([]) else b.execution.value.details;
    var terminate := if threw then None else b.execution.value.terminate;
    match b.after
    case Some(Threw(error)) => output == ToolOutput(error, JObject([]), None) && isError
    case Some(Returned(Some(given))) =>
      && output.text == (if given.text.Some? then given.text.value else text)
      && output.details == (if given.details.Some? then given.details.value else details)
      && output.terminate == (if given.terminate.Some? then given.terminate else terminate)
      && isError == (if given.isError.Some? then given.isError.value else threw)
    case _ => output == ToolOutput(text, details, terminate) && isError == threw
  }

  /** How call `i` must be answered, in terms of what it meets. */
  ghost predicate AnsweredAs(calls: seq<ToolCall>, w: BatchWorld, i: nat, output: ToolOutput, isError: bool)
    requires i < |calls|
  {
    if Runs(w.behave(i), w.aborted(3 * i), w.aborted(3 * i + 1)) then Answered(w.behave(i), output, isError)
    else Refused(calls[i], w.behave(i), w.aborted(3 * i), output, isError)
  }

  /** The events of one call, in terms of what it meets and how it was answered. */
  ghost predicate EmittedAs(calls: seq<ToolCall>, w: BatchWorld, i: nat, events: seq<AgentEvent>, output: ToolOutput, isError: bool)
    requires i < |calls|
  {
    var call, updates := calls[i], w.behave(i).updates;
    var ran := Runs(w.behave(i), w.aborted(3 * i), w.aborted(3 * i + 1));
    && |events| == (if ran then |updates| else 0) + 2
    && events[0] == ToolExecutionStart(call.id, call.name, call.arguments)
    && events[|events| - 1] == ToolExecutionEnd(call.id, call.name, output, isError)
    && (forall k :: 1 <= k < |events| - 1 ==>
         events[k] == ToolExecutionUpdate(call.id, call.name, call.arguments, updates[k - 1]))
  }

  lemma PreparedExactly(calls: seq<ToolCall>, w: BatchWorld, i: nat)
    requires i < |calls|
    ensures PreparationOf(calls, w, i).Prepared? <==> Runs(w.behave(i), w.aborted(3 * i), w.aborted(3 * i + 1))
    ensures match PreparationOf(calls, w, i)
      case Immediate(output, isError) => Refused(calls[i], w.behave(i), w.aborted(3 * i), output, isError)
      case Prepared(args) => w.behave(i).arguments == Returned(args)
  {}

  /** Every call is answered as it must be. */
  lemma CallIsAnswered(calls: seq<ToolCall>, w: BatchWorld, i: nat)
    requires i < |calls|
    ensures Outcome(calls, w, i).call == calls[i]
    ensures AnsweredAs(calls, w, i, Outcome(calls, w, i).output, Outcome(calls, w, i).isError)
  {
    hide PrepareToolCall, Refused, Runs;
    PreparedExactly(calls, w, i);
  }

  /** What a call that is refused would have done is without effect: neither the tool nor the after-hook
      has a part in its events or its answer. */
  lemma RefusedCallNeverRuns(calls: seq<ToolCall>, w: BatchWorld, v: BatchWorld, i: nat)
    requires i < |calls| && !Runs(w.behave(i), w.aborted(3 * i), w.aborted(3 * i + 1))
    requires v.behave(i) == w.behave(i).(execution := v.behave(i).execution, updates := v.behave(i).updates, after := v.behave(i).after)
    requires v.aborted(3 * i) == w.aborted(3 * i) && v.aborted(3 * i + 1) == w.aborted(3 * i + 1)
    ensures Outcome(calls, v, i) == Outcome(calls, w, i) && Tail(calls, v, i) == Tail(calls, w, i)
  {
    hide UpdateEvents;
    PreparedExactly(calls, w, i);
    PreparedExactly(calls, v, i);
  }

  lemma CallEmits(calls: seq<ToolCall>, w: BatchWorld, i: nat)
    requires i < |calls|
    ensures EmittedAs(calls, w, i, [StartEvent(calls[i])] + Tail(calls, w, i), Outcome(calls, w, i).output, Outcome(calls, w, i).isError)
  {
    hide PrepareToolCall, Refused, Runs, Outcome, Answered;
    PreparedExactly(calls, w, i);
    CallIsAnswered(calls, w, i);
  }

  /** The result message of one call, field by field. */
  ghost predicate AnswersCall(calls: seq<ToolCall>, w: BatchWorld, i: nat, message: Message)
    requires i < |calls|
  {
    exists output: ToolOutput, isError: bool ::
      && AnsweredAs(calls, w, i, output, isError)
      && message == ToolResult(calls[i].id, calls[i].name, output.text, output.details, isError)
  }

  /** The result messages of a batch: one for every call reached, in order. */
  ghost predicate Answers(calls: seq<ToolCall>, w: BatchWorld, messages: seq<Message>) {
    && |messages| == Reached(calls, w, 0)
    && forall i :: 0 <= i < |messages| ==> AnswersCall(calls, w, i, messages[i])
  }

  lemma OutcomeAnswers(calls: seq<ToolCall>, w: BatchWorld, i: nat)
    requires i < |calls|
    ensures AnswersCall(calls, w, i, ResultMessage(Outcome(calls, w, i)))
  {
    hide AnsweredAs, Outcome;
    var f := Outcome(calls, w, i);
    CallIsAnswered(calls, w, i);
    assert AnsweredAs(calls, w, i, f.output, f.isError);
  }

  lemma BatchIsAnswered(calls: seq<ToolCall>, w: BatchWorld)
    ensures Answers(calls, w, BatchMessages(calls, w))
  {
    hide Outcome, AnswersCall, Outcomes, ResultMessages, Reached;
    AnswersReached(calls, w);
    var n, messages := Reached(calls, w, 0), BatchMessages(calls, w);
    forall i | 0 <= i < n ensures AnswersCall(calls, w, i, messages[i]) {
      MessageOfCall(calls, w, n, i);
      OutcomeAnswers(calls, w, i);
    }
  }

  lemma AnswersReached(calls: seq<ToolCall>, w: BatchWorld)
    ensures |BatchMessages(calls, w)| == Reached(calls, w, 0)
  {}

  lemma {:induction false} MessageOfCall(calls: seq<ToolCall>, w: BatchWorld, n: nat, i: nat)
    requires i < n <= |calls|
    ensures ResultMessages(Outcomes(calls, w, n))[i] == ResultMessage(Outcome(calls, w, i))
  {
    hide Outcome, Outcomes, ResultMessages;
    OneMoreCall(calls, w, n - 1);
    if i < n - 1 {
      MessageOfCall(calls, w, n - 1, i);
    }
  }

  // ---- The events of a batch ----

  /** What call `i` emits after its start: nothing but its end when it never runs. */
  function Tail(calls: seq<ToolCall>, w: BatchWorld, i: nat): seq<AgentEvent>
    requires i < |calls|
  {
    (if PreparationOf(calls, w, i).Prepared? then UpdateEvents(calls[i], w.behave(i).updates) else []) +
    [EndEvent(Outcome(calls, w, i))]
  }

  function SequentialTrace(calls: seq<ToolCall>, w: BatchWorld, n: nat): seq<AgentEvent>
    requires n <= |calls|
  {
    if n == 0 then []
    else
      SequentialTrace(calls, w, n - 1) +
      ([StartEvent(calls[n - 1])] + Tail(calls, w, n - 1) + Pair(ResultMessage(Outcome(calls, w, n - 1))))
  }

  /** The first phase of a concurrent batch: starts, and the ends of calls that never run. */
  function Preflight(calls: seq<ToolCall>, w: BatchWorld, n: nat): seq<AgentEvent>
    requires n <= |calls|
  {
    if n == 0 then [] else Preflight(calls, w, n - 1) + PreflightOf(calls, w, n - 1)
  }

  function PreflightOf(calls: seq<ToolCall>, w: BatchWorld, i: nat): seq<AgentEvent>
    requires i < |calls|
  {
    [StartEvent(calls[i])] + if PreparationOf(calls, w, i).Prepared? then [] else [EndEvent(Outcome(calls, w, i))]
  }

  /** The second phase: `schedule` names, step by step, the deferred call that makes progress. */
  function Played(calls: seq<ToolCall>, w: BatchWorld, schedule: seq<nat>): seq<AgentEvent> {
    if schedule == [] then []
    else
      var before, i := schedule[..|schedule| - 1], schedule[|schedule| - 1];
      Played(calls, w, before) +
      if i < |calls| && multiset(before)[i] < |Tail(calls, w, i)| then [Tail(calls, w, i)[multiset(before)[i]]] else []
  }

  /** Every deferred call is stepped to its end, and nothing else is stepped. */
  ghost predicate Complete(calls: seq<ToolCall>, w: BatchWorld, n: nat, schedule: seq<nat>)
    requires n <= |calls|
  {
    && (forall i <- schedule :: i < n && PreparationOf(calls, w, i).Prepared?)
    && (forall i: nat :: i < n && PreparationOf(calls, w, i).Prepared? ==> multiset(schedule)[i] == |Tail(calls, w, i)|)
  }

  ghost predicate LegalSchedule(calls: seq<ToolCall>, w: BatchWorld, schedule: seq<nat>) {
    RunsSequentially(calls, w) || Complete(calls, w, Reached(calls, w, 0), schedule)
  }

  function BatchTrace(calls: seq<ToolCall>, w: BatchWorld, schedule: seq<nat>): seq<AgentEvent> {
    var n := Reached(calls, w, 0);
    if RunsSequentially(calls, w) then SequentialTrace(calls, w, n)
    else Preflight(calls, w, n) + Played(calls, w, schedule) + Pairs(BatchMessages(calls, w))
  }

  // ---- The two executors ----

  method ExecutePreparedToolCall(call: ToolCall, b: ToolBehaviour, sink: AgentState) returns (executed: Executed)
    requires sink.Valid()
    modifies sink
    ensures executed == ExecuteToolCall(b)
    ensures sink.Valid() && sink.origin == old(sink.origin)
    ensures sink.trace == old(sink.trace) + UpdateEvents(call, b.updates)
  {
    hide ReduceAll;
    for k := 0 to |b.updates|
      invariant sink.Valid() && sink.origin == old(sink.origin)
      invariant sink.trace == old(sink.trace) + UpdateEvents(call, b.updates)[..k]
    {
      sink.ProcessEvent(ToolExecutionUpdate(call.id, call.name, call.arguments, b.updates[k]));
    }
    executed := ExecuteToolCall(b);
  }

  method EmitPair(message: Message, sink: AgentState)
    requires sink.Valid()
    modifies sink
    ensures sink.Valid() && sink.origin == old(sink.origin)
    ensures sink.trace == old(sink.trace) + Pair(message)
  {
    hide ReduceAll;
    sink.ProcessEvent(MessageStart(message));
    sink.ProcessEvent(MessageEnd(message));
  }

  lemma EmptyBatch(calls: seq<ToolCall>, w: BatchWorld)
    ensures Outcomes(calls, w, 0) == [] && ResultMessages([]) == []
    ensures SequentialTrace(calls, w, 0) == Preflight(calls, w, 0) == Played(calls, w, []) == []
  {}

  lemma ReachedStep(calls: seq<ToolCall>, w: BatchWorld, i: nat)
    requires i < |calls|
    ensures Reached(calls, w, i) == if w.aborted(3 * i + 2) then i + 1 else Reached(calls, w, i + 1)
  {}

  lemma PreflightStep(calls: seq<ToolCall>, w: BatchWorld, i: nat)
    requires i < |calls|
    ensures Preflight(calls, w, i + 1) == Preflight(calls, w, i) + PreflightOf(calls, w, i)
  {}

  /** How one more call extends a batch; the executors' loops advance by it. */
  lemma OneMoreCall(calls: seq<ToolCall>, w: BatchWorld, i: nat)
    requires i < |calls|
    ensures Outcomes(calls, w, i + 1) == Outcomes(calls, w, i) + [Outcome(calls, w, i)]
    ensures ResultMessages(Outcomes(calls, w, i + 1))
         == ResultMessages(Outcomes(calls, w, i)) + [ResultMessage(Outcome(calls, w, i))]
    ensures SequentialTrace(calls, w, i + 1)
         == SequentialTrace(calls, w, i) + ([StartEvent(calls[i])] + Tail(calls, w, i)) + Pair(ResultMessage(Outcome(calls, w, i)))
  {
    hide Outcome, Tail, PreparationOf;
    var fs := Outcomes(calls, w, i + 1);
    assert fs[..|fs| - 1] == Outcomes(calls, w, i);
  }

  lemma AllReached(calls: seq<ToolCall>, w: BatchWorld)
    ensures Reached(calls, w, |calls|) == |calls|
  {}

  /** One call from its start event to its end event. */
  method RunToolCall(calls: seq<ToolCall>, w: BatchWorld, i: nat, sink: AgentState) returns (finalized: Finalized)
    requires i < |calls| && sink.Valid()
    modifies sink
    ensures finalized == Outcome(calls, w, i)
    ensures finalized.call == calls[i] && AnsweredAs(calls, w, i, finalized.output, finalized.isError)
    ensures sink.Valid() && sink.origin == old(sink.origin)
    ensures sink.trace == old(sink.trace) + ([StartEvent(calls[i])] + Tail(calls, w, i))
    ensures EmittedAs(calls, w, i, sink.trace[|old(sink.trace)|..], finalized.output, finalized.isError)
  {
    hide ReduceAll, AnsweredAs, EmittedAs;
    CallIsAnswered(calls, w, i);
    CallEmits(calls, w, i);
    var toolCall := calls[i];
    sink.ProcessEvent(StartEvent(toolCall));
    var preparation := PrepareToolCall(toolCall, w.behave(i), w.aborted(3 * i), w.aborted(3 * i + 1));
    match preparation {
      case Immediate(output, isError) =>
        finalized := Finalized(toolCall, output, isError);
      case Prepared(_) =>
        var executed := ExecutePreparedToolCall(toolCall, w.behave(i), sink);
        finalized := FinalizeToolCall(toolCall, w.behave(i), executed);
    }
    sink.ProcessEvent(EndEvent(finalized));
    assert sink.trace[|old(sink.trace)|..] == [StartEvent(calls[i])] + Tail(calls, w, i);
  }

  method ExecuteSequential(calls: seq<ToolCall>, w: BatchWorld, sink: AgentState)
      returns (messages: seq<Message>, terminate: bool)
    requires sink.Valid()
    modifies sink
    ensures messages == BatchMessages(calls, w)
    ensures terminate == BatchTerminates(calls, w)
    ensures sink.Valid() && sink.origin == old(sink.origin)
    ensures sink.trace == old(sink.trace) + SequentialTrace(calls, w, Reached(calls, w, 0))
  {
    hide ReduceAll, Outcome, Tail, PreparationOf, Reached, Outcomes, ResultMessages, SequentialTrace;
    var finalizedCalls: seq<Finalized> := [];
    messages := [];
    EmptyBatch(calls, w);
    var i, aborted := 0, false;
    while i < |calls| && !aborted
      invariant i <= |calls| && Reached(calls, w, 0) == if aborted then i else Reached(calls, w, i)
      invariant finalizedCalls == Outcomes(calls, w, i) && messages == ResultMessages(finalizedCalls)
      invariant sink.Valid() && sink.origin == old(sink.origin)
      invariant sink.trace == old(sink.trace) + SequentialTrace(calls, w, i)
      decreases |calls| - i
    {
      ReachedStep(calls, w, i);
      OneMoreCall(calls, w, i);
      var finalized := RunToolCall(calls, w, i, sink);
      var toolResultMessage := ResultMessage(finalized);
      EmitPair(toolResultMessage, sink);
      finalizedCalls := finalizedCalls + [finalized];
      messages := messages + [toolResultMessage];
      ghost var own := [StartEvent(calls[i])] + Tail(calls, w, i);
      AppendAssoc(old(sink.trace), SequentialTrace(calls, w, i), own);
      AppendAssoc(old(sink.trace), SequentialTrace(calls, w, i) + own, Pair(toolResultMessage));
      aborted := w.aborted(3 * i + 2);
      i := i + 1;
    }
    assert i == Reached(calls, w, 0) by { AllReached(calls, w); }
    terminate := ShouldTerminate(finalizedCalls);
  }

  /** What preflight hands to the second phase. */
  ghost predicate Preflighted(calls: seq<ToolCall>, w: BatchWorld, entries: seq<Option<Finalized>>) {
    |entries| <= |calls| && forall i :: 0 <= i < |entries| ==>
      entries[i] == if PreparationOf(calls, w, i).Prepared? then None else Some(Outcome(calls, w, i))
  }

  method PreflightCall(calls: seq<ToolCall>, w: BatchWorld, i: nat, sink: AgentState)
      returns (entry: Option<Finalized>)
    requires i < |calls| && sink.Valid()
    modifies sink
    ensures entry == if PreparationOf(calls, w, i).Prepared? then None else Some(Outcome(calls, w, i))
    ensures sink.Valid() && sink.origin == old(sink.origin)
    ensures sink.trace == old(sink.trace) + PreflightOf(calls, w, i)
  {
    hide ReduceAll, AnsweredAs, EmittedAs;
    CallIsAnswered(calls, w, i);
    CallEmits(calls, w, i);
    var toolCall := calls[i];
    sink.ProcessEvent(StartEvent(toolCall));
    var preparation := PrepareToolCall(toolCall, w.behave(i), w.aborted(3 * i), w.aborted(3 * i + 1));
    match preparation {
      case Immediate(output, isError) =>
        var finalized := Finalized(toolCall, output, isError);
        sink.ProcessEvent(EndEvent(finalized));
        entry := Some(finalized);
      case Prepared(_) =>
        entry := None;
    }
  }

  /** First phase of a concurrent batch. A call that may run is left as `None`, to be finished later. */
  method PreflightCalls(calls: seq<ToolCall>, w: BatchWorld, sink: AgentState)
      returns (entries: seq<Option<Finalized>>)
    requires sink.Valid()
    modifies sink
    ensures |entries| == Reached(calls, w, 0) && Preflighted(calls, w, entries)
    ensures sink.Valid() && sink.origin == old(sink.origin)
    ensures sink.trace == old(sink.trace) + Preflight(calls, w, Reached(calls, w, 0))
  {
    hide ReduceAll, Reached, Preflight, PreflightOf, PreparationOf, Outcome;
    entries := [];
    EmptyBatch(calls, w);
    var i, aborted := 0, false;
    while i < |calls| && !aborted
      invariant i <= |calls| && Reached(calls, w, 0) == if aborted then i else Reached(calls, w, i)
      invariant |entries| == i && Preflighted(calls, w, entries)
      invariant sink.Valid() && sink.origin == old(sink.origin)
      invariant sink.trace == old(sink.trace) + Preflight(calls, w, i)
      decreases |calls| - i
    {
      ReachedStep(calls, w, i);
      PreflightStep(calls, w, i);
      var entry := PreflightCall(calls, w, i, sink);
      entries := entries + [entry];
      AppendAssoc(old(sink.trace), Preflight(calls, w, i), PreflightOf(calls, w, i));
      aborted := w.aborted(3 * i + 2);
      i := i + 1;
    }
    assert i == Reached(calls, w, 0) by { AllReached(calls, w); }
  }

  /** How many events the unfinished calls still have to emit. */
  ghost function Work(calls: seq<ToolCall>, w: BatchWorld, steps: seq<nat>): int
    requires |steps| <= |calls|
  {
    if steps == [] then 0
    else Work(calls, w, steps[..|steps| - 1]) + |Tail(calls, w, |steps| - 1)| - steps[|steps| - 1]
  }

  lemma {:induction false} WorkStep(calls: seq<ToolCall>, w: BatchWorld, steps: seq<nat>, i: nat)
    requires i < |steps| <= |calls|
    ensures Work(calls, w, steps[i := steps[i] + 1]) == Work(calls, w, steps) - 1
  {
    hide Tail;
    var next := steps[i := steps[i] + 1];
    if i == |steps| - 1 {
      assert next[..|next| - 1] == steps[..|steps| - 1];
    } else {
      assert next[..|next| - 1] == steps[..|steps| - 1][i := steps[i] + 1];
      WorkStep(calls, w, steps[..|steps| - 1], i);
    }
  }

  lemma {:induction false} WorkNonNegative(calls: seq<ToolCall>, w: BatchWorld, steps: seq<nat>)
    requires |steps| <= |calls|
    requires forall i :: 0 <= i < |steps| ==> steps[i] <= |Tail(calls, w, i)|
    ensures Work(calls, w, steps) >= 0
  {
    if steps != [] {
      WorkNonNegative(calls, w, steps[..|steps| - 1]);
    }
  }

  lemma OneMoreStep(calls: seq<ToolCall>, w: BatchWorld, schedule: seq<nat>, i: nat)
    requires i < |calls| && multiset(schedule)[i] < |Tail(calls, w, i)|
    ensures Played(calls, w, schedule + [i])
         == Played(calls, w, schedule) + [Tail(calls, w, i)[multiset(schedule)[i]]]
  {
    assert (schedule + [i])[..|schedule|] == schedule;
  }

  /** One event of a deferred call: its next update, or, once those are out, its end. */
  method StepDeferred(calls: seq<ToolCall>, w: BatchWorld, i: nat, step: nat, sink: AgentState)
      returns (done: Option<Finalized>)
    requires i < |calls| && PreparationOf(calls, w, i).Prepared? && step < |Tail(calls, w, i)|
    requires sink.Valid()
    modifies sink
    ensures done == if step + 1 < |Tail(calls, w, i)| then None else Some(Outcome(calls, w, i))
    ensures sink.Valid() && sink.origin == old(sink.origin)
    ensures sink.trace == old(sink.trace) + [Tail(calls, w, i)[step]]
  {
    hide ReduceAll;
    var call, b := calls[i], w.behave(i);
    if step < |b.updates| {
      sink.ProcessEvent(ToolExecutionUpdate(call.id, call.name, call.arguments, b.updates[step]));
      done := None;
    } else {
      var finalized := FinalizeToolCall(call, b, ExecuteToolCall(b));
      sink.ProcessEvent(EndEvent(finalized));
      done := Some(finalized);
    }
  }

  /** Mid-phase: `steps[j]` events of call `j`'s tail are out, and it is done when all of them are. */
  ghost predicate Progress(calls: seq<ToolCall>, w: BatchWorld, entries: seq<Option<Finalized>>,
                           results: seq<Option<Finalized>>, steps: seq<nat>, schedule: seq<nat>) {
    && Preflighted(calls, w, entries)
    && |results| == |steps| == |entries|
    && (forall j :: 0 <= j < |entries| ==>
      && steps[j] <= |Tail(calls, w, j)|
      && results[j] == (if steps[j] < |Tail(calls, w, j)| then None else Some(Outcome(calls, w, j)))
      && multiset(schedule)[j] == (if entries[j].None? then steps[j] else 0)
      && (entries[j].Some? ==> results[j].Some?))
    && (forall j <- schedule :: j < |entries|)
  }

  lemma PreflightedWithin(calls: seq<ToolCall>, w: BatchWorld, entries: seq<Option<Finalized>>)
    requires Preflighted(calls, w, entries)
    ensures |entries| <= |calls|
  {}

  lemma ProgressAtStart(calls: seq<ToolCall>, w: BatchWorld, entries: seq<Option<Finalized>>, steps: seq<nat>)
    requires Preflighted(calls, w, entries) && |steps| == |entries|
    requires forall j :: 0 <= j < |entries| ==> steps[j] == if entries[j].Some? then |Tail(calls, w, j)| else 0
    ensures Progress(calls, w, entries, entries, steps, [])
  {}

  lemma ProgressReady(calls: seq<ToolCall>, w: BatchWorld, entries: seq<Option<Finalized>>,
                      results: seq<Option<Finalized>>, steps: seq<nat>, schedule: seq<nat>, i: nat)
    requires Progress(calls, w, entries, results, steps, schedule)
    requires i < |entries| && results[i].None?
    ensures PreparationOf(calls, w, i).Prepared? && steps[i] == multiset(schedule)[i] < |Tail(calls, w, i)|
  {
    hide Tail, Outcome, PreparationOf;
  }

  lemma ProgressStep(calls: seq<ToolCall>, w: BatchWorld, entries: seq<Option<Finalized>>,
                     results: seq<Option<Finalized>>, steps: seq<nat>, schedule: seq<nat>, i: nat, done: Option<Finalized>)
    requires Progress(calls, w, entries, results, steps, schedule)
    requires i < |entries| && results[i].None?
    requires done == if steps[i] + 1 < |Tail(calls, w, i)| then None else Some(Outcome(calls, w, i))
    ensures Progress(calls, w, entries, results[i := done], steps[i := steps[i] + 1], schedule + [i])
    ensures 0 <= Work(calls, w, steps[i := steps[i] + 1]) < Work(calls, w, steps)
  {
    hide Tail, Outcome, PreparationOf, Work;
    WorkStep(calls, w, steps, i);
    WorkNonNegative(calls, w, steps[i := steps[i] + 1]);
  }

  lemma ProgressDone(calls: seq<ToolCall>, w: BatchWorld, entries: seq<Option<Finalized>>,
                     results: seq<Option<Finalized>>, steps: seq<nat>, schedule: seq<nat>, fs: seq<Finalized>)
    requires Progress(calls, w, entries, results, steps, schedule)
    requires |fs| == |results| && forall j :: 0 <= j < |results| ==> results[j] == Some(fs[j])
    ensures Complete(calls, w, |entries|, schedule)
    ensures fs == Outcomes(calls, w, |entries|)
  {
    hide Tail, Outcome, PreparationOf;
    OutcomesAreTheSequence(calls, w, fs);
    forall i <- schedule ensures i < |entries| && PreparationOf(calls, w, i).Prepared? {
      assert multiset(schedule)[i] > 0;
    }
  }

  /** Second phase of a concurrent batch: at every step any unfinished call may make progress. */
  method RunDeferred(calls: seq<ToolCall>, w: BatchWorld, entries: seq<Option<Finalized>>, sink: AgentState)
      returns (finalizedCalls: seq<Finalized>, ghost schedule: seq<nat>)
    requires Preflighted(calls, w, entries) && sink.Valid()
    modifies sink
    ensures Complete(calls, w, |entries|, schedule)
    ensures finalizedCalls == Outcomes(calls, w, |entries|)
    ensures sink.Valid() && sink.origin == old(sink.origin)
    ensures sink.trace == old(sink.trace) + Played(calls, w, schedule)
  {
    hide ReduceAll, Played, Tail, PreparationOf, Outcome, Work, Progress, Preflighted;
    var results := entries;
    assert |entries| <= |calls| by { PreflightedWithin(calls, w, entries); }
    var steps: seq<nat> := seq(|entries|, j requires 0 <= j < |entries| => if entries[j].Some? then |Tail(calls, w, j)| else 0);
    schedule := [];
    EmptyBatch(calls, w);
    ProgressAtStart(calls, w, entries, steps);
    var unfinished := set j | 0 <= j < |entries| && results[j].None?;
    while unfinished != {}
      invariant |results| == |steps| == |entries| <= |calls|
      invariant Progress(calls, w, entries, results, steps, schedule)
      invariant unfinished == set j | 0 <= j < |entries| && results[j].None?
      invariant sink.Valid() && sink.origin == old(sink.origin)
      invariant sink.trace == old(sink.trace) + Played(calls, w, schedule)
      decreases Work(calls, w, steps)
    {
      var i :| i in unfinished;
      ProgressReady(calls, w, entries, results, steps, schedule, i);
      var done := StepDeferred(calls, w, i, steps[i], sink);
      ProgressStep(calls, w, entries, results, steps, schedule, i, done);
      OneMoreStep(calls, w, schedule, i);
      AppendAssoc(old(sink.trace), Played(calls, w, schedule), [Tail(calls, w, i)[steps[i]]]);
      results, steps := results[i := done], steps[i := steps[i] + 1];
      schedule := schedule + [i];
      unfinished := set j | 0 <= j < |entries| && results[j].None?;
    }
    forall j | 0 <= j < |results| ensures results[j].Some? {
      assert j !in unfinished;
    }
    finalizedCalls := seq(|results|, j requires 0 <= j < |results| => results[j].value);
    ProgressDone(calls, w, entries, results, steps, schedule, finalizedCalls);
  }

  lemma {:induction false} OutcomesAreTheSequence(calls: seq<ToolCall>, w: BatchWorld, fs: seq<Finalized>)
    requires |fs| <= |calls| && forall j :: 0 <= j < |fs| ==> fs[j] == Outcome(calls, w, j)
    ensures fs == Outcomes(calls, w, |fs|)
  {
    if fs != [] {
      OutcomesAreTheSequence(calls, w, fs[..|fs| - 1]);
    }
  }

  /** For every interleaving of the running calls, the messages and the stop flag are those of the
      one-by-one executor. */
  method ExecuteParallel(calls: seq<ToolCall>, w: BatchWorld, sink: AgentState)
      returns (messages: seq<Message>, terminate: bool, ghost schedule: seq<nat>)
    requires sink.Valid()
    modifies sink
    ensures messages == BatchMessages(calls, w)
    ensures terminate == BatchTerminates(calls, w)
    ensures Complete(calls, w, Reached(calls, w, 0), schedule)
    ensures sink.Valid() && sink.origin == old(sink.origin)
    ensures sink.trace == old(sink.trace) +
      (Preflight(calls, w, Reached(calls, w, 0)) + Played(calls, w, schedule) + Pairs(messages))
  {
    hide ReduceAll, Preflight, Played, Outcome, Outcomes, Tail, PreparationOf, Reached, Preflighted, Complete, Pairs, ResultMessages;
    var entries := PreflightCalls(calls, w, sink);
    PreflightedWithin(calls, w, entries);
    var finalizedCalls;
    finalizedCalls, schedule := RunDeferred(calls, w, entries, sink);
    messages := EmitToolResults(finalizedCalls, sink);
    AppendAssoc(old(sink.trace), Preflight(calls, w, |entries|), Played(calls, w, schedule));
    AppendAssoc(old(sink.trace), Preflight(calls, w, |entries|) + Played(calls, w, schedule), Pairs(messages));
    terminate := ShouldTerminate(finalizedCalls);
  }

  /** Reports the results of a concurrent batch, in source order. */
  method EmitToolResults(finalizedCalls: seq<Finalized>, sink: AgentState) returns (messages: seq<Message>)
    requires sink.Valid()
    modifies sink
    ensures messages == ResultMessages(finalizedCalls)
    ensures sink.Valid() && sink.origin == old(sink.origin)
    ensures sink.trace == old(sink.trace) + Pairs(messages)
  {
    hide ReduceAll;
    messages := [];
    for j := 0 to |finalizedCalls|
      invariant messages == ResultMessages(finalizedCalls[..j])
      invariant sink.Valid() && sink.origin == old(sink.origin)
      invariant sink.trace == old(sink.trace) + Pairs(messages)
    {
      var toolResultMessage := ResultMessage(finalizedCalls[j]);
      assert finalizedCalls[..j + 1][..j] == finalizedCalls[..j];
      EmitPair(toolResultMessage, sink);
      AppendAssoc(old(sink.trace), Pairs(messages), Pair(toolResultMessage));
      assert (messages + [toolResultMessage])[..|messages|] == messages;
      messages := messages + [toolResultMessage];
    }
    assert finalizedCalls[..|finalizedCalls|] == finalizedCalls;
  }

  method ExecuteToolCalls(calls: seq<ToolCall>, w: BatchWorld, sink: AgentState)
      returns (messages: seq<Message>, terminate: bool, ghost schedule: seq<nat>)
    requires sink.Valid()
    modifies sink
    ensures messages == BatchMessages(calls, w) && Answers(calls, w, messages)
    ensures terminate == BatchTerminates(calls, w)
    ensures LegalSchedule(calls, w, schedule)
    ensures sink.Valid() && sink.origin == old(sink.origin)
    ensures sink.trace == old(sink.trace) + BatchTrace(calls, w, schedule)
    // One by one if the configuration or any of the called tools wants it, otherwise concurrently.
    ensures (w.sequential || exists i :: 0 <= i < |calls| && w.behave(i).registered && w.behave(i).runsSequentially) ==>
      sink.trace == old(sink.trace) + SequentialTrace(calls, w, |messages|)
    ensures !w.sequential && (forall i :: 0 <= i < |calls| && w.behave(i).registered ==> !w.behave(i).runsSequentially) ==>
      sink.trace == old(sink.trace) + (Preflight(calls, w, |messages|) + Played(calls, w, schedule) + Pairs(messages))
  {
    hide Outcomes, ResultMessages, Reached, SequentialTrace, Preflight, Played, Pairs, Complete, ReduceAll, ShouldTerminate, Answers;
    BatchIsAnswered(calls, w);
    AnswersReached(calls, w);
    var hasSequentialToolCall := exists i :: 0 <= i < |calls| && w.behave(i).registered && w.behave(i).runsSequentially;
    schedule := [];
    if w.sequential || hasSequentialToolCall {
      messages, terminate := ExecuteSequential(calls, w, sink);
    } else {
      messages, terminate, schedule := ExecuteParallel(calls, w, sink);
    }
  }
}
