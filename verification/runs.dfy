/** What a run is: a sequence of turns, the events and messages each turn accounts for, and which
    turn may follow which. The loop is proved against these definitions. */
module Runs {
  import opened AgentTypes
  import opened AgentStates
  import opened Streaming
  import opened ToolBatches
  import opened PendingQueues

  /** Everything foreign a run meets, by position: provider streams, tool batches, the turn hooks,
      and what callers enqueue before each poll. Indices count completed turns. */
  datatype RunOracle = RunOracle(
    streams: nat -> StreamScript,
    batches: nat -> BatchWorld,
    nextContext: nat -> Option<seq<Message>>,
    stops: nat -> bool,
    beforeSteeringPoll: nat -> Arrival,
    beforeFollowUpPoll: nat -> Arrival)

  datatype Source = Prompted | Steered | FollowedUp

  datatype Injected = Injected(source: Source, message: Message)

  datatype Turn = Turn(
    injected: seq<Injected>,
    script: StreamScript,
    world: BatchWorld,
    schedule: seq<nat>,
    nextContext: Option<seq<Message>>,
    stops: bool)

  function Tag(source: Source, messages: seq<Message>): seq<Injected> {
    seq(|messages|, i requires 0 <= i < |messages| => Injected(source, messages[i]))
  }

  function Untag(injected: seq<Injected>): seq<Message> {
    seq(|injected|, i requires 0 <= i < |injected| => injected[i].message)
  }

  /** The messages of one source, in order. */
  function From(injected: seq<Injected>, source: Source): seq<Message> {
    if injected == [] then []
    else
      var last := injected[|injected| - 1];
      From(injected[..|injected| - 1], source) + if last.source == source then [last.message] else []
  }

  // ---- One turn ----

  function Reply(t: Turn): AssistantMessage {
    t.script.outcome
  }

  /** The calls a turn executes: none when the reply failed. */
  function Calls(t: Turn): seq<ToolCall> {
    if Failed(Reply(t)) then [] else CallsIn(Reply(t).content)
  }

  function ToolTrace(t: Turn): seq<AgentEvent> {
    if Calls(t) == [] then [] else BatchTrace(Calls(t), t.world, t.schedule)
  }

  function Results(t: Turn): seq<Message> {
    if Calls(t) == [] then [] else BatchMessages(Calls(t), t.world)
  }

  /** Whether the tool batch asks for another provider call. */
  predicate WantsMore(t: Turn) {
    Calls(t) != [] && !BatchTerminates(Calls(t), t.world)
  }

  /** Some tool the turn's reply called, of those that were reached, did not ask to stop. */
  ghost predicate AsksForMore(t: Turn) {
    var calls := CallsIn(t.script.outcome.content);
    exists i: nat :: i < Reached(calls, t.world, 0) && Outcome(calls, t.world, i).output.terminate != Some(true)
  }

  /** The run stops behind turn `n` whatever else there is: its reply failed, or the stop hook said so. */
  ghost predicate Stopped(t: Turn, n: nat, oracle: RunOracle) {
    t.script.outcome.stopReason == ErrorStop || t.script.outcome.stopReason == AbortedStop || oracle.stops(n)
  }

  ghost predicate WellFormed(t: Turn) {
    Calls(t) != [] ==> LegalSchedule(Calls(t), t.world, t.schedule)
  }

  function Opening(injected: seq<Injected>): seq<AgentEvent> {
    [TurnStart] + Pairs(Untag(injected))
  }

  function Body(t: Turn): seq<AgentEvent> {
    StreamTrace(t.script) + ToolTrace(t) + [TurnEnd(Reply(t), Results(t))]
  }

  function Rendered(t: Turn): seq<AgentEvent> {
    Opening(t.injected) + Body(t)
  }

  function TurnMessages(t: Turn): seq<Message> {
    Untag(t.injected) + [Reply(t)] + Results(t)
  }

  /** What a turn adds to the context. It differs from its messages by stale partial messages when the
      provider's stream starts more than once. */
  function ContextGain(t: Turn): seq<Message> {
    Untag(t.injected) + StreamContext(t.script) + Results(t)
  }

  // ---- A run ----

  ghost function RenderedAll(turns: seq<Turn>): seq<AgentEvent> {
    if turns == [] then []
    else RenderedAll(turns[..|turns| - 1]) + Rendered(turns[|turns| - 1])
  }

  ghost function RunMessages(turns: seq<Turn>): seq<Message> {
    if turns == [] then []
    else RunMessages(turns[..|turns| - 1]) + TurnMessages(turns[|turns| - 1])
  }

  /** The context after the turns, given what it held before them: a turn's hook may replace it. */
  ghost function ContextAfter(snapshot: seq<Message>, turns: seq<Turn>): seq<Message> {
    if turns == [] then snapshot
    else
      var t := turns[|turns| - 1];
      t.nextContext.GetOr(ContextAfter(snapshot, turns[..|turns| - 1]) + ContextGain(t))
  }

  /** What entered the transcript from one source. */
  ghost function Entered(turns: seq<Turn>, source: Source): seq<Message> {
    if turns == [] then []
    else Entered(turns[..|turns| - 1], source) + From(turns[|turns| - 1].injected, source)
  }

  predicate AllFrom(injected: seq<Injected>, source: Source) {
    forall i <- injected :: i.source == source
  }

  /** When another turn follows: the last one did not end the run, and either its tools want more, or
      queued messages came in. Follow-ups come in only when the tools want nothing more. */
  ghost predicate MayFollow(t: Turn, next: Turn) {
    && !Failed(Reply(t)) && !t.stops
    && (next.injected == [] ==> WantsMore(t))
    && (AllFrom(next.injected, Steered) || (AllFrom(next.injected, FollowedUp) && !WantsMore(t)))
  }

  /** Every stream of the run starts at most once, as the provider protocol has it. */
  ghost predicate OneStarts(turns: seq<Turn>) {
    forall t <- turns :: OneStart(t.script)
  }

  ghost predicate Legal(turns: seq<Turn>) {
    && (forall t <- turns :: WellFormed(t))
    && (forall n :: 0 < n < |turns| ==> MayFollow(turns[n - 1], turns[n]))
  }

  /** The turns meet the oracle's streams, tools and hooks in order, none skipped. */
  ghost predicate Follows(turns: seq<Turn>, oracle: RunOracle) {
    forall n :: 0 <= n < |turns| ==>
      && turns[n].script == oracle.streams(n)
      && turns[n].world == oracle.batches(n)
      && turns[n].stops == oracle.stops(n)
      && turns[n].nextContext == if Failed(Reply(turns[n])) then None else oracle.nextContext(n)
  }

  // ---- Growing a run by one turn ----

  lemma NoTurns(snapshot: seq<Message>, source: Source)
    ensures RenderedAll([]) == [] && RunMessages([]) == [] && ContextAfter(snapshot, []) == snapshot
    ensures Entered([], source) == [] && From([], source) == [] && Untag([]) == []
  {}

  lemma OneMoreTurn(turns: seq<Turn>, t: Turn, snapshot: seq<Message>, source: Source)
    ensures RenderedAll(turns + [t]) == RenderedAll(turns) + Rendered(t)
    ensures RunMessages(turns + [t]) == RunMessages(turns) + TurnMessages(t)
    ensures ContextAfter(snapshot, turns + [t]) == t.nextContext.GetOr(ContextAfter(snapshot, turns) + ContextGain(t))
    ensures Entered(turns + [t], source) == Entered(turns, source) + From(t.injected, source)
  {
    assert (turns + [t])[..|turns|] == turns;
  }

  lemma {:induction false} FromAppend(a: seq<Injected>, b: seq<Injected>, source: Source)
    ensures From(a + b, source) == From(a, source) + From(b, source)
  {
    if b == [] {
      assert a + b == a;
    } else {
      FromAppend(a, b[..|b| - 1], source);
      assert (a + b)[..|a + b| - 1] == a + b[..|b| - 1];
    }
  }

  lemma FromTag(messages: seq<Message>, tag: Source, source: Source)
    ensures From(Tag(tag, messages), source) == if tag == source then messages else []
    ensures Untag(Tag(tag, messages)) == messages && AllFrom(Tag(tag, messages), tag)
  {
    hide From, Tag;
    FromTagged(messages, tag, source);
    TagIsUndone(messages, tag);
  }

  lemma {:induction false} FromTagged(messages: seq<Message>, tag: Source, source: Source)
    ensures From(Tag(tag, messages), source) == if tag == source then messages else []
  {
    hide From, Tag;
    if messages == [] {
      TagOneMore([], User(""), tag);
      NoTurns([], source);
    } else {
      var front, last := messages[..|messages| - 1], messages[|messages| - 1];
      assert messages == front + [last];
      FromTagged(front, tag, source);
      TagOneMore(front, last, tag);
      FromOne(Injected(tag, last), source);
      FromAppend(Tag(tag, front), [Injected(tag, last)], source);
    }
  }

  lemma TagOneMore(front: seq<Message>, last: Message, tag: Source)
    ensures Tag(tag, []) == [] && Tag(tag, front + [last]) == Tag(tag, front) + [Injected(tag, last)]
  {}

  lemma FromOne(i: Injected, source: Source)
    ensures From([i], source) == if i.source == source then [i.message] else []
  {
    assert [i][..0] == [];
  }

  lemma TagIsUndone(messages: seq<Message>, tag: Source)
    ensures Untag(Tag(tag, messages)) == messages && AllFrom(Tag(tag, messages), tag)
  {}

  lemma UntagAppend(a: seq<Injected>, b: seq<Injected>)
    ensures Untag(a + b) == Untag(a) + Untag(b)
  {}
}
