/** Rebuilding an assistant message from proxy events whose partial message was stripped. */
module ProxyMessages {
  import opened AgentTypes
  import opened Text

  datatype Usage = Usage(input: nat, output: nat)

  const NO_USAGE := Usage(0, 0)

  datatype ProxyEvent =
    | Start
    | TextStart(index: nat)
    | TextDelta(index: nat, delta: string)
    | TextEnd(index: nat, signature: Option<string>)
    | ThinkingStart(index: nat)
    | ThinkingDelta(index: nat, delta: string)
    | ThinkingEnd(index: nat, signature: Option<string>)
    | ToolCallStart(index: nat, id: string, toolName: string)
    | ToolCallDelta(index: nat, delta: string)
    | ToolCallEnd(index: nat)
    | Done(reason: StopReason, usage: Usage)
    | Error(reason: StopReason, errorMessage: Option<string>, usage: Usage)
    | Unhandled

  /** The event handed on; each carries the one shared partial message, which is left implicit. */
  datatype Push =
    | PushStart
    | PushBlockStart(index: nat, block: Block)
    | PushDelta(index: nat, delta: string)
    | PushBlockEnd(index: nat, block: Block)
    | PushDone(reason: StopReason)
    | PushError(reason: StopReason)

  /** A sparse JavaScript array of content blocks: `None` is a hole. */
  datatype Partial = Partial(
    content: seq<Option<Block>>, stopReason: StopReason, errorMessage: Option<string>, usage: Usage)

  const EMPTY_PARTIAL := Partial([], Stop, None, NO_USAGE)

  function BlockAt(content: seq<Option<Block>>, index: nat): Option<Block> {
    if index < |content| then content[index] else None
  }

  /** `content[index] = block`, which may leave holes behind the old end. */
  function Put(content: seq<Option<Block>>, index: nat, block: Block): (r: seq<Option<Block>>)
    ensures |r| == if index < |content| then |content| else index + 1
    ensures forall i: nat :: BlockAt(r, i) == if i == index then Some(block) else BlockAt(content, i)
  {
    if index < |content| then content[index := Some(block)]
    else content + seq(index - |content|, _ => None) + [Some(block)]
  }

  lemma PutSame(content: seq<Option<Block>>, index: nat)
    ensures BlockAt(content, index).Some? ==> Put(content, index, BlockAt(content, index).value) == content
  {}

  predicate Falsy(j: Json) {
    j.JNull? || j == JBool(false) || j == JNumber(0.0) || j == JString("")
  }

  /** `parseStreamingJson(text) || {}`. */
  function ParseArguments(parse: string -> Json, text: string): Json {
    if Falsy(parse(text)) then JObject([]) else parse(text)
  }

  /** What one event does to the block at its own index: the block afterwards, or an error. */
  function BlockStep(parse: string -> Json, block: Option<Block>, e: ProxyEvent): Attempt<Option<Block>> {
    match e
    case TextStart(_) => Returned(Some(Text("", None)))
    case TextDelta(_, delta) =>
      if block.Some? && block.value.Text? then Returned(Some(Text(block.value.text + delta, block.value.signature)))
      else Threw("Received text_delta for non-text content")
    case TextEnd(_, signature) =>
      if block.Some? && block.value.Text? then Returned(Some(Text(block.value.text, signature)))
      else Threw("Received text_end for non-text content")
    case ThinkingStart(_) => Returned(Some(Thinking("", None)))
    case ThinkingDelta(_, delta) =>
      if block.Some? && block.value.Thinking? then Returned(Some(Thinking(block.value.thinking + delta, block.value.signature)))
      else Threw("Received thinking_delta for non-thinking content")
    case ThinkingEnd(_, signature) =>
      if block.Some? && block.value.Thinking? then Returned(Some(Thinking(block.value.thinking, signature)))
      else Threw("Received thinking_end for non-thinking content")
    case ToolCallStart(_, id, name) => Returned(Some(ToolUse(ToolCall(id, name, JObject([])), Some(""))))
    case ToolCallDelta(_, delta) =>
      if block.Some? && block.value.ToolUse? then
        // A scratch field that was deleted reads as `undefined` and is concatenated as that word.
        var text := block.value.partialJson.GetOr("undefined") + delta;
        Returned(Some(ToolUse(block.value.call.(arguments := ParseArguments(parse, text)), Some(text))))
      else Threw("Received toolcall_delta for non-toolCall content")
    case ToolCallEnd(_) =>
      if block.Some? && block.value.ToolUse? then Returned(Some(ToolUse(block.value.call, None)))
      else Returned(block)
    case _ => Returned(block)
  }

  predicate Indexed(e: ProxyEvent) {
    !e.Start? && !e.Done? && !e.Error? && !e.Unhandled?
  }

  /** What is handed on for an accepted event, given the block at its index afterwards. */
  function PushOf(e: ProxyEvent, block: Option<Block>): Option<Push> {
    match e
    case Start => Some(PushStart)
    case TextStart(i) => Opened(i, block)
    case ThinkingStart(i) => Opened(i, block)
    case ToolCallStart(i, _, _) => Opened(i, block)
    case TextDelta(i, delta) => Some(PushDelta(i, delta))
    case ThinkingDelta(i, delta) => Some(PushDelta(i, delta))
    case ToolCallDelta(i, delta) => Some(PushDelta(i, delta))
    case TextEnd(i, _) => Closed(i, block)
    case ThinkingEnd(i, _) => Closed(i, block)
    case ToolCallEnd(i) => if block.Some? && block.value.ToolUse? then Closed(i, block) else None
    case Done(reason, _) => Some(PushDone(reason))
    case Error(reason, _, _) => Some(PushError(reason))
    case Unhandled => None
  }

  function Opened(index: nat, block: Option<Block>): Option<Push> {
    if block.Some? then Some(PushBlockStart(index, block.value)) else None
  }

  function Closed(index: nat, block: Option<Block>): Option<Push> {
    if block.Some? then Some(PushBlockEnd(index, block.value)) else None
  }

  /** The whole effect of one event on the partial message. */
  function Step(parse: string -> Json, p: Partial, e: ProxyEvent): Attempt<Partial> {
    match e
    case Start => Returned(p)
    case Unhandled => Returned(p)
    case Done(reason, usage) => Returned(p.(stopReason := reason, usage := usage))
    case Error(reason, message, usage) => Returned(p.(stopReason := reason, errorMessage := message, usage := usage))
    case _ =>
      match BlockStep(parse, BlockAt(p.content, e.index), e)
      case Threw(error) => Threw(error)
      case Returned(None) => Returned(p)
      case Returned(Some(block)) => Returned(p.(content := Put(p.content, e.index, block)))
  }

  /** Handling an event as `Step` says: a rejected one changes nothing, an accepted one is handed on. */
  predicate Processed(parse: string -> Json, before: Partial, e: ProxyEvent, after: Partial, r: Attempt<Option<Push>>) {
    match Step(parse, before, e)
    case Threw(error) => r == Threw(error) && after == before
    case Returned(stepped) =>
      after == stepped && r == Returned(PushOf(e, if Indexed(e) then BlockAt(after.content, e.index) else None))
  }

  /** The partial message, mutated in place event by event. */
  class PartialMessage {
    var content: seq<Option<Block>>
    var stopReason: StopReason
    var errorMessage: Option<string>
    var usage: Usage

    function Value(): Partial
      reads this
    {
      Partial(content, stopReason, errorMessage, usage)
    }

    constructor ()
      ensures Value() == EMPTY_PARTIAL
    {
      content, stopReason, errorMessage, usage := [], Stop, None, NO_USAGE;
    }

    method SetBlock(index: nat, block: Block)
      modifies this
      ensures Value() == old(Value()).(content := Put(old(content), index, block))
      ensures BlockAt(content, index) == Some(block)
    {
      content := Put(content, index, block);
    }

    method ProcessProxyEvent(e: ProxyEvent, parse: string -> Json) returns (r: Attempt<Option<Push>>)
      modifies this
      ensures Processed(parse, old(Value()), e, Value(), r)
    {
      hide Put, ParseArguments;
      match e {
        case Start =>
          r := Returned(Some(PushStart));
        case Unhandled =>
          r := Returned(None);
        case TextStart(i) =>
          SetBlock(i, Text("", None));
          r := Returned(Some(PushBlockStart(i, Text("", None))));
        case TextDelta(i, delta) =>
          var block := BlockAt(content, i);
          if block.Some? && block.value.Text? {
            SetBlock(i, Text(block.value.text + delta, block.value.signature));
            r := Returned(Some(PushDelta(i, delta)));
          } else {
            r := Threw("Received text_delta for non-text content");
          }
        case TextEnd(i, signature) =>
          var block := BlockAt(content, i);
          if block.Some? && block.value.Text? {
            SetBlock(i, Text(block.value.text, signature));
            r := Returned(Some(PushBlockEnd(i, Text(block.value.text, signature))));
          } else {
            r := Threw("Received text_end for non-text content");
          }
        case Done(reason, u) =>
          stopReason, usage := reason, u;
          r := Returned(Some(PushDone(reason)));
        case Error(reason, message, u) =>
          stopReason, errorMessage, usage := reason, message, u;
          r := Returned(Some(PushError(reason)));
        case ThinkingStart(_) =>
          r := ProcessThinkingEvent(e, parse);
        case ThinkingDelta(_, _) =>
          r := ProcessThinkingEvent(e, parse);
        case ThinkingEnd(_, _) =>
          r := ProcessThinkingEvent(e, parse);
        case _ =>
          r := ProcessToolCallEvent(e, parse);
      }
    }

    method ProcessThinkingEvent(e: ProxyEvent, parse: string -> Json) returns (r: Attempt<Option<Push>>)
      requires e.ThinkingStart? || e.ThinkingDelta? || e.ThinkingEnd?
      modifies this
      ensures Processed(parse, old(Value()), e, Value(), r)
    {
      hide Put, ParseArguments;
      match e {
        case ThinkingStart(i) =>
          SetBlock(i, Thinking("", None));
          r := Returned(Some(PushBlockStart(i, Thinking("", None))));
        case ThinkingDelta(i, delta) =>
          var block := BlockAt(content, i);
          if block.Some? && block.value.Thinking? {
            SetBlock(i, Thinking(block.value.thinking + delta, block.value.signature));
            r := Returned(Some(PushDelta(i, delta)));
          } else {
            r := Threw("Received thinking_delta for non-thinking content");
          }
        case ThinkingEnd(i, signature) =>
          var block := BlockAt(content, i);
          if block.Some? && block.value.Thinking? {
            SetBlock(i, Thinking(block.value.thinking, signature));
            r := Returned(Some(PushBlockEnd(i, Thinking(block.value.thinking, signature))));
          } else {
            r := Threw("Received thinking_end for non-thinking content");
          }
      }
    }

    method ProcessToolCallEvent(e: ProxyEvent, parse: string -> Json) returns (r: Attempt<Option<Push>>)
      requires e.ToolCallStart? || e.ToolCallDelta? || e.ToolCallEnd?
      modifies this
      ensures Processed(parse, old(Value()), e, Value(), r)
    {
      hide Put, ParseArguments;
      match e {
        case ToolCallStart(i, id, name) =>
          var block := ToolUse(ToolCall(id, name, JObject([])), Some(""));
          SetBlock(i, block);
          r := Returned(Some(PushBlockStart(i, block)));
        case ToolCallDelta(i, delta) =>
          var block := BlockAt(content, i);
          if block.Some? && block.value.ToolUse? {
            var text := block.value.partialJson.GetOr("undefined") + delta;
            SetBlock(i, ToolUse(block.value.call.(arguments := ParseArguments(parse, text)), Some(text)));
            r := Returned(Some(PushDelta(i, delta)));
          } else {
            r := Threw("Received toolcall_delta for non-toolCall content");
          }
        case ToolCallEnd(i) =>
          var block := BlockAt(content, i);
          if block.Some? && block.value.ToolUse? {
            SetBlock(i, ToolUse(block.value.call, None));
            r := Returned(Some(PushBlockEnd(i, ToolUse(block.value.call, None))));
          } else {
            PutSame(content, i);
            r := Returned(None);
          }
      }
    }
  }

  // ---- Sequences of events ----

  function StepAll(parse: string -> Json, p: Partial, es: seq<ProxyEvent>): Attempt<Partial> {
    if es == [] then Returned(p)
    else
      match StepAll(parse, p, es[..|es| - 1])
      case Threw(error) => Threw(error)
      case Returned(before) => Step(parse, before, es[|es| - 1])
  }

  /** The events that carry one index. */
  function EventsAt(es: seq<ProxyEvent>, index: nat): seq<ProxyEvent> {
    if es == [] then []
    else
      var last := es[|es| - 1];
      EventsAt(es[..|es| - 1], index) + if Indexed(last) && last.index == index then [last] else []
  }

  /** The block built by the events of one index alone. */
  function BlockFold(parse: string -> Json, es: seq<ProxyEvent>): Attempt<Option<Block>> {
    if es == [] then Returned(None)
    else
      match BlockFold(parse, es[..|es| - 1])
      case Threw(error) => Threw(error)
      case Returned(before) => BlockStep(parse, before, es[|es| - 1])
  }

  /** One event touches the block at its own index and no other. */
  lemma StepIsLocal(parse: string -> Json, p: Partial, e: ProxyEvent, index: nat)
    ensures Step(parse, p, e).Threw? <==> Indexed(e) && BlockStep(parse, BlockAt(p.content, e.index), e).Threw?
    ensures var r := Step(parse, p, e);
      r.Returned? ==>
        if Indexed(e) && e.index == index then BlockStep(parse, BlockAt(p.content, index), e) == Returned(BlockAt(r.value.content, index))
        else BlockAt(r.value.content, index) == BlockAt(p.content, index)
  {}

  lemma LastEventAt(es: seq<ProxyEvent>, index: nat)
    requires es != []
    ensures var last := es[|es| - 1];
      if Indexed(last) && last.index == index
      then EventsAt(es, index) != [] && EventsAt(es, index)[..|EventsAt(es, index)| - 1] == EventsAt(es[..|es| - 1], index)
           && EventsAt(es, index)[|EventsAt(es, index)| - 1] == last
      else EventsAt(es, index) == EventsAt(es[..|es| - 1], index)
  {}

  /** The block at an index is the fold of that index's events only, and a stream is accepted exactly
      when every index's own events are: what is interleaved between them does not matter. */
  lemma {:induction false} BlocksAreIndependent(parse: string -> Json, es: seq<ProxyEvent>)
    ensures StepAll(parse, EMPTY_PARTIAL, es).Returned? ==>
      forall i: nat :: BlockFold(parse, EventsAt(es, i)) == Returned(BlockAt(StepAll(parse, EMPTY_PARTIAL, es).value.content, i))
    ensures StepAll(parse, EMPTY_PARTIAL, es).Threw? ==> exists i: nat :: BlockFold(parse, EventsAt(es, i)).Threw?
  {
    if es == [] {
      assert forall i: nat :: EventsAt([], i) == [];
    } else {
      var front, last := es[..|es| - 1], es[|es| - 1];
      BlocksAreIndependent(parse, front);
      if StepAll(parse, EMPTY_PARTIAL, front).Threw? {
        var i: nat :| BlockFold(parse, EventsAt(front, i)).Threw?;
        LastEventAt(es, i);
        assert BlockFold(parse, EventsAt(es, i)).Threw?;
      } else {
        var before := StepAll(parse, EMPTY_PARTIAL, front).value;
        StepIsLocal(parse, before, last, 0);
        if Step(parse, before, last).Threw? {
          LastEventAt(es, last.index);
          assert BlockFold(parse, EventsAt(es, last.index)).Threw?;
        } else {
          forall i: nat ensures BlockFold(parse, EventsAt(es, i)) == Returned(BlockAt(StepAll(parse, EMPTY_PARTIAL, es).value.content, i)) {
            LastEventAt(es, i);
            StepIsLocal(parse, before, last, i);
          }
        }
      }
    }
  }

  /** Neighbouring events of different indices may be swapped. */
  lemma DifferentIndicesCommute(parse: string -> Json, p: Partial, a: ProxyEvent, b: ProxyEvent)
    requires Indexed(a) && Indexed(b) && a.index != b.index
    requires StepAll(parse, p, [a, b]).Returned?
    ensures StepAll(parse, p, [b, a]) == StepAll(parse, p, [a, b])
  {
    hide StepAll, Step, BlockStep, PutIf;
    var i, j := a.index, b.index;
    TwoSteps(parse, p, a, b);
    TwoSteps(parse, p, b, a);
    StepOnBlock(parse, p, a);
    var x := BlockStep(parse, BlockAt(p.content, i), a).value;
    var pa := Step(parse, p, a).value;
    StepOnBlock(parse, pa, b);
    PutsCommute(p.content, i, x, j, BlockStep(parse, BlockAt(pa.content, j), b).value);
    StepOnBlock(parse, p, b);
    StepOnBlock(parse, Step(parse, p, b).value, a);
  }

  function PutIf(content: seq<Option<Block>>, index: nat, block: Option<Block>): seq<Option<Block>> {
    if block.Some? then Put(content, index, block.value) else content
  }

  lemma PutsCommute(content: seq<Option<Block>>, i: nat, x: Option<Block>, j: nat, y: Option<Block>)
    requires i != j
    ensures PutIf(PutIf(content, i, x), j, y) == PutIf(PutIf(content, j, y), i, x)
    ensures BlockAt(PutIf(content, i, x), j) == BlockAt(content, j)
    ensures BlockAt(PutIf(content, j, y), i) == BlockAt(content, i)
  {
    SameBlocks(PutIf(PutIf(content, i, x), j, y), PutIf(PutIf(content, j, y), i, x));
  }

  lemma StepOnBlock(parse: string -> Json, p: Partial, e: ProxyEvent)
    requires Indexed(e)
    ensures Step(parse, p, e) ==
      match BlockStep(parse, BlockAt(p.content, e.index), e)
      case Threw(error) => Threw(error)
      case Returned(block) => Returned(p.(content := PutIf(p.content, e.index, block)))
  {}

  lemma TwoSteps(parse: string -> Json, p: Partial, a: ProxyEvent, b: ProxyEvent)
    ensures StepAll(parse, p, [a, b])
         == if Step(parse, p, a).Threw? then Step(parse, p, a) else Step(parse, Step(parse, p, a).value, b)
  {
    assert [a, b][..1] == [a] && [a][..0] == [];
    assert StepAll(parse, p, [a]) == Step(parse, p, a);
  }

  lemma SameBlocks(a: seq<Option<Block>>, b: seq<Option<Block>>)
    requires |a| == |b| && forall i: nat :: BlockAt(a, i) == BlockAt(b, i)
    ensures a == b
  {
    forall i | 0 <= i < |a| ensures a[i] == b[i] {
      assert BlockAt(a, i) == BlockAt(b, i);
    }
  }

  // ---- A block is what its deltas spell ----

  predicate IsStart(e: ProxyEvent) {
    e.TextStart? || e.ThinkingStart? || e.ToolCallStart?
  }

  predicate IsDelta(e: ProxyEvent) {
    e.TextDelta? || e.ThinkingDelta? || e.ToolCallDelta?
  }

  function Deltas(es: seq<ProxyEvent>): string {
    if es == [] then ""
    else
      var last := es[|es| - 1];
      Deltas(es[..|es| - 1]) + if IsDelta(last) then last.delta else ""
  }

  predicate HasDelta(es: seq<ProxyEvent>) {
    exists e <- es :: IsDelta(e)
  }

  predicate HasEnd(es: seq<ProxyEvent>) {
    exists e <- es :: e.ToolCallEnd?
  }

  /** Tool-call ends come behind every delta. */
  predicate EndsLast(es: seq<ProxyEvent>) {
    forall i, j :: 0 <= i < j < |es| && es[i].ToolCallEnd? ==> !IsDelta(es[j])
  }

  /** How many events there are up to and including the last tool-call end. */
  function Cut(es: seq<ProxyEvent>): (n: nat)
    ensures n <= |es| && (n > 0 ==> es[n - 1].ToolCallEnd?) && !HasEnd(es[n..])
  {
    if es == [] then 0
    else if es[|es| - 1].ToolCallEnd? then |es|
    else
      var front := es[..|es| - 1];
      assert es[Cut(front)..] == front[Cut(front)..] + [es[|es| - 1]];
      Cut(front)
  }

  /** The text a tool call's arguments are parsed from. Its scratch text is deleted by an end and then
      reads as `undefined`; deltas behind the end continue that word. */
  function ReadText(es: seq<ProxyEvent>): Option<string>
    decreases |es|
  {
    var n := Cut(es);
    if HasDelta(es[n..]) then Some((if n > 0 then "undefined" else "") + Deltas(es[n..]))
    else if n > 0 then ReadText(es[..n - 1])
    else None
  }

  /** The deltas that are missed: those ahead of the last end that still has a delta behind it. */
  function Missed(es: seq<ProxyEvent>): Option<string>
    decreases |es|
  {
    var n := Cut(es);
    if n == 0 then None
    else if HasDelta(es[n..]) then Some(Deltas(es[..n]))
    else Missed(es[..n - 1])
  }

  /** The events of one index since its last start. */
  predicate SinceStart(start: ProxyEvent, tail: seq<ProxyEvent>) {
    IsStart(start) && forall e <- tail :: Indexed(e) && !IsStart(e)
  }

  /** The signature the latest end of a text or thinking block gave, if there was one. */
  function LatestSignature(es: seq<ProxyEvent>): Option<string> {
    if es == [] then None
    else
      match es[|es| - 1]
      case TextEnd(_, signature) => signature
      case ThinkingEnd(_, signature) => signature
      case _ => LatestSignature(es[..|es| - 1])
  }

  /** Arguments are what the parser makes of the text, or the empty object where that is falsy. */
  lemma ArgumentsAreParsed(parse: string -> Json, text: string)
    ensures ReadArguments(parse, Some(text)) ==
      if parse(text) in {JNull, JBool(false), JNumber(0.0), JString("")} then JObject([]) else parse(text)
    ensures ReadArguments(parse, None) == JObject([])
  {}

  function ReadArguments(parse: string -> Json, text: Option<string>): Json {
    match text
    case None => JObject([])
    case Some(t) => ParseArguments(parse, t)
  }

  function ScratchText(es: seq<ProxyEvent>): Option<string> {
    var n := Cut(es);
    if n == 0 then Some(Deltas(es))
    else if HasDelta(es[n..]) then Some("undefined" + Deltas(es[n..]))
    else None
  }

  /** Whatever came before it, a start opens the block afresh, and from there the block is spelled by
      its deltas: the text, the thinking, or the JSON whose parse is the arguments. */
  ghost predicate SpelledBy(parse: string -> Json, start: ProxyEvent, tail: seq<ProxyEvent>, block: Block) {
    match start
    case TextStart(_) => block == Text(Deltas(tail), LatestSignature(tail))
    case ThinkingStart(_) => block == Thinking(Deltas(tail), LatestSignature(tail))
    case ToolCallStart(_, id, name) =>
      && block.ToolUse? && block.call.id == id && block.call.name == name
      && block.call.arguments == ReadArguments(parse, ReadText(tail))
      && block.partialJson == ScratchText(tail)
    case _ => false
  }

  lemma {:induction false} BlockIsSpelledByItsDeltas(parse: string -> Json, before: seq<ProxyEvent>, start: ProxyEvent, tail: seq<ProxyEvent>)
    requires SinceStart(start, tail) && BlockFold(parse, before + [start] + tail).Returned?
    ensures var block := BlockFold(parse, before + [start] + tail).value;
      block.Some? && SpelledBy(parse, start, tail, block.value)
  {
    var es := before + [start] + tail;
    if tail == [] {
      assert es[..|es| - 1] == before;
    } else {
      var front, last := tail[..|tail| - 1], tail[|tail| - 1];
      assert es[..|es| - 1] == before + [start] + front;
      BlockIsSpelledByItsDeltas(parse, before, start, front);
      assert last in tail && tail == front + [last];
      SpelledOneMore(parse, start, front, last, BlockFold(parse, before + [start] + front).value.value);
    }
  }

  lemma SpelledOneMore(parse: string -> Json, start: ProxyEvent, front: seq<ProxyEvent>, last: ProxyEvent, block: Block)
    requires SpelledBy(parse, start, front, block) && Indexed(last) && !IsStart(last)
    requires BlockStep(parse, Some(block), last).Returned?
    ensures var next := BlockStep(parse, Some(block), last).value;
      next.Some? && SpelledBy(parse, start, front + [last], next.value)
  {
    hide Deltas, HasDelta, HasEnd, Cut, ReadText, ScratchText;
    TailOneMore(front, last);
    if start.ToolCallStart? {
      ReadOneMore(front, last);
    }
  }

  lemma TailOneMore(front: seq<ProxyEvent>, last: ProxyEvent)
    ensures var tail := front + [last];
      && Deltas(tail) == (if IsDelta(last) then Deltas(front) + last.delta else Deltas(front))
      && (HasDelta(tail) <==> HasDelta(front) || IsDelta(last))
      && LatestSignature(tail) ==
           (if last.TextEnd? || last.ThinkingEnd? then last.signature else LatestSignature(front))
      && Cut(tail) == if last.ToolCallEnd? then |tail| else Cut(front)
  {
    var tail := front + [last];
    assert tail[..|tail| - 1] == front && tail[|tail| - 1] == last;
  }

  lemma {:induction false} NoDeltas(es: seq<ProxyEvent>)
    requires !HasDelta(es)
    ensures Deltas(es) == ""
  {
    if es != [] {
      assert es[|es| - 1] in es;
      NoDeltas(es[..|es| - 1]);
    }
  }

  /** What an end or a delta does to the text that is read and to the scratch text. */
  lemma ReadOneMore(front: seq<ProxyEvent>, last: ProxyEvent)
    ensures var tail := front + [last];
      && (last.ToolCallEnd? ==> ReadText(tail) == ReadText(front) && ScratchText(tail) == None)
      && (IsDelta(last) ==> var text := ScratchText(front).GetOr("undefined") + last.delta;
                            ReadText(tail) == Some(text) == ScratchText(tail))
  {
    hide ReadText, ScratchText;
    if last.ToolCallEnd? {
      ReadEnd(front, last);
    } else if IsDelta(last) {
      ReadDelta(front, last);
    }
  }

  lemma ReadEnd(front: seq<ProxyEvent>, last: ProxyEvent)
    requires last.ToolCallEnd?
    ensures ReadText(front + [last]) == ReadText(front) && ScratchText(front + [last]) == None
  {
    hide Deltas, HasDelta, Cut, HasEnd;
    var tail := front + [last];
    TailOneMore(front, last);
    assert tail[..|tail| - 1] == front && tail[|tail|..] == [];
    NoneHasDelta();
  }

  /** What an end behind which the deltas go on puts ahead of them. */
  function Prefix(es: seq<ProxyEvent>): string {
    if Cut(es) > 0 then "undefined" else ""
  }

  lemma ScratchBehindCut(es: seq<ProxyEvent>)
    ensures ScratchText(es).GetOr("undefined") == Prefix(es) + Deltas(es[Cut(es)..])
  {
    hide Deltas, HasDelta, Cut, HasEnd;
    var behind := es[Cut(es)..];
    if Cut(es) == 0 {
      assert behind == es;
    } else if !HasDelta(behind) {
      NoDeltas(behind);
    }
  }

  lemma ReadBehindCut(es: seq<ProxyEvent>)
    requires HasDelta(es[Cut(es)..])
    ensures ReadText(es) == Some(Prefix(es) + Deltas(es[Cut(es)..])) == ScratchText(es)
  {
    hide Deltas, HasDelta, Cut, HasEnd;
    if Cut(es) == 0 {
      assert es[0..] == es && "" + Deltas(es) == Deltas(es);
    }
  }

  lemma ReadDelta(front: seq<ProxyEvent>, last: ProxyEvent)
    requires IsDelta(last)
    ensures var text := ScratchText(front).GetOr("undefined") + last.delta;
      ReadText(front + [last]) == Some(text) == ScratchText(front + [last])
  {
    hide Deltas, HasDelta, Cut, HasEnd, ReadText, ScratchText;
    var tail, behind := front + [last], front[Cut(front)..];
    TailOneMore(front, last);
    TailOneMore(behind, last);
    assert tail[Cut(front)..] == behind + [last];
    ScratchBehindCut(front);
    ReadBehindCut(tail);
    AppendAssoc(Prefix(front), Deltas(behind), last.delta);
  }

  lemma NoneHasDelta()
    ensures !HasDelta([]) && Deltas([]) == ""
  {}

  lemma {:induction false} DeltasAppend(a: seq<ProxyEvent>, b: seq<ProxyEvent>)
    ensures Deltas(a + b) == Deltas(a) + Deltas(b)
    ensures HasDelta(a + b) <==> HasDelta(a) || HasDelta(b)
  {
    hide Deltas, HasDelta;
    NoneHasDelta();
    if b == [] {
      assert a + b == a && Deltas(a) + "" == Deltas(a);
    } else {
      var front, last := b[..|b| - 1], b[|b| - 1];
      assert a + b == a + front + [last] && b == front + [last];
      DeltasAppend(a, front);
      AppendAssoc(Deltas(a), Deltas(front), if IsDelta(last) then last.delta else "");
      assert Deltas(front) + "" == Deltas(front);
      assert Deltas(a + front) + "" == Deltas(a + front);
      TailOneMore(a + front, last);
      TailOneMore(front, last);
    }
  }

  /** The text that is read is the concatenation of all deltas exactly when no delta comes behind an end
      or, by accident, the missed deltas spell the word "undefined" themselves. */
  lemma {:induction false} ReadsItsDeltas(tail: seq<ProxyEvent>)
    ensures ReadText(tail) == (if HasDelta(tail) then Some(Deltas(tail)) else None)
      <==> Missed(tail) in {None, Some("undefined")}
    ensures Missed(tail).None? <==> EndsLast(tail)
    decreases |tail|
  {
    hide Deltas, HasDelta, HasEnd, Cut, EndsLast;
    var n := Cut(tail);
    var behind := tail[n..];
    EndsLastAtCut(tail);
    if n == 0 {
      assert behind == tail;
      NoneMissed(tail);
    } else {
      var ahead := tail[..n - 1];
      assert tail[..n] == ahead + [tail[n - 1]] && tail == tail[..n] + behind;
      DeltasAppend(tail[..n], behind);
      TailOneMore(ahead, tail[n - 1]);
      if HasDelta(behind) {
        SameBehind("undefined", Deltas(tail[..n]), Deltas(behind));
      } else {
        NoDeltas(behind);
        assert Deltas(tail[..n]) + "" == Deltas(tail[..n]);
        ReadsItsDeltas(ahead);
      }
    }
  }

  lemma NoneMissed(tail: seq<ProxyEvent>)
    requires Cut(tail) == 0
    ensures "" + Deltas(tail) == Deltas(tail) && tail[0..] == tail
  {}

  lemma SameBehind(a: string, b: string, rest: string)
    ensures a + rest == b + rest <==> a == b
  {
    if a + rest == b + rest {
      assert |a| == |b|;
      assert a == (a + rest)[..|a|] && b == (b + rest)[..|b|];
    }
  }

  lemma EndsLastAtCut(tail: seq<ProxyEvent>)
    ensures var n := Cut(tail);
      EndsLast(tail) <==> n == 0 || (!HasDelta(tail[n..]) && EndsLast(tail[..n - 1]))
  {
    hide Deltas, HasDelta, EndsLast, Cut;
    var n := Cut(tail);
    if n == 0 {
      NoEndNoOrder(tail);
    } else if EndsLast(tail) {
      NoDeltaBehind(tail, n);
    } else if !HasDelta(tail[n..]) && EndsLast(tail[..n - 1]) {
      NoEndAhead(tail, n);
    }
  }

  lemma NoEndNoOrder(tail: seq<ProxyEvent>)
    requires Cut(tail) == 0
    ensures EndsLast(tail)
  {
    assert tail[0..] == tail && !HasEnd(tail);
  }

  lemma NoDeltaBehind(tail: seq<ProxyEvent>, n: nat)
    requires 0 < n <= |tail| && tail[n - 1].ToolCallEnd? && EndsLast(tail)
    ensures !HasDelta(tail[n..]) && EndsLast(tail[..n - 1])
  {
    var behind := tail[n..];
    forall e <- behind ensures !IsDelta(e) {
      var i :| 0 <= i < |behind| && behind[i] == e;
      assert tail[n - 1].ToolCallEnd? && tail[n + i] == e;
    }
  }

  lemma NoEndAhead(tail: seq<ProxyEvent>, n: nat)
    requires 0 < n <= |tail| && tail[n - 1].ToolCallEnd? && !HasDelta(tail[n..]) && EndsLast(tail[..n - 1])
    ensures EndsLast(tail)
  {
    var ahead, behind := tail[..n - 1], tail[n..];
    forall i, j | 0 <= i < j < |tail| && tail[i].ToolCallEnd? ensures !IsDelta(tail[j]) {
      if j < n - 1 {
        assert ahead[i].ToolCallEnd? && !IsDelta(ahead[j]);
      } else if j >= n {
        assert tail[j] == behind[j - n];
      }
    }
  }

  /** In an accepted stream the finished message holds, at each index, what that index's deltas spell. */
  lemma MessageIsSpelledByDeltas(parse: string -> Json, es: seq<ProxyEvent>, index: nat,
                                 before: seq<ProxyEvent>, start: ProxyEvent, tail: seq<ProxyEvent>)
    requires StepAll(parse, EMPTY_PARTIAL, es).Returned?
    requires EventsAt(es, index) == before + [start] + tail && SinceStart(start, tail)
    ensures var block := BlockAt(StepAll(parse, EMPTY_PARTIAL, es).value.content, index);
      block.Some? && SpelledBy(parse, start, tail, block.value)
  {
    BlocksAreIndependent(parse, es);
    assert BlockFold(parse, EventsAt(es, index)).Returned?;
    BlockIsSpelledByItsDeltas(parse, before, start, tail);
  }

  /** What an end leaves behind, whatever came before it: with a delta behind the last end, the arguments
      are parsed from the word "undefined" and the deltas behind that end; otherwise they stay what they
      were ahead of it. */
  lemma LateDeltaReadsUndefined(parse: string -> Json, before: seq<ProxyEvent>, start: ProxyEvent,
                                ahead: seq<ProxyEvent>, end: ProxyEvent, behind: seq<ProxyEvent>)
    requires start.ToolCallStart? && end.ToolCallEnd? && !HasEnd(behind) && SinceStart(start, ahead + [end] + behind)
    requires BlockFold(parse, before + [start] + (ahead + [end] + behind)).Returned?
    ensures var block := BlockFold(parse, before + [start] + (ahead + [end] + behind)).value;
      && block.Some? && block.value.ToolUse?
      && block.value.call.arguments
           == if HasDelta(behind) then ParseArguments(parse, "undefined" + Deltas(behind))
              else ReadArguments(parse, ReadText(ahead))
  {
    hide HasDelta, Deltas, BlockFold, SinceStart;
    var tail := ahead + [end] + behind;
    BlockIsSpelledByItsDeltas(parse, before, start, tail);
    CutAtEnd(ahead, end, behind);
    assert tail[|ahead| + 1..] == behind && tail[..|ahead|] == ahead;
  }

  lemma {:induction false} CutAtEnd(ahead: seq<ProxyEvent>, end: ProxyEvent, behind: seq<ProxyEvent>)
    requires end.ToolCallEnd? && !HasEnd(behind)
    ensures Cut(ahead + [end] + behind) == |ahead| + 1
  {
    var tail := ahead + [end] + behind;
    if behind == [] {
      assert tail == ahead + [end];
    } else {
      var front, last := behind[..|behind| - 1], behind[|behind| - 1];
      assert last in behind && tail[..|tail| - 1] == ahead + [end] + front;
      CutAtEnd(ahead, end, front);
    }
  }

  // ---- What an event does, field by field ----

  /** An event is rejected exactly when it continues or ends a block of another kind, or none. */
  lemma RejectedExactly(parse: string -> Json, p: Partial, e: ProxyEvent)
    ensures Step(parse, p, e).Threw? <==>
      match e
      case TextDelta(i, _) => !HasText(p, i)
      case TextEnd(i, _) => !HasText(p, i)
      case ThinkingDelta(i, _) => !HasThinking(p, i)
      case ThinkingEnd(i, _) => !HasThinking(p, i)
      case ToolCallDelta(i, _) => !HasToolUse(p, i)
      case _ => false
    ensures Step(parse, p, e).Threw? ==> Step(parse, p, e).error == Rejection(e)
  {
    hide Put, ParseArguments, PutIf, Step;
    if Indexed(e) {
      StepOnBlock(parse, p, e);
    } else {
      PlainStep(parse, p, e);
    }
  }

  lemma PlainStep(parse: string -> Json, p: Partial, e: ProxyEvent)
    requires !Indexed(e)
    ensures Step(parse, p, e).Returned?
  {}

  function Rejection(e: ProxyEvent): string {
    match e
    case TextDelta(_, _) => "Received text_delta for non-text content"
    case TextEnd(_, _) => "Received text_end for non-text content"
    case ThinkingDelta(_, _) => "Received thinking_delta for non-thinking content"
    case ThinkingEnd(_, _) => "Received thinking_end for non-thinking content"
    case _ => "Received toolcall_delta for non-toolCall content"
  }

  predicate HasText(p: Partial, index: nat) {
    index < |p.content| && p.content[index].Some? && p.content[index].value.Text?
  }

  predicate HasThinking(p: Partial, index: nat) {
    index < |p.content| && p.content[index].Some? && p.content[index].value.Thinking?
  }

  predicate HasToolUse(p: Partial, index: nat) {
    index < |p.content| && p.content[index].Some? && p.content[index].value.ToolUse?
  }

  /** The latest final event of a sequence. */
  function LatestFinal(es: seq<ProxyEvent>): Option<ProxyEvent> {
    if es == [] then None
    else if es[|es| - 1].Done? || es[|es| - 1].Error? then Some(es[|es| - 1])
    else LatestFinal(es[..|es| - 1])
  }

  /** The message of the latest error event. */
  function LatestErrorMessage(es: seq<ProxyEvent>): Option<string> {
    if es == [] then None
    else if es[|es| - 1].Error? then es[|es| - 1].errorMessage
    else LatestErrorMessage(es[..|es| - 1])
  }

  /** Reason and usage of the message are those of its latest final event, its error text that of its latest
      error event; until there is one it stands as stopped, without usage or error. */
  lemma {:induction false} FinalEventsSetTheReason(parse: string -> Json, es: seq<ProxyEvent>)
    requires StepAll(parse, EMPTY_PARTIAL, es).Returned?
    ensures var p := StepAll(parse, EMPTY_PARTIAL, es).value;
      && p.errorMessage == LatestErrorMessage(es)
      && match LatestFinal(es)
         case Some(Done(reason, usage)) => p.stopReason == reason && p.usage == usage
         case Some(Error(reason, _, usage)) => p.stopReason == reason && p.usage == usage
         case _ => p.stopReason == Stop && p.usage == Usage(0, 0)
  {
    if es != [] {
      FinalEventsSetTheReason(parse, es[..|es| - 1]);
    }
  }
}
