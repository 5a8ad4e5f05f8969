/** What the decoder hands on to the consumer, in terms of the events it accepts. */
module ProxyHanding {
  import opened AgentTypes
  import opened Text
  import opened ProxyMessages
  import opened ProxyStreams

  /** The events read once one more line is, and the error the line gives. A line without the prefix or a
      blank one carries nothing. */
  function ReadLine(parsers: Parsers, es: seq<ProxyEvent>, line: string): (seq<ProxyEvent>, Option<string>) {
    if !("data: " <= line) || Trim(line[6..]) == "" then (es, None)
    else
      match parsers.event(Trim(line[6..]))
      case Threw(problem) => (es, Some(problem))
      case Returned(e) =>
        match StepAll(parsers.arguments, EMPTY_PARTIAL, es + [e])
        case Threw(problem) => (es, Some(problem))
        case Returned(_) => (es + [e], None)
  }

  /** The events a list of lines carries, up to the first line that cannot be read or is rejected, and the
      error that line gives. */
  function EventsIn(parsers: Parsers, lines: seq<string>): (seq<ProxyEvent>, Option<string>) {
    if lines == [] then ([], None)
    else
      var (es, error) := EventsIn(parsers, lines[..|lines| - 1]);
      if error.Some? then (es, error) else ReadLine(parsers, es, lines[|lines| - 1])
  }

  /** What is handed on for a sequence of accepted events. */
  function HandedFor(parse: string -> Json, es: seq<ProxyEvent>): seq<Push> {
    if es == [] then []
    else
      var e, after := es[|es| - 1], StepAll(parse, EMPTY_PARTIAL, es);
      var block := if Indexed(e) && after.Returned? then BlockAt(after.value.content, e.index) else None;
      var push := PushOf(e, block);
      HandedFor(parse, es[..|es| - 1]) + (if push.Some? then [push.value] else [])
  }

  /** What has been decoded is what the events read so far make. */
  ghost predicate Reflects(parsers: Parsers, d: Decoded, es: seq<ProxyEvent>) {
    StepAll(parsers.arguments, EMPTY_PARTIAL, es) == Returned(d.partial) && d.handed == HandedFor(parsers.arguments, es)
  }

  lemma OneMoreEvent(parse: string -> Json, es: seq<ProxyEvent>, e: ProxyEvent, p: Partial)
    requires StepAll(parse, EMPTY_PARTIAL, es) == Returned(p)
    ensures var all := StepAll(parse, EMPTY_PARTIAL, es + [e]);
      && all == Step(parse, p, e)
      && (all.Returned? ==>
           var push := PushOf(e, if Indexed(e) then BlockAt(all.value.content, e.index) else None);
           HandedFor(parse, es + [e]) == HandedFor(parse, es) + (if push.Some? then [push.value] else []))
  {
    hide Step, PushOf;
    assert (es + [e])[..|es|] == es;
  }

  lemma LineIsRead(parsers: Parsers, d: Decoded, es: seq<ProxyEvent>, line: string)
    requires d.error.None? && Reflects(parsers, d, es)
    ensures var after, read := Handle(parsers, d, line), ReadLine(parsers, es, line);
      after.error == read.1 && Reflects(parsers, after, read.0)
  {
    hide Step, PushOf, Trim, StepAll, HandedFor;
    if "data: " <= line && Trim(line[6..]) != "" && parsers.event(Trim(line[6..])).Returned? {
      OneMoreEvent(parsers.arguments, es, parsers.event(Trim(line[6..])).value, d.partial);
    }
  }

  /** Decoding lines is reading their events, folding them into the message and handing them on. */
  lemma {:induction false} DecodingReadsEvents(parsers: Parsers, lines: seq<string>)
    ensures var d, read := HandleAll(parsers, NOTHING_DECODED, lines), EventsIn(parsers, lines);
      && d.error == read.1
      && StepAll(parsers.arguments, EMPTY_PARTIAL, read.0) == Returned(d.partial)
      && d.handed == HandedFor(parsers.arguments, read.0)
  {
    hide Handle, ReadLine;
    if lines != [] {
      var front, line := lines[..|lines| - 1], lines[|lines| - 1];
      DecodingReadsEvents(parsers, front);
      var d, es := HandleAll(parsers, NOTHING_DECODED, front), EventsIn(parsers, front).0;
      if d.error.Some? {
        ErrorsStick(parsers, d, [line]);
        OneLine(parsers, d, line);
      } else {
        LineIsRead(parsers, d, es, line);
      }
    }
  }

  lemma OneLine(parsers: Parsers, d: Decoded, line: string)
    ensures HandleAll(parsers, d, [line]) == Handle(parsers, d, line)
  {
    assert [line][..0] == [];
  }

  /** What one more accepted event hands on, by its kind: nothing for an unhandled event or the end of a block
      that is no tool call, otherwise one event that says the same; a block start or end carries the block as
      it then stands. */
  lemma HandedOneMore(parse: string -> Json, es: seq<ProxyEvent>, e: ProxyEvent)
    requires StepAll(parse, EMPTY_PARTIAL, es + [e]).Returned?
    ensures HandedFor(parse, es + [e]) == HandedFor(parse, es) + HandedOn(e, StepAll(parse, EMPTY_PARTIAL, es + [e]).value)
  {
    hide HandedFor, StepAll;
    FrontAccepted(parse, es, e);
    var p := StepAll(parse, EMPTY_PARTIAL, es).value;
    OneMoreEvent(parse, es, e, p);
    if Indexed(e) {
      StepIsLocal(parse, p, e, e.index);
    }
  }

  ghost function HandedOn(e: ProxyEvent, p: Partial): seq<Push> {
    match e
    case Start => [PushStart]
    case TextStart(i) => [PushBlockStart(i, Text("", None))]
    case ThinkingStart(i) => [PushBlockStart(i, Thinking("", None))]
    case ToolCallStart(i, id, name) => [PushBlockStart(i, ToolUse(ToolCall(id, name, JObject([])), Some("")))]
    case TextDelta(i, delta) => [PushDelta(i, delta)]
    case ThinkingDelta(i, delta) => [PushDelta(i, delta)]
    case ToolCallDelta(i, delta) => [PushDelta(i, delta)]
    case TextEnd(i, _) => if i < |p.content| && p.content[i].Some? then [PushBlockEnd(i, p.content[i].value)] else []
    case ThinkingEnd(i, _) => if i < |p.content| && p.content[i].Some? then [PushBlockEnd(i, p.content[i].value)] else []
    case ToolCallEnd(i) => if HasToolUse(p, i) then [PushBlockEnd(i, p.content[i].value)] else []
    case Done(reason, _) => [PushDone(reason)]
    case Error(reason, _, _) => [PushError(reason)]
    case Unhandled => []
  }

  // ---- Laws of what is handed on ----

  /** The final events of a sequence and of what was handed on, with their reasons. */
  datatype Final = FinalDone(reason: StopReason) | FinalError(reason: StopReason)

  function FinalOf(e: ProxyEvent): seq<Final> {
    match e
    case Done(reason, _) => [FinalDone(reason)]
    case Error(reason, _, _) => [FinalError(reason)]
    case _ => []
  }

  function FinalsIn(es: seq<ProxyEvent>): seq<Final> {
    if es == [] then [] else FinalsIn(es[..|es| - 1]) + FinalOf(es[|es| - 1])
  }

  function FinalsHanded(handed: seq<Push>): seq<Final> {
    if handed == [] then []
    else
      FinalsHanded(handed[..|handed| - 1]) +
      match handed[|handed| - 1] {
        case PushDone(reason) => [FinalDone(reason)]
        case PushError(reason) => [FinalError(reason)]
        case _ => []
      }
  }

  function DeltasHanded(handed: seq<Push>, index: nat): string {
    if handed == [] then ""
    else
      var last := handed[|handed| - 1];
      DeltasHanded(handed[..|handed| - 1], index) + (if last.PushDelta? && last.index == index then last.delta else "")
  }

  /** The done and error events are handed on as such, in order, once each and with their reasons; and the
      deltas handed on for an index are those that arrived for it. */
  lemma {:induction false} HandedSaysTheSame(parse: string -> Json, es: seq<ProxyEvent>, index: nat)
    requires StepAll(parse, EMPTY_PARTIAL, es).Returned?
    ensures FinalsHanded(HandedFor(parse, es)) == FinalsIn(es)
    ensures DeltasHanded(HandedFor(parse, es), index) == Deltas(EventsAt(es, index))
  {
    hide StepAll, HandedFor, FinalsHanded, FinalsIn, DeltasHanded, Deltas, EventsAt, HandedOn;
    if es == [] {
      NothingHanded(parse, index);
    } else {
      var front, e := es[..|es| - 1], es[|es| - 1];
      assert es == front + [e];
      FrontAccepted(parse, front, e);
      HandedSaysTheSame(parse, front, index);
      HandedOneMore(parse, front, e);
      var before, on := HandedFor(parse, front), HandedOn(e, StepAll(parse, EMPTY_PARTIAL, es).value);
      OnSaysTheSame(e, StepAll(parse, EMPTY_PARTIAL, es).value, before, index);
      EventsOneMore(front, e, index);
    }
  }

  lemma NothingHanded(parse: string -> Json, index: nat)
    ensures HandedFor(parse, []) == [] && FinalsHanded([]) == FinalsIn([]) == []
    ensures DeltasHanded([], index) == Deltas(EventsAt([], index)) == ""
  {}

  lemma FrontAccepted(parse: string -> Json, front: seq<ProxyEvent>, e: ProxyEvent)
    requires StepAll(parse, EMPTY_PARTIAL, front + [e]).Returned?
    ensures StepAll(parse, EMPTY_PARTIAL, front).Returned?
  {
    assert (front + [e])[..|front|] == front;
  }

  lemma EventsOneMore(front: seq<ProxyEvent>, e: ProxyEvent, index: nat)
    ensures FinalsIn(front + [e]) == FinalsIn(front) + FinalOf(e)
    ensures Deltas(EventsAt(front + [e], index)) == Deltas(EventsAt(front, index)) + DeltaOf(e, index)
  {
    assert (front + [e])[..|front|] == front;
    var own := EventsAt(front, index);
    if Indexed(e) && e.index == index {
      TailOneMore(own, e);
      assert EventsAt(front + [e], index) == own + [e];
    } else {
      assert own + [] == own;
    }
    assert Deltas(EventsAt(front, index)) + "" == Deltas(EventsAt(front, index));
  }

  function DeltaOf(e: ProxyEvent, index: nat): string {
    if IsDelta(e) && e.index == index then e.delta else ""
  }

  lemma OnSaysTheSame(e: ProxyEvent, p: Partial, before: seq<Push>, index: nat)
    ensures FinalsHanded(before + HandedOn(e, p)) == FinalsHanded(before) + FinalOf(e)
    ensures DeltasHanded(before + HandedOn(e, p), index) == DeltasHanded(before, index) + DeltaOf(e, index)
  {
    var on := HandedOn(e, p);
    if on == [] {
      assert before + on == before;
      assert FinalsHanded(before) + [] == FinalsHanded(before);
      assert DeltasHanded(before, index) + "" == DeltasHanded(before, index);
    } else {
      assert (before + on)[..|before|] == before;
    }
  }

  /** All of it for a text: what is decoded and handed on, and the error, are those of the events its lines
      carry. */
  lemma TextIsHandedOn(parsers: Parsers, text: string, index: nat)
    ensures var d, (es, error) := DecodedText(parsers, text), EventsIn(parsers, Lines(text));
      && d.error == error && StepAll(parsers.arguments, EMPTY_PARTIAL, es) == Returned(d.partial)
      && FinalsHanded(d.handed) == FinalsIn(es)
      && DeltasHanded(d.handed, index) == Deltas(EventsAt(es, index))
  {
    hide StepAll, HandedFor, FinalsHanded, FinalsIn, DeltasHanded, Deltas, EventsAt, HandleAll, EventsIn, Lines;
    DecodingReadsEvents(parsers, Lines(text));
    HandedSaysTheSame(parsers.arguments, EventsIn(parsers, Lines(text)).0, index);
  }
}
