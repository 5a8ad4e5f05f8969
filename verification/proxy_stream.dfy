/** The proxy connection: decoded chunks are cut into lines, `data: ` lines are decoded into events, and
    the rebuilt events are pushed to the consumer. */
module ProxyStreams {
  import opened AgentTypes
  import opened Text
  import opened ProxyMessages

  // ---- Framing ----

  /** The newline-terminated lines of a text. */
  function Lines(text: string): seq<string> {
    var pieces := Split(text, "\n");
    pieces[..|pieces| - 1]
  }

  /** What follows the last newline. */
  function Unterminated(text: string): string {
    var pieces := Split(text, "\n");
    pieces[|pieces| - 1]
  }

  /** The buffer and the lines after a list of chunks, as the read loop computes them. */
  function Framed(chunks: seq<string>): (string, seq<string>) {
    if chunks == [] then ("", [])
    else
      var (buffer, lines) := Framed(chunks[..|chunks| - 1]);
      var text := buffer + chunks[|chunks| - 1];
      (Unterminated(text), lines + Lines(text))
  }

  /** Only the last, unterminated piece of a text can still change. */
  lemma LinesOfMoreText(before: string, chunk: string)
    ensures Lines(before + chunk) == Lines(before) + Lines(Unterminated(before) + chunk)
    ensures Unterminated(before + chunk) == Unterminated(Unterminated(before) + chunk)
  {
    hide Split, Join;
    var left, last, right := Split(before, "\n"), Unterminated(before), Split(chunk, "\n");
    SplitAppend(before, chunk, '\n');
    SplitAppend(last, chunk, '\n');
    SplitIsTheInverseOfJoin(before, '\n');
    assert last in left;
    JoinThenSplit([last], '\n');
    SinglePiece(last);
    LastPieceContinues(left, right);
  }

  lemma SinglePiece(piece: string)
    ensures Join([piece], "\n") == piece
  {}

  lemma LastPieceContinues(left: seq<string>, right: seq<string>)
    requires left != [] && right != []
    ensures var all, tail := Continued(left, right), Continued([left[|left| - 1]], right);
      && all[..|all| - 1] == left[..|left| - 1] + tail[..|tail| - 1]
      && all[|all| - 1] == tail[|tail| - 1]
  {
    assert Continued(left, right) == left[..|left| - 1] + Continued([left[|left| - 1]], right);
  }

  /** However a text is cut into chunks, the loop handles exactly its newline-terminated lines, in order
      and once each, and is left with the unterminated rest. */
  lemma {:induction false} ChunkingDoesNotMatter(chunks: seq<string>)
    ensures Framed(chunks) == (Unterminated(Concat(chunks)), Lines(Concat(chunks)))
  {
    if chunks != [] {
      ChunkingDoesNotMatter(chunks[..|chunks| - 1]);
      LinesOfMoreText(Concat(chunks[..|chunks| - 1]), chunks[|chunks| - 1]);
    } else {
      assert Split("", "\n") == [""];
    }
  }

  /** The handled lines and the rest make up the text, and no line contains a newline. */
  lemma LinesMakeUpTheText(text: string)
    ensures Join(Lines(text) + [Unterminated(text)], "\n") == text
    ensures forall line <- Lines(text) + [Unterminated(text)] :: '\n' !in line
  {
    SplitIsTheInverseOfJoin(text, '\n');
    var pieces := Split(text, "\n");
    assert pieces == Lines(text) + [Unterminated(text)];
  }

  // ---- Decoding ----

  /** The two foreign parsers: of one event, and of the arguments of a streaming tool call. */
  datatype Parsers = Parsers(event: string -> Attempt<ProxyEvent>, arguments: string -> Json)

  /** The partial message, what was handed to the consumer's stream, and the error that stopped decoding. */
  datatype Decoded = Decoded(partial: Partial, handed: seq<Push>, error: Option<string>)

  const PREFIX := "data: "

  /** The payload of a line, if it carries one. */
  function Payload(line: string): string {
    if PREFIX <= line then Trim(line[|PREFIX|..]) else ""
  }

  function Handle(parsers: Parsers, d: Decoded, line: string): Decoded {
    if d.error.Some? || Payload(line) == "" then d
    else
      match parsers.event(Payload(line))
      case Threw(error) => d.(error := Some(error))
      case Returned(e) =>
        match Step(parsers.arguments, d.partial, e)
        case Threw(error) => d.(error := Some(error))
        case Returned(after) =>
          var push := PushOf(e, if Indexed(e) then BlockAt(after.content, e.index) else None);
          Decoded(after, d.handed + (if push.Some? then [push.value] else []), None)
  }

  function HandleAll(parsers: Parsers, d: Decoded, lines: seq<string>): Decoded {
    if lines == [] then d else Handle(parsers, HandleAll(parsers, d, lines[..|lines| - 1]), lines[|lines| - 1])
  }

  const NOTHING_DECODED := Decoded(EMPTY_PARTIAL, [], None)

  lemma {:induction false} HandleAllAppend(parsers: Parsers, d: Decoded, a: seq<string>, b: seq<string>)
    ensures HandleAll(parsers, d, a + b) == HandleAll(parsers, HandleAll(parsers, d, a), b)
  {
    if b == [] {
      assert a + b == a;
    } else {
      HandleAllAppend(parsers, d, a, b[..|b| - 1]);
      assert (a + b)[..|a + b| - 1] == a + b[..|b| - 1];
    }
  }

  lemma {:induction false} ErrorsStick(parsers: Parsers, d: Decoded, lines: seq<string>)
    requires d.error.Some?
    ensures HandleAll(parsers, d, lines) == d
  {
    if lines != [] {
      ErrorsStick(parsers, d, lines[..|lines| - 1]);
    }
  }

  // ---- The consumer's stream ----

  predicate Terminal(p: Push) {
    p.PushDone? || p.PushError?
  }

  /** What the consumer sees of everything handed over: nothing behind the first terminal event. */
  function Seen(handed: seq<Push>): seq<Push> {
    if handed == [] then []
    else
      var before := Seen(handed[..|handed| - 1]);
      if before != [] && Terminal(before[|before| - 1]) then before else before + [handed[|handed| - 1]]
  }

  class EventStream {
    var delivered: seq<Push>
    var done: bool
    ghost var handed: seq<Push>

    ghost predicate Open()
      reads this
    {
      && delivered == Seen(handed)
      && (done <==> delivered != [] && Terminal(delivered[|delivered| - 1]))
    }

    constructor ()
      ensures Open() && handed == []
    {
      delivered, done, handed := [], false, [];
    }

    method Push(event: Push)
      requires Open()
      modifies this
      ensures Open() && handed == old(handed) + [event]
    {
      handed := handed + [event];
      assert handed[..|handed| - 1] == old(handed);
      if done {
        return;
      }
      if Terminal(event) {
        done := true;
      }
      delivered := delivered + [event];
    }

    method End()
      modifies this
      ensures done && delivered == old(delivered) && handed == old(handed)
    {
      done := true;
    }
  }

  /** The consumer sees at most one terminal event, as the last one, and sees one exactly when one was
      handed over; otherwise the stream ends without a result. */
  lemma {:induction false} OneTerminalLast(handed: seq<Push>)
    ensures var seen := Seen(handed);
      && |seen| <= |handed| && seen == handed[..|seen|]
      && (forall k :: 0 <= k < |seen| - 1 ==> !seen[k].PushDone? && !seen[k].PushError?)
      && ((seen != [] && (seen[|seen| - 1].PushDone? || seen[|seen| - 1].PushError?))
          <==> exists p <- handed :: p.PushDone? || p.PushError?)
  {
    if handed != [] {
      var front, last := handed[..|handed| - 1], handed[|handed| - 1];
      OneTerminalLast(front);
      var before := Seen(front);
      assert last in handed && forall p <- front :: p in handed;
      if !(before != [] && Terminal(before[|before| - 1])) {
        assert |before| == |front| by { NothingTerminalSeenAll(front); }
      } else {
        assert before[|before| - 1] in front;
      }
    }
  }

  lemma {:induction false} NothingTerminalSeenAll(handed: seq<Push>)
    requires var seen := Seen(handed); !(seen != [] && Terminal(seen[|seen| - 1]))
    ensures Seen(handed) == handed
  {
    if handed != [] {
      NothingTerminalSeenAll(handed[..|handed| - 1]);
    }
  }

  // ---- The read loop ----

  /** How the connection ends once its chunks are out: closed by the server, or with a read error. */
  datatype Ending = Closed | Broken(error: string)

  /** The decoder's state after the loop, before the outcome is reported. */
  function DecodedText(parsers: Parsers, text: string): Decoded {
    HandleAll(parsers, NOTHING_DECODED, Lines(text))
  }

  /** How many chunks are decoded: an abort seen after a read discards that read's chunk. */
  function ChunksRead(chunks: seq<string>, aborted: nat -> bool, from: nat): (n: nat)
    requires from <= |chunks|
    ensures from <= n <= |chunks|
    ensures (forall k :: from <= k < n ==> !aborted(k)) && (n < |chunks| ==> aborted(n))
    decreases |chunks| - from
  {
    if from == |chunks| || aborted(from) then from else ChunksRead(chunks, aborted, from + 1)
  }

  const ABORT_MESSAGE := "Request aborted by user"

  /** The error reported for a finished connection, if any: a decoding error, an abort or a read error.
      `aborted(k)` is what the signal reads after read number `k`, the last of which finds no chunk. */
  function ReportedError(parsers: Parsers, chunks: seq<string>, aborted: nat -> bool, ending: Ending): Option<string> {
    var n := ChunksRead(chunks, aborted, 0);
    var d := DecodedText(parsers, Concat(chunks[..n]));
    if d.error.Some? then d.error
    else if n < |chunks| then Some(ABORT_MESSAGE)
    else if ending.Broken? then Some(ending.error)
    else if aborted(|chunks|) then Some(ABORT_MESSAGE)
    else None
  }

  /** Which error is reported: a line that cannot be decoded, else an abort seen after a read, else a broken
      connection, else an abort seen after the last read, else none. */
  lemma ErrorReported(parsers: Parsers, chunks: seq<string>, aborted: nat -> bool, ending: Ending)
    ensures var n := ChunksRead(chunks, aborted, 0);
      var decoding := HandleAll(parsers, NOTHING_DECODED, Lines(Concat(chunks[..n]))).error;
      var reported := ReportedError(parsers, chunks, aborted, ending);
      && (decoding.Some? ==> reported == decoding)
      && (decoding.None? && (exists k :: 0 <= k < |chunks| && aborted(k)) ==> reported == Some("Request aborted by user"))
      && (decoding.None? && (forall k :: 0 <= k < |chunks| ==> !aborted(k)) ==>
           reported == match ending
             case Broken(error) => Some(error)
             case Closed => if aborted(|chunks|) then Some("Request aborted by user") else None)
  {
    hide HandleAll, Lines, Concat;
  }

  /** Handles the lines of one read; on an error the rest are skipped. */
  method HandleLines(lines: seq<string>, parsers: Parsers, partial: PartialMessage, stream: EventStream)
      returns (error: Option<string>)
    requires stream.Open()
    modifies partial, stream
    ensures stream.Open()
    ensures Decoded(partial.Value(), stream.handed, error)
         == HandleAll(parsers, Decoded(old(partial.Value()), old(stream.handed), None), lines)
  {
    hide Seen, Step, PushOf;
    error := None;
    ghost var start := Decoded(partial.Value(), stream.handed, None);
    var i := 0;
    while i < |lines| && error.None?
      invariant 0 <= i <= |lines| && stream.Open()
      invariant Decoded(partial.Value(), stream.handed, error) == HandleAll(parsers, start, lines[..i])
      decreases |lines| - i
    {
      assert lines[..i + 1][..i] == lines[..i];
      var line := lines[i];
      if PREFIX <= line {
        var data := Trim(line[|PREFIX|..]);
        if data != "" {
          match parsers.event(data) {
            case Threw(e) => error := Some(e);
            case Returned(proxyEvent) =>
              var r := partial.ProcessProxyEvent(proxyEvent, parsers.arguments);
              match r {
                case Threw(e) => error := Some(e);
                case Returned(None) =>
                case Returned(Some(event)) => stream.Push(event);
              }
          }
        }
      }
      i := i + 1;
    }
    assert lines == lines[..i] + lines[i..];
    HandleAllAppend(parsers, start, lines[..i], lines[i..]);
    if error.Some? {
      ErrorsStick(parsers, HandleAll(parsers, start, lines[..i]), lines[i..]);
    } else {
      assert lines[i..] == [];
    }
  }

  /** `abortedAtCatch` is what the signal reads when an error is being reported. */
  function FailureReason(abortedAtCatch: bool): StopReason {
    if abortedAtCatch then AbortedStop else ErrorStop
  }

  /** What has been decoded when the read loop is through. */
  ghost function DecodedChunks(parsers: Parsers, chunks: seq<string>, aborted: nat -> bool): Decoded {
    DecodedText(parsers, Concat(chunks[..ChunksRead(chunks, aborted, 0)]))
  }

  /** The read loop, up to the error that ends it or the last chunk. */
  method ReadChunks(chunks: seq<string>, aborted: nat -> bool, ghost ending: Ending, parsers: Parsers,
                    partial: PartialMessage, stream: EventStream) returns (error: Option<string>)
    requires stream.Open() && stream.handed == [] && partial.Value() == EMPTY_PARTIAL
    modifies partial, stream
    ensures stream.Open()
    ensures var d := DecodedChunks(parsers, chunks, aborted); partial.Value() == d.partial && stream.handed == d.handed
    ensures error.Some? ==> error == ReportedError(parsers, chunks, aborted, ending)
    ensures error.None? ==> ChunksRead(chunks, aborted, 0) == |chunks| && DecodedChunks(parsers, chunks, aborted).error.None?
  {
    hide Seen, Handle, HandleAll, Lines, Unterminated, Split, ChunksRead, Concat, Framed;
    var buffer := "";
    error := None;
    var k := 0;
    NothingRead(chunks, parsers);
    while k < |chunks| && error.None?
      invariant 0 <= k <= |chunks| && stream.Open()
      invariant error.None? ==> ChunksRead(chunks, aborted, 0) == ChunksRead(chunks, aborted, k)
      invariant error.None? ==> buffer == Framed(chunks[..k]).0
      invariant error.None? ==> Decoded(partial.Value(), stream.handed, None) == HandleAll(parsers, NOTHING_DECODED, Framed(chunks[..k]).1)
      invariant error.Some? ==> error == ReportedError(parsers, chunks, aborted, ending)
      invariant error.Some? ==>
        var d := DecodedChunks(parsers, chunks, aborted); partial.Value() == d.partial && stream.handed == d.handed
      decreases |chunks| - k
    {
      ReadOneMore(chunks, aborted, k);
      if aborted(k) {
        error := Some(ABORT_MESSAGE);
        ChunkingDoesNotMatter(chunks[..k]);
      } else {
        buffer := buffer + chunks[k];
        var lines := Lines(buffer);
        HandleAllAppend(parsers, NOTHING_DECODED, Framed(chunks[..k]).1, lines);
        buffer := Unterminated(buffer);
        error := HandleLines(lines, parsers, partial, stream);
        if error.Some? {
          LaterTextIsIgnored(parsers, chunks, aborted, k + 1);
        }
      }
      k := k + 1;
    }
    if error.None? {
      ChunkingDoesNotMatter(chunks);
      assert chunks[..|chunks|] == chunks;
    }
  }

  lemma NothingRead(chunks: seq<string>, parsers: Parsers)
    ensures Framed(chunks[..0]) == ("", []) && HandleAll(parsers, NOTHING_DECODED, []) == NOTHING_DECODED
  {
    assert chunks[..0] == [];
  }

  lemma ReadOneMore(chunks: seq<string>, aborted: nat -> bool, k: nat)
    requires k < |chunks|
    ensures ChunksRead(chunks, aborted, k) == if aborted(k) then k else ChunksRead(chunks, aborted, k + 1)
    ensures Framed(chunks[..k + 1]) ==
      var (buffer, lines) := Framed(chunks[..k]); (Unterminated(buffer + chunks[k]), lines + Lines(buffer + chunks[k]))
  {
    assert chunks[..k + 1][..k] == chunks[..k];
  }

  method StreamProxy(chunks: seq<string>, aborted: nat -> bool, ending: Ending, abortedAtCatch: bool, parsers: Parsers)
      returns (partial: PartialMessage, stream: EventStream)
    ensures fresh(partial) && fresh(stream)
    ensures stream.done && stream.delivered == Seen(stream.handed)
    ensures
      var d := DecodedText(parsers, Concat(chunks[..ChunksRead(chunks, aborted, 0)]));
      match ReportedError(parsers, chunks, aborted, ending)
      case None => partial.Value() == d.partial && stream.handed == d.handed
      case Some(error) =>
        var reason := if abortedAtCatch then AbortedStop else ErrorStop;
        && partial.Value() == d.partial.(stopReason := reason, errorMessage := Some(error))
        && stream.handed == d.handed + [PushError(reason)]
  {
    hide Seen, ChunksRead, DecodedText, Concat;
    partial := new PartialMessage();
    stream := new EventStream();
    var error := ReadChunks(chunks, aborted, ending, parsers, partial, stream);
    if error.None? {
      if ending.Broken? {
        error := Some(ending.error);
      } else if aborted(|chunks|) {
        error := Some(ABORT_MESSAGE);
      }
    }
    if error.None? {
      stream.End();
    } else {
      partial.stopReason := FailureReason(abortedAtCatch);
      partial.errorMessage := error;
      stream.Push(PushError(FailureReason(abortedAtCatch)));
      stream.End();
    }
  }

  /** Once decoding has failed, no later chunk changes what was decoded. */
  lemma LaterTextIsIgnored(parsers: Parsers, chunks: seq<string>, aborted: nat -> bool, k: nat)
    requires 0 < k <= |chunks| && ChunksRead(chunks, aborted, 0) == ChunksRead(chunks, aborted, k - 1) && !aborted(k - 1)
    ensures var d := HandleAll(parsers, NOTHING_DECODED, Framed(chunks[..k]).1); d.error.Some? ==>
      && DecodedText(parsers, Concat(chunks[..ChunksRead(chunks, aborted, 0)])) == d
      && ReportedError(parsers, chunks, aborted, Closed) == d.error
  {
    hide Handle, HandleAll, Lines, Unterminated, Framed, Concat;
    var n := ChunksRead(chunks, aborted, 0);
    var d := HandleAll(parsers, NOTHING_DECODED, Framed(chunks[..k]).1);
    if d.error.Some? {
      FramedGrows(chunks[..n], k);
      assert chunks[..n][..k] == chunks[..k];
      ChunkingDoesNotMatter(chunks[..n]);
      var early, late := Framed(chunks[..k]).1, Framed(chunks[..n]).1;
      HandleAllAppend(parsers, NOTHING_DECODED, early, late[|early|..]);
      ErrorsStick(parsers, d, late[|early|..]);
      assert late == early + late[|early|..];
    }
  }

  lemma {:induction false} FramedGrows(chunks: seq<string>, k: nat)
    requires k <= |chunks|
    ensures Framed(chunks[..k]).1 <= Framed(chunks).1
  {
    if k == |chunks| {
      assert chunks[..k] == chunks;
    } else {
      FramedGrows(chunks[..|chunks| - 1], k);
      assert chunks[..|chunks| - 1][..k] == chunks[..k];
    }
  }

  /** Without an abort, what the consumer gets depends on the text alone, not on its chunks. */
  lemma OutcomeDependsOnTextOnly(parsers: Parsers, chunks: seq<string>, others: seq<string>, aborted: nat -> bool, ending: Ending)
    requires Concat(chunks) == Concat(others) && forall k: nat :: !aborted(k)
    ensures ReportedError(parsers, chunks, aborted, ending) == ReportedError(parsers, others, aborted, ending)
    ensures DecodedText(parsers, Concat(chunks[..ChunksRead(chunks, aborted, 0)]))
         == DecodedText(parsers, Concat(others[..ChunksRead(others, aborted, 0)]))
  {
    hide DecodedText, Concat;
    ReadsAll(chunks, aborted, 0);
    ReadsAll(others, aborted, 0);
    assert chunks[..|chunks|] == chunks && others[..|others|] == others;
  }

  lemma {:induction false} ReadsAll(chunks: seq<string>, aborted: nat -> bool, from: nat)
    requires from <= |chunks| && forall k: nat :: !aborted(k)
    ensures ChunksRead(chunks, aborted, from) == |chunks|
    decreases |chunks| - from
  {
    if from < |chunks| {
      ReadsAll(chunks, aborted, from + 1);
    }
  }
}
