/** Messages, content blocks and agent events shared by the loop, its wrapper and the proxy decoder.
    Timestamps, usage of individual providers and image payloads are opaque or absent. */
module AgentTypes {

  datatype Option<+T> = None | Some(value: T) {
    function GetOr(default: T): T {
      match this
      case Some(v) => v
      case None => default
    }
  }

  /** What a foreign callback does: it returns a value or throws an error with a message. */
  datatype Attempt<+T> = Returned(value: T) | Threw(error: string)

  datatype Json =
    | JNull
    | JBool(b: bool)
    | JNumber(n: real)
    | JString(s: string)
    | JArray(items: seq<Json>)
    | JObject(entries: seq<(string, Json)>)

  datatype ToolCall = ToolCall(id: string, name: string, arguments: Json)

  /** `partialJson` is the scratch field a tool call carries while it is still streaming. */
  datatype Block =
    | Text(text: string, signature: Option<string>)
    | Thinking(thinking: string, signature: Option<string>)
    | ToolUse(call: ToolCall, partialJson: Option<string>)

  datatype StopReason = Stop | Length | ToolUseStop | ErrorStop | AbortedStop

  datatype Message =
    | User(text: string)
    | Assistant(content: seq<Block>, stopReason: StopReason, errorMessage: Option<string>)
    | ToolResult(toolCallId: string, toolName: string, text: string, details: Json, isError: bool)
    | Custom(kind: string, payload: string)

  type AssistantMessage = m: Message | m.Assistant? witness Assistant([], Stop, None)

  /** What a tool returns; `text` stands for its list of text and image blocks. */
  datatype ToolOutput = ToolOutput(text: string, details: Json, terminate: Option<bool>)

  datatype AgentEvent =
    | AgentStart
    | AgentEnd(messages: seq<Message>)
    | TurnStart
    | TurnEnd(message: Message, toolResults: seq<Message>)
    | MessageStart(message: Message)
    | MessageUpdate(message: Message)
    | MessageEnd(message: Message)
    | ToolExecutionStart(toolCallId: string, toolName: string, args: Json)
    | ToolExecutionUpdate(toolCallId: string, toolName: string, args: Json, partialOutput: ToolOutput)
    | ToolExecutionEnd(toolCallId: string, toolName: string, output: ToolOutput, isError: bool)

  function CallsIn(content: seq<Block>): seq<ToolCall> {
    if content == [] then []
    else (if content[0].ToolUse? then [content[0].call] else []) + CallsIn(content[1..])
  }

  /** The calls are those of the tool-use blocks, in order and once each. */
  lemma {:induction false} CallsAreToolBlocks(a: seq<Block>, b: seq<Block>, call: ToolCall, scratch: Option<string>)
    ensures CallsIn(a + b) == CallsIn(a) + CallsIn(b)
    ensures CallsIn([ToolUse(call, scratch)]) == [call]
    ensures (forall block <- a :: !block.ToolUse?) ==> CallsIn(a) == []
  {
    assert [ToolUse(call, scratch)][1..] == [];
    if a == [] {
      assert a + b == b;
    } else {
      assert (a + b)[1..] == a[1..] + b;
      assert a[0] in a;
      CallsAreToolBlocks(a[1..], b, call, scratch);
    }
  }

  predicate Failed(message: Message) {
    message.Assistant? && message.stopReason in {ErrorStop, AbortedStop}
  }

  /** The start/end pair emitted for a message that does not stream. */
  function Pair(message: Message): seq<AgentEvent> {
    [MessageStart(message), MessageEnd(message)]
  }

  function Pairs(messages: seq<Message>): seq<AgentEvent> {
    if messages == [] then []
    else Pairs(messages[..|messages| - 1]) + Pair(messages[|messages| - 1])
  }

  lemma AppendAssoc<T>(a: seq<T>, b: seq<T>, c: seq<T>)
    ensures a + b + c == a + (b + c)
  {}

  /** A JavaScript array of messages: an object that is pushed to and overwritten in place. */
  class MessageList {
    var items: seq<Message>

    constructor (items: seq<Message>)
      ensures this.items == items
    {
      this.items := items;
    }

    method Push(message: Message)
      modifies this
      ensures items == old(items) + [message]
    {
      items := items + [message];
    }

    method SetLast(message: Message)
      requires |items| > 0
      modifies this
      ensures items == old(items)[..|old(items)| - 1] + [message]
    {
      items := items[|items| - 1 := message];
    }
  }
}
