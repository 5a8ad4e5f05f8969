# Verified model of the agent core

A coding agent alternates between calling a language model, running the tools the model asks for, and taking in
messages its user queues meanwhile. This project models the parts of the repository that carry that out, with three
self-contained algorithms beside them, and proves what holds of every run.

- **The turn loop** (`packages/agent/src/agent-loop.ts`). Two nested loops that stream a reply, run its tool calls
  one by one or concurrently, and inject queued messages. `streaming.dfy`, `tool_batch.dfy`, `agent_loop.dfy` hold the
  methods in the source's own shape: message arrays are objects that are pushed to and overwritten in place, events go
  to a sink that keeps them. `runs.dfy` says what a run is without reference to the loop: a list of turns, each with
  the events and messages it accounts for, and which turn may follow which. `polling.dfy` computes, turn by turn, what
  the polls of a run find in the two queues, hand over and leave. The loop is proved to produce only such runs, with
  exactly those polls; `tool_batch_laws.dfy`, `run_laws.dfy`, `polling.dfy` and `trace_grammar.dfy` prove what is true
  of all of them.
- **The stateful wrapper** (`packages/agent/src/agent.ts`). `agent_state.dfy`, `pending_queue.dfy`, `agent.dfy`: the
  reducer that folds events into a second transcript, the two message queues with their histories, and the class that
  starts, continues, aborts and resets runs. `lifecycle.dfy` treats all histories of such calls, and the runs in which
  a listener or the loop throws.
- **The proxy stream decoder** (`packages/agent/src/proxy.ts`). `proxy_stream.dfy` frames lines from arbitrary chunks
  (a subset of section 9.2.6, "Interpreting an event stream", of the WHATWG HTML Living Standard);
  `proxy_messages.dfy` rebuilds the message from events whose partial message was stripped; `proxy_handing.dfy` says
  what is handed on of it; `text.dfy` has the string operations they use.
- **Transcript packing** (`scripts/session-transcripts.ts`), in `packing.dfy`.
- **Fuzzy matching and filtering** (`packages/tui/src/fuzzy.ts`), in `fuzzy.dfy` and `fuzzy_filter.dfy`.
- **Rewriting legacy paths** (`packages/coding-agent/src/legacy-pi-import.ts`), in `legacy_paths.dfy`.

Everything foreign is a parameter: what the provider streams, how each tool, argument check and hook behaves, what the
abort signal reads each time it is looked at, what callers enqueue before each poll, whether a listener throws, what
the JSON parsers return. Every theorem therefore holds for all of their behaviours, within the assumptions each member
states: tool-call ids are distinct within a message wherever ids are what is counted; the loop's own callbacks do not
throw, except in `Lifecycles` and `Agent.RunWithLifecycle`, which are about throwing. Provider streams may break their
protocol; where it matters that each starts at most once, the result says "if and only if".

A concurrent batch is a step relation: at every step any unfinished call may emit its next event, and the resulting
schedule is an arbitrary sequence of call positions that plays every call to its end. A run may be cut off after any
number of turns, so contracts of the loop speak about every finite prefix of every run, including runs that would not
end; a run is finished exactly when its last reply failed, the stop hook said so, or nothing is left to do, and it does
finish, within a computed number of turns,
whenever the model asks for finitely many tool batches and callers enqueue finitely many messages.

## Where the code does something its surroundings do not suggest

- A stream that starts `n > 1` times leaves `n - 1` stale partial messages in the context, which then differs from the
  other two copies of the transcript (`Streaming.StreamingIsOneAppend`, `RunLaws.TranscriptsAgree` give the exact
  condition).
- When a listener throws during a concurrent batch, the other tools of the batch go on, and their late events are still
  reduced, even after the run is over (`Lifecycles.HistoriesAreSound` holds with them).
- A listener that throws on `agent_end` makes the failure handler report a second `agent_end`, and listeners that throw
  often enough prevent every `agent_end` (`Lifecycles.EndsReported` gives the number for every behaviour of the
  listeners).
- `reset()` during a run clears `isStreaming` although the run goes on (`Lifecycles.StreamingMeansActive`).
- A `toolcall_delta` behind its own `toolcall_end` is read behind the word "undefined"
  (`ProxyMessages.LateDeltaReadsUndefined`; `ProxyMessages.ReadsItsDeltas` says exactly when this loses deltas).
- The pass that should map the legacy user directory to the configured agent directory never finds anything, because
  earlier passes have rewritten every `.pi/` and `.pi\` (`LegacyPaths.SixPassesAreThree`); the two passes over
  `~/.pi/agent` are redundant as well.
- Rewriting a JSON object drops a `__proto__` entry (`LegacyPaths.ShapeIsKept`).
- The inner flush for an oversized transcript in the packer cannot fire: that branch is proved dead inside
  `Packing.PackTranscripts`.

## Model

| member | source | states |
|---|---|---|
| `Streaming.StreamAssistantResponse` | packages/agent/src/agent-loop.ts:310-370 | For every stream, what the call leaves in the context, what it emits, and that it returns the stream's final message. |
| `Streaming.StreamingIsOneAppend` | packages/agent/src/agent-loop.ts:310-368 | The in-place overwriting amounts to one append of the final message if and only if the stream starts at most once; otherwise one message per start remains. |
| `Streaming.StreamTraceShape` | packages/agent/src/agent-loop.ts:317-367 | First a `message_start`, last the `message_end` of the final message, between them only updates; exactly one start if and only if the stream starts at most once. |
| `Streaming.StreamEndsOnce` | packages/agent/src/agent-loop.ts:340-367 | Whatever the stream does, only the final message is ever reported finished, once. |
| `Streaming.StartedStreamReports` | packages/agent/src/agent-loop.ts:317-367 | A stream that starts once reports the message it starts with, the message of every delta behind that start, and its final message; deltas ahead of the start and everything behind a terminal event leave no trace. |
| `Streaming.UnstartedStreamReports` | packages/agent/src/agent-loop.ts:350-367 | A stream that never starts reports its final message alone, started and ended. |
| `AgentStates.AgentState.ProcessEvent` | packages/agent/src/agent.ts:509-547 | Each event changes the wrapper's state as the reducer says and is added to the trace. |
| `AgentStates.TranscriptIsMessageEnds` | packages/agent/src/agent.ts:519-522 | After any events the folded transcript is the old one followed by the messages of the `message_end` events, in order and once each. |
| `AgentStates.PendingIsOpenCalls` | packages/agent/src/agent.ts:524-536 | After any events an id is pending exactly when the last start or end among that id's own events is a start. |
| `AgentStates.StateShowsTheLatest` | packages/agent/src/agent.ts:511-546 | After any events the streaming message is that of the latest start or update unless a message or the run ended behind it, and the shown error that of the latest turn whose assistant message carries one. |
| `AgentTypes.CallsAreToolBlocks` | packages/agent/src/agent-loop.ts:203 | The calls of a reply are those of its tool-call blocks, in order and once each. |
| `ToolBatches.ExecuteSequential` | packages/agent/src/agent-loop.ts:395-449 | Runs the calls one by one up to the one after which an abort is seen; gives their result messages, the stop flag and the exact trace. |
| `ToolBatches.RunToolCall` | packages/agent/src/agent-loop.ts:406-437 | One call from its start event to its end event. It runs exactly if its tool is registered, its arguments are accepted, no hook throws or blocks it and no abort is seen; otherwise the answer is an error that says which; an answer of a call that ran is the after-hook's, field by field, where it gives one and the tool's otherwise. |
| `ToolBatches.ExecuteParallel` | packages/agent/src/agent-loop.ts:451-516 | For every interleaving of the running calls, the same messages in source order and the same stop flag as the one-by-one executor, for tools and hooks that depend on their own call alone and an abort signal that reads the same at the same places of the code. |
| `ToolBatches.RunDeferred` | packages/agent/src/agent-loop.ts:502-504 | Letting any unfinished call go on at every step plays each deferred call to its end, terminates, and yields the outcomes in source order. |
| `ToolBatches.ExecuteToolCalls` | packages/agent/src/agent-loop.ts:373-388 | One by one exactly if the configuration or any called, registered tool wants it, otherwise concurrently; in both modes every call reached is answered in order by the fields its tool, hooks and abort readings determine. |
| `ToolBatches.CallIsAnswered` | packages/agent/src/agent-loop.ts:562-708 | Text, details, error flag and stop wish of every answer in terms of the registration, the argument check, both hooks, the tool's result and the two abort readings. |
| `ToolBatches.RefusedCallNeverRuns` | packages/agent/src/agent-loop.ts:562-626 | Of a call that is refused, neither what the tool would have done nor the after-hook has any effect on its events or its answer. |
| `ToolBatches.BatchIsAnswered` | packages/agent/src/agent-loop.ts:727-737 | The result messages of a batch answer the calls reached, in order, with those fields. |
| `ToolBatchLaws.BatchEmitsWhatItMeets` | packages/agent/src/agent-loop.ts:406-504 | In both modes and under every interleaving, a reached call emits its start, the tool's updates exactly if it runs, and an end with that answer. |
| `ToolBatchLaws.ResultsPairWithCalls` | packages/agent/src/agent-loop.ts:406-443 | Result ids are a prefix of the call ids in source order, non-empty when there were calls, and complete if and only if no abort is seen before the last call. |
| `ToolBatchLaws.TerminationIsUnanimous` | packages/agent/src/agent-loop.ts:544-546 | A batch asks the run to stop if and only if there were calls and every one that was reached answered `terminate: true`. |
| `ToolBatchLaws.BatchFinishesItsResults` | packages/agent/src/agent-loop.ts:434-510 | In both modes, under every schedule, the messages reported finished during a batch are exactly its result messages in order. |
| `ToolBatchLaws.PlayedEventsOf` | packages/agent/src/agent-loop.ts:502-504 | At any point of any interleaving a call has emitted exactly as many of its own events, in order, as it was given steps. |
| `ToolBatchLaws.BatchEventsOf` | packages/agent/src/agent-loop.ts:406-504 | In every legal batch the events of a reached call are its start, updates and end in that order, and an unreached call has none: interleaving reorders only across calls. |
| `ToolBatchLaws.PendingSetIsExact` | packages/agent/src/agent.ts:524-536 | With distinct ids, after every single event of a batch the pending set is the started ids minus the ended ones; at its end it is empty and the ended ids are exactly those of the calls reached. |
| `PendingQueues.PendingMessageQueue.Drain` | packages/agent/src/agent.ts:134-147 | What is handed out and what stays are together what was queued, in order: everything or one message, by mode; the history grows by what was handed out. |
| `PendingQueues.PendingMessageQueue.Clear` | packages/agent/src/agent.ts:149-151 | Empties the queue and withdraws from its history only what had not been handed out. |
| `PendingQueues.LoopConfig.GetSteeringMessages` | packages/agent/src/agent.ts:440-446 | A poll hands out by mode from the queue as it then stands, except for the one skipped poll; nothing is lost and the other queue is untouched. |
| `AgentLoops.RunTurn` | packages/agent/src/agent-loop.ts:174-218 | One turn extends the returned messages and the trace by exactly the turn's own messages and events, and the context by them with whatever the stream leaves, on the failed and on the normal path, for every stream; it asks for more exactly if the reply did not fail and some tool reached did not ask to stop. |
| `AgentLoops.RunLoop` | packages/agent/src/agent-loop.ts:155-269 | Every finite prefix of every run is a legal sequence of turns that meets the streams, batches and hooks in order; each turn takes in exactly what its polls hand over; of either queue everything that arrived is remembered and what the polls left is still there; a turn follows, and the run is otherwise finished, exactly if the reply did not fail, the stop hook did not say so, and some tool reached did not ask to stop or messages were polled. |
| `AgentLoops.RunAgentLoop` | packages/agent/src/agent-loop.ts:95-118 | A run opened by prompts, from a fresh copy of the snapshot, with all guarantees of the loop. |
| `AgentLoops.RunAgentLoopContinue` | packages/agent/src/agent-loop.ts:120-143 | Refuses exactly an empty transcript or one whose last message is an assistant's, each with its error, touching nothing; otherwise a run without an opening of its own that extends the given array in place, whose first provider call sees some message and not an assistant's last unless something came in. |
| `RunLaws.RunTranscript` | packages/agent/src/agent-loop.ts:182-216 | Over any run, the messages reported finished are the messages returned, in order and once each. |
| `RunLaws.ContextIsSnapshotAndRun` | packages/agent/src/agent-loop.ts:103-118 | When no hook replaces it, the context is the snapshot followed by the run's messages if and only if every provider stream starts at most once; otherwise it is longer. |
| `RunLaws.TranscriptsAgree` | packages/agent/src/agent.ts:414-420 | The transcript folded from a run's events is the old one followed by the returned messages, always; it equals the loop's context, when no hook replaced that, if and only if every stream starts at most once; nothing is left streaming. |
| `RunLaws.CutTranscriptsAgree` | packages/agent/src/agent-loop.ts:182-216 | The same agreement between any two turns of a run still going, and before its first turn. |
| `TraceGrammar.RunIsAccepted` | packages/agent/src/agent-loop.ts:109-268 | A recogniser that reads events one at a time accepts a finished run if and only if its streams start at most once each: at least one turn; in each turn messages that end as they began, one streamed reply, then tool events and reported results, then a `turn_end` that carries that reply and those results; last an `agent_end` that carries all finished messages. |
| `TraceGrammar.TurnIsAccepted` | packages/agent/src/agent-loop.ts:174-218 | The same for each single turn, in runs that are still going, on the failed and on the normal path. |
| `TraceGrammar.AcceptedIsFinal` | packages/agent/src/agent-loop.ts:196-268 | Whatever the recogniser accepts has exactly one `agent_end`, in last place, carrying the messages reported finished, of which there is at least one. |
| `TraceGrammar.TurnsBalance` | packages/agent/src/agent-loop.ts:110-266 | In every prefix of an accepted trace turn starts and ends balance, up to the one turn that is open. |
| `RunLaws.NothingPendingBetweenTurns` | packages/agent/src/agent.ts:524-536 | After any number of turns with distinct call ids no tool call is pending. |
| `RunLaws.TurnAnswersItsCalls` | packages/agent/src/agent-loop.ts:196-216 | A turn answers a prefix of its calls in order, every call exactly when no abort is seen, and none of a failed reply. |
| `RunLaws.TurnIsAnswered` | packages/agent/src/agent-loop.ts:205-216 | The results of a turn are the answers of its tools, field by field. |
| `RunLaws.WantsMoreExactly` | packages/agent/src/agent-loop.ts:210 | A turn asks for another provider call exactly if its reply did not fail and some tool reached did not answer `terminate: true`. |
| `RunLaws.NewInputBetweenCalls` | packages/agent/src/agent-loop.ts:174-262 | Between two provider calls the context gains what the reply's stream leaves, the reply alone if it keeps its protocol, and then at least one tool result or queued message, so no call sees a context that ends in the loop's own reply. |
| `RunLaws.HookSetsTheContext` | packages/agent/src/agent-loop.ts:220-240 | The next provider call sees the messages `prepareNextTurn` gives, if it gives any, and otherwise what the turn left, with the newly injected messages behind either. |
| `RunLaws.TurnBound` | packages/agent/src/agent-loop.ts:170-266 | The number of turns is at most one, plus the turns whose tools want more, plus the queued messages that came in after the first turn. |
| `Polling.NothingIsLost` | packages/agent/src/agent.ts:440-447 | Over any part of any run and for either queue: what opened the run out of it, what it held and everything that arrived since is, in first-in first-out order and once each, what entered the transcript, then what the loop holds pending, then what is still queued. |
| `Polling.OneFromQueue` | packages/agent/src/agent.ts:348-359 | From a queue drained one at a time no turn takes more than one message, whatever the other queue's mode, including the first turn of a run opened out of that queue. |
| `Polling.FirstTurnTakes` | packages/agent/src/agent-loop.ts:95-190 | The first turn takes in the messages that opened the run and, unless that poll is skipped, all or one of the steering messages then queued, by mode. |
| `Polling.LaterTurnTakes` | packages/agent/src/agent-loop.ts:241-262 | Every later turn takes in steering messages if any are queued, all or one by mode; if not, nothing when some tool asked for more and otherwise follow-ups. |
| `Polling.RunEndsOnTime` | packages/agent/src/agent-loop.ts:196-268 | The rule by which turns follow one another and runs finish, in terms of stop reasons, the stop hook, the tools' answers and the polled messages alone. |
| `Polling.LeftBehind` | packages/agent/src/agent-loop.ts:253-265 | A run that ends with nothing left to do leaves no follow-up queued, and only steering messages that arrived after its last steering poll. |
| `Polling.RunIsDetermined` | packages/agent/src/agent-loop.ts:170-266 | Runs that start alike and meet the same streams, tools, hooks and arrivals agree turn by turn up to the interleaving of tools, and none goes on where another was over. |
| `Polling.QueuesBoundTurns` | packages/agent/src/agent-loop.ts:170-266 | The number of turns is at most one, plus the turns before the last whose tools want more, plus what the queues held at the start, plus everything that arrived. |
| `Polling.RunsAreFinite` | packages/agent/src/agent-loop.ts:170-266 | When the model asks for finitely many tool batches and callers enqueue finitely many messages, no run has more turns than a number computed from these: the nested loops terminate. |
| `Agents.Agent.Prompt` | packages/agent/src/agent.ts:327-335 | Refused exactly while a run is active, changing nothing; otherwise a legal run whose returned messages are what the state gains, and the context too if and only if the streams keep their protocol; the listeners see exactly the run's events, which the grammar accepts under the same condition; all that was ever enqueued on either queue, during the run too, is in the transcript, held by the loop or still queued, in order; the turn bound holds, the run finishes by itself when model and callers are bounded, and a queue drained one at a time gives one message a turn. |
| `Agents.Agent.Continue` | packages/agent/src/agent.ts:338-365 | Refused while a run is active, without messages, and behind an assistant message with both queues empty, each with its error and changing nothing. A transcript that ends otherwise is continued with no opening; behind an assistant message the run opens with all or one of the steering messages and then skips its first steering poll, or else with follow-ups. The first provider call never lacks input, and the guarantees of a prompt hold. |
| `Agents.Agent.RunPromptMessages` | packages/agent/src/agent.ts:386-400 | A run inside the lifecycle: finished and settled exactly when it is over, still active when cut off; nothing enqueued before or during it is lost or doubled. |
| `Agents.Agent.RunContinuation` | packages/agent/src/agent.ts:402-412 | The same for a run that opens with nothing. |
| `Agents.Agent.RunWithLifecycle` | packages/agent/src/agent.ts:451-492 | Whatever the loop emits, returns or throws, whether or not somebody aborts meanwhile, whichever listener throws, and whatever tools that are still running emit beside the failure handler: the run is over and settled, the state idle, and the call rejects exactly when a listener throws over an event of the failure handler. A failed run shows an assistant message in its last place, and in the handler's turn and run ends, with stop reason "aborted" exactly after an abort and "error" otherwise, and with the text of what was thrown. |
| `Agents.Agent.HandleRunFailure` | packages/agent/src/agent.ts:476-492 | The handler's four events, spelled out, up to the first one a listener throws over, with the late events of running tools anywhere between them. |
| `Agents.Agent.ProcessEvents` | packages/agent/src/agent.ts:509-556 | Reduces the event in every case, inside or outside a run, and throws exactly when no run is active or a listener throws; an event that begins nothing leaves an idle state idle. |
| `Agents.Agent.Steer` | packages/agent/src/agent.ts:264-266 | The message joins the end of the steering queue and of its history; what was handed out before is unchanged. |
| `Agents.Agent.Reset` | packages/agent/src/agent.ts:314-322 | Transcript, streaming state, pending calls and error are cleared and both queues emptied. |
| `Agents.Agent.BeginRun` | packages/agent/src/agent.ts:451-465 | Refused exactly while a run is active; otherwise a new, unaborted run with the streaming flag set and no error or streaming message left. |
| `Agents.Agent.FinishRun` | packages/agent/src/agent.ts:494-500 | Streaming state and pending calls are cleared, and the active run is settled. |
| `Lifecycles.HistoriesAreSound` | packages/agent/src/agent.ts:451-500 | After every history of begins, events, aborts, resets and finishes, in which only messages and tools do not begin outside a run: at most one run is unsettled, it is the latest, and with none active the state is idle. |
| `Lifecycles.StreamingMeansActive` | packages/agent/src/agent.ts:313-322 | The streaming flag is set if and only if a run is active and no reset happened during it. |
| `Lifecycles.RunReports` | packages/agent/src/agent.ts:467-491 | For every loop, exit and behaviour of listeners: the ends reported are those the loop gets out, and one more exactly if the run fails and no listener throws over the handler's first three events; the transcript gains what the loop got out finished and, unless a listener throws over its start, the failure message. |
| `Lifecycles.FailureInFields` | packages/agent/src/agent.ts:476-491 | What a failed run reports, field by field: the message in the transcript, in `turn_end` and in `agent_end`. |
| `Lifecycles.EndsReported` | packages/agent/src/agent.ts:467-491 | A run whose loop ends it with its last event reports one `agent_end` if and only if exactly one of the loop's and the handler's end gets out; it may report two or none, and it is said when. |
| `Lifecycles.EndsReportedByFailure` | packages/agent/src/agent.ts:467-491 | A loop that throws before its end reports one `agent_end` if and only if no listener throws over the handler's first three events, otherwise none. |
| `Lifecycles.CutRunKeepsItsMessages` | packages/agent/src/agent.ts:451-491 | A listener that cuts a run off anywhere leaves in the transcript a prefix of the messages of a legal run, all of them if nobody threw, and behind it the failure message under the same condition. |
| `Lifecycles.DeliveredIsPrefix` | packages/agent/src/agent.ts:549-555 | What gets out is everything up to and including the first event a listener throws on. |
| `Text.SplitIsTheInverseOfJoin` | packages/agent/src/proxy.ts:189-190 | Splitting loses nothing and leaves no separator inside a piece. |
| `Text.JoinThenSplit` | packages/agent/src/proxy.ts:189-190 | No other list of pieces does both. |
| `Text.TrimIsTheMiddle` | packages/agent/src/proxy.ts:194 | Trimming takes white space off both ends, all of it and nothing else. |
| `ProxyStreams.ChunkingDoesNotMatter` | packages/agent/src/proxy.ts:188-205 | However a text is cut into chunks, the handled lines are its newline-terminated lines, in order and once each, and the buffer holds the unterminated rest. |
| `ProxyStreams.LinesMakeUpTheText` | packages/agent/src/proxy.ts:188-190 | Those lines and the rest make up the whole text, and no line contains a newline. |
| `ProxyStreams.StreamProxy` | packages/agent/src/proxy.ts:170-226 | The partial message and the events handed on are those of decoding the text read in one piece; a decoding error, abort or broken read is reported once, as the last event, with the state reached so far. |
| `ProxyStreams.ErrorReported` | packages/agent/src/proxy.ts:181-222 | Which error is reported, if any: a line that cannot be decoded, else an abort seen after a read, else a broken connection, else an abort seen at the end. |
| `ProxyHanding.DecodingReadsEvents` | packages/agent/src/proxy.ts:192-203 | Decoding is reading the events of the lines behind `data: `, up to the first that cannot be read or is rejected, folding them into the message and handing them on. |
| `ProxyHanding.HandedOneMore` | packages/agent/src/proxy.ts:242-366 | By its kind, what one accepted event hands on: nothing for an unhandled event or the end of a block that is no tool call, otherwise one event that says the same, with the block as it then stands. |
| `ProxyHanding.HandedSaysTheSame` | packages/agent/src/proxy.ts:242-366 | Done and error events are handed on as such, in order, once each and with their reasons; the deltas handed on for an index are those that arrived for it. |
| `ProxyHanding.TextIsHandedOn` | packages/agent/src/proxy.ts:181-207 | The same for a whole text: message, events handed on and error are those of the events its lines carry. |
| `ProxyStreams.OutcomeDependsOnTextOnly` | packages/agent/src/proxy.ts:181-207 | Without an abort, two ways of cutting the same text give the same message, the same events and the same error. |
| `ProxyStreams.LaterTextIsIgnored` | packages/agent/src/proxy.ts:192-222 | Once a line has failed to decode, nothing that arrives later changes the outcome. |
| `ProxyStreams.OneTerminalLast` | packages/ai/src/utils/event-stream.ts:21-48 | The consumer sees a prefix of what was handed over with at most one terminal event, in last place, and sees one exactly when one was handed over. |
| `ProxyMessages.PartialMessage.ProcessProxyEvent` | packages/agent/src/proxy.ts:238-362 | Each event updates the shared message in place as the event's kind says and is handed on; an event that does not fit the block is rejected with its error and changes nothing. |
| `ProxyMessages.BlocksAreIndependent` | packages/agent/src/proxy.ts:238-348 | The block at an index is the fold of that index's events alone, and a sequence is accepted exactly when every index's own events are. |
| `ProxyMessages.DifferentIndicesCommute` | packages/agent/src/proxy.ts:238-348 | Neighbouring accepted events of different indices can be swapped without changing the message. |
| `ProxyMessages.RejectedExactly` | packages/agent/src/proxy.ts:254-334 | An event is rejected, with its error, exactly if it continues or ends a block of another kind or none. |
| `ProxyMessages.FinalEventsSetTheReason` | packages/agent/src/proxy.ts:350-359 | Stop reason and usage of the message are those of its latest final event, its error text that of its latest error event. |
| `ProxyMessages.MessageIsSpelledByDeltas` | packages/agent/src/proxy.ts:36-57 | In the finished message text and thinking are the concatenated deltas since the last start at their index, and a tool call's arguments are the parse of the text read from its deltas, for every order of deltas and ends. |
| `ProxyMessages.ReadsItsDeltas` | packages/agent/src/proxy.ts:320-348 | The text read for a tool call is the concatenation of all its deltas if and only if no delta comes behind an end or the deltas so missed spell "undefined" themselves. |
| `ProxyMessages.BlockIsSpelledByItsDeltas` | packages/agent/src/proxy.ts:247-339 | The same for one index, whatever came before its last start. |
| `ProxyMessages.LateDeltaReadsUndefined` | packages/agent/src/proxy.ts:320-348 | Around any tool-call end with no further end behind it: with a delta behind it the arguments are parsed from "undefined" and the deltas behind it, otherwise they stay those of the part ahead of it. |
| `Packing.PackTranscripts` | scripts/session-transcripts.ts:196-241 | The files hold the transcripts in order and once each, every file is within the bound unless it is one oversized transcript, no file but the last has room for the transcript behind it, and no order-preserving grouping within the bound has fewer files. |
| `Packing.FullPackingIsSmallest` | scripts/session-transcripts.ts:201-233 | No order-preserving packing within the bound has fewer files than the loop's. |
| `Packing.FullPackingIsUnique` | scripts/session-transcripts.ts:201-233 | It is the only packing in which no file but the last has such room. |
| `Packing.FullPackingStaysAhead` | scripts/session-transcripts.ts:201-233 | After the same number of files, the loop has placed at least as many transcripts as any other packing. |
| `Packing.FilesAreJoined` | scripts/session-transcripts.ts:203-232 | A file is its transcripts joined by empty lines, and within the bound up to a hundred thousand characters. |
| `Fuzzy.MatchQuery` | packages/tui/src/fuzzy.ts:16-67 | The scanning loop's verdict and score are those of the greedy positions, scored by runs, gaps, word boundaries and position. |
| `Fuzzy.MatchesExactlySubsequences` | packages/tui/src/fuzzy.ts:25-61 | A query matches if and only if its characters occur in the text in order. |
| `Fuzzy.GreedyIsEarliest` | packages/tui/src/fuzzy.ts:30-57 | Taking every character as early as possible succeeds whenever anything does, and is nowhere later. |
| `Fuzzy.MatchScore` | packages/tui/src/fuzzy.ts:25-67 | The score of a match is that of the earliest embedding, taken apart into unbroken rows, word starts, skipped characters and positions, with a hundred points off for the very text. |
| `Fuzzy.FuzzyMatchText` | packages/tui/src/fuzzy.ts:70-93 | Matches exactly the texts that hold the query or its swapped form as a subsequence; the query itself goes first and its swapped form costs five points; no score otherwise, and the best score for no text but the query itself. |
| `Fuzzy.SwapExchangesTheParts` | packages/tui/src/fuzzy.ts:75-81 | There is a swapped form exactly for letters followed by digits or digits followed by letters, it exchanges the two parts, and swapping twice gives the query back. |
| `Fuzzy.NoBetterThanSelf` | packages/tui/src/fuzzy.ts:30-57 | Character by character, no embedding in any text scores better than the query against itself. |
| `Fuzzy.ExactMatchDominates` | packages/tui/src/fuzzy.ts:63-92 | A text equal to the query matches with a strictly better score than every other matching text, directly or through the swapped form. |
| `FuzzyFilters.WordsOfText` | packages/tui/src/fuzzy.ts:104-107 | The tokens are what white space separates. |
| `FuzzyFilters.TrimKeepsWords` | packages/tui/src/fuzzy.ts:100-111 | Trimming loses no token, and exactly blank queries have none, so the check for an empty token list never applies. |
| `FuzzyFilters.FuzzyFilter` | packages/tui/src/fuzzy.ts:99-137 | Returns the items unchanged for a blank query and otherwise the stable ranking of those every token matches. |
| `FuzzyFilters.RankingIsSoundAndComplete` | packages/tui/src/fuzzy.ts:115-133 | An item is returned if and only if it was given and every token matches its text. |
| `FuzzyFilters.RankingIsOrdered` | packages/tui/src/fuzzy.ts:115-136 | The items returned ascend by total, and those of every one total are all that have it, in the order given. |
| `FuzzyFilters.TotalIsSum` | packages/tui/src/fuzzy.ts:117-128 | The total of several tokens is the sum of their scores. |
| `FuzzyFilters.SortIsStable` | packages/tui/src/fuzzy.ts:135-136 | The ranking ascends by total, and items of equal total keep their input order. |
| `FuzzyFilters.StableOrderIsUnique` | packages/tui/src/fuzzy.ts:135-136 | Those two facts leave only one order possible. |
| `FuzzyFilters.TokenOrderIsIrrelevant` | packages/tui/src/fuzzy.ts:104-133 | Permuting the tokens changes nothing about the ranking. |
| `FuzzyFilters.ExactItemsComeFirst` | packages/tui/src/fuzzy.ts:99-137 | For a one-word query every item whose text is that word is kept and ranked ahead of every item whose text is not. |
| `LegacyPaths.ReplaceAllIsOneScan` | packages/coding-agent/src/legacy-pi-import.ts:114-116 | Splitting and joining replaces, in one scan from the left, every occurrence it meets. |
| `LegacyPaths.RewriteLegacyStringPaths` | packages/coding-agent/src/legacy-pi-import.ts:118-135 | For the directories of the program the result holds neither `.pi/` nor `.pi\` and is what the third, fourth and sixth pass alone make of the value; for any directories the first two passes change nothing. |
| `LegacyPaths.Absorbed` | packages/coding-agent/src/legacy-pi-import.ts:128-130 | When a later replacement turns two texts into the same, replacing one by the other beforehand makes no difference. |
| `LegacyPaths.NoneCreated` | packages/coding-agent/src/legacy-pi-import.ts:130-133 | Conditions under which a replacement creates no occurrence of a text and, if it replaces that text, leaves none. |
| `LegacyPaths.SixPassesAreThree` | packages/coding-agent/src/legacy-pi-import.ts:127-134 | For directories built as the program builds them, with either separator, the six passes equal the third, fourth and sixth alone, whatever the configured agent directory. |
| `LegacyPaths.NoLegacyPathIsLeft` | packages/coding-agent/src/legacy-pi-import.ts:127-134 | No rewritten string contains `.pi/` or `.pi\`. |
| `LegacyPaths.FirstIsReplaced` | packages/coding-agent/src/legacy-pi-import.ts:114-116 | The first occurrence is replaced, and replacing goes on behind it. |
| `LegacyPaths.RewritingIsPlain` | packages/coding-agent/src/legacy-pi-import.ts:127-134 | The rewriting spelled out: every `.pi/` and `.pi\` becomes its `.lumen` form, then every occurrence of the legacy project directory the new one. |
| `LegacyPaths.RewriteLegacyJsonPaths` | packages/coding-agent/src/legacy-pi-import.ts:137-152 | The recursion over arrays and objects computes the rewritten tree. |
| `LegacyPaths.ValuesStayInPlace` | packages/coding-agent/src/legacy-pi-import.ts:141-151 | Under every path of keys and indices lies the rewritten form of what lay there, except behind a `__proto__` key, where nothing does. |
| `LegacyPaths.StringsAreRewritten` | packages/coding-agent/src/legacy-pi-import.ts:137-152 | Every string of a tree that no `__proto__` key hides is rewritten so, where it stands. |
| `LegacyPaths.ShapeIsKept` | packages/coding-agent/src/legacy-pi-import.ts:141-151 | Keys, array lengths and values other than strings are all kept if and only if no object in the tree has a `__proto__` key. |
| `LegacyPaths.RewrittenTreeIsClean` | packages/coding-agent/src/legacy-pi-import.ts:137-152 | No string value anywhere in a rewritten tree contains `.pi/` or `.pi\`. |

## Left out

- AgentLoops.RunLoop: takes a number of turns after which it may be cut off, which the source does not have; `Polling.RunsAreFinite` and `Agents.Agent.Prompt` say when the run ends by itself, and `Polling.RunIsDetermined` that the cut changes nothing in what came before.
- Agents.Agent.Prompt: resets, queue clears and direct writes to the state during a run are not interleaved with the loop; callers steer, follow up, change queue modes and abort while it runs. What they enqueue after a run's last poll counts as enqueued after the run. Resets during a run are covered by `Lifecycles`.
- Agents.Agent.RunWithLifecycle: takes the events a throwing run emitted as given; `Lifecycles.CutRunKeepsItsMessages` speaks of those that are the beginning of a run of the loop.
- RunLaws.NothingPendingBetweenTurns: assumes distinct call ids within a message; with repeated ids the set cannot tell the calls apart.
- RunLaws.NewInputBetweenCalls: says nothing of a turn behind which a hook replaced the context.
- ToolBatches.ExecuteParallel: what a tool returns depends on its own call only; tools that race on shared data are not part of the model. The two modes are compared for equal readings of the abort signal at equal places of the code; one abort at one moment is seen at different places in the two modes and may then stop them after different calls. Progress a tool reports after it has returned is left to `Lifecycles`.
- ToolBatches.ExecuteToolCalls: the abort signal answers separately each time it is read and need not stay set; real signals do, which is a special case.
- ProxyMessages.DifferentIndicesCommute: for accepted events only, since which error is thrown first does depend on the order.
- Packing.PackTranscripts: transcripts are taken as non-empty, as the session header in each makes them.
- Fuzzy.ExactMatchDominates: scores are integers in tenths instead of floating-point numbers, and query and text are taken as already lower-cased.
- LegacyPaths.NoLegacyPathIsLeft: for the configuration directory name `.lumen` of this package, not for any other name a repackaged program might configure.
- Model, thinking level and other settings that `prepareNextTurn` may change; what hooks do to the message arrays they are handed.
- Conversion and transformation of the context before a provider call, API-key lookup, and the provider modules.
- Message timestamps, token usage, cost and image blocks; tool results carry one text.
- Opening the proxy connection: request, headers, authorisation, the HTTP error path, byte decoding, and listening for aborts.
- The contract of the event parser and of the streaming JSON parser, which are parameters; content indices that are not natural numbers.
- The promise of a stream's final message: when the server closes without a terminal event the stream ends and that promise stays unresolved.
- The sharing of one partial message by all events handed on: the model hands on events and keeps the message beside them.
- File names, writing files and progress output of the packer; the subagent analysis behind it.
- Copying files and directories, markers, authentication files and prompts of the legacy import.
- User interface, session storage, model catalogue and command line.
