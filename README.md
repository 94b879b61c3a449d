# fastapi-autogen-team: the streaming bridge, in Dafny

This project models the self-contained logic around the autogen multi-agent library in
fastapi-autogen-team, an OpenAI-compatible chat endpoint served by a team of agents.
It covers three parts.

- **The transcript renderer and delta emitter.** This is `streamed_print_received_message` with its
  `handle_*` helpers (src variant, modules `Render`, `Emission`, `Workflow`) and the older one-function
  variant (app variant, module `AppWorkflow`).
  - A message renders to a text fragment: a `"{sender} (to {receiver}):\n"` header, banner blocks
    closed by a row of asterisks as long as the banner, and an 80-dash separator.
  - That fragment is put on the request's queue as a delta record `{index, delta, finish_reason}`.
  - A message with `tool_responses` is emitted by re-entering the rebound hook once per sub-message,
    at consecutive indices.
- **`AutogenWorkflow.run` and the emission hook it installs.**
  - The hook is a class whose `counter` field is the request-local `index_counter`.
  - The queue is a class whose `items` field is everything put on it.
  - `run` is a method over an abstract conversation: the hook invocations the library makes, in order,
    and whether the chat returns or raises.
  - On the consuming side, `generate_streaming_response` drains the queue into server-sent events.
    Module `Bridge` connects the two sides.
- **Request and response shaping in `autogen_server.py`** (modules `Server`, `Normalize`):
  - `handle_response`;
  - `create_non_streaming_response`;
  - `EMPTY_USAGE`;
  - `normalize_input_messages`, which turns the chat history into the three-section prompt.

  The agent graphs and termination tests of both workflow files are data (modules `Agents`, `Team`,
  `AppTeam`).

The app variant renders text exactly as the src helpers do: the same header, banners, defaults and
separator. So it reuses `Render.RenderLeaf`, and only its control flow is modelled separately. It
differs in two ways:
- a message of any role other than "tool" that carries tool responses renders itself after them;
- `run` does not catch exceptions.

Each imperative function of the source is a method proved against a specification function:
- the hook's `Invoke`/`PrintReceived` against `Emitted` (src) and `AppEmitted` (app);
- the tool-call loop against `ToolCallBlocks`;
- the history loop against `Normalized`;
- the queue-draining loop against `Drain`.

The lemmas state what the source promises about those functions.

The control-flow functions (`Emitted`, `AppEmitted` and their batch and chat versions) take as a
parameter `leaf`, the items a message without tool responses puts. The hooks' own is `Rendering` of
the manager. A lemma about indices or finish reasons needs only that `leaf` has the shape of a
rendering (`LeafShaped`); a lemma about the texts requires `RendersAs(leaf, rc)`, so `leaf` puts
what `Render.RenderLeaf` renders.

## Model

| member | source | states |
|---|---|---|
| Render.BannerFraming | src/fastapi_autogen_team/autogen_workflow_team.py:139-148 | a banner's first line is its title and its last line is `"*"` repeated exactly the title's length |
| Render.ResponseId | src/fastapi_autogen_team/autogen_workflow_team.py:137-138 | a "function" response is identified by `name`, a "tool" response by `tool_call_id`, each defaulting to "No id found" |
| Render.HandleFunctionToolMessage | src/fastapi_autogen_team/autogen_workflow_team.py:135-149 | raises KeyError `'content'` iff the content key is missing; otherwise appends the bannered response block to the text passed in |
| Render.AppendedBanner | src/fastapi_autogen_team/autogen_workflow_team.py:173-185 | appending a banner keeps the earlier text as a prefix, ends with the closing star row of the title's length, and shows title and body |
| Render.SuggestedFunctionCallBlock | src/fastapi_autogen_team/autogen_workflow_team.py:173-185 | `handle_suggested_function_call` only appends; its block closes with stars as long as its title and shows "(No function name found)" / "(No arguments found)" for missing keys |
| Render.ToolCallBlockDefaults | src/fastapi_autogen_team/autogen_workflow_team.py:190-203 | a tool-call block closes with stars as long as its title and shows "No tool call id found", "(No function name found)", "(No arguments found)" for missing keys |
| Render.HandleSuggestedToolCalls | src/fastapi_autogen_team/autogen_workflow_team.py:188-204 | the loop appends exactly the blocks of all tool calls to the text passed in |
| Render.ToolCallBlocksAppend | src/fastapi_autogen_team/autogen_workflow_team.py:190-203 | the blocks of a list of tool calls are the blocks of its parts, in list order |
| Render.HandleRegularMessage | src/fastapi_autogen_team/autogen_workflow_team.py:152-170 | appends, in order, the (instantiated) content only if present and not None, the function-call block if present, then the tool-call blocks |
| Render.RenderLeaf | src/fastapi_autogen_team/autogen_workflow_team.py:72-89 | a message without tool responses fails iff it is a function/tool message without content, and then with the KeyError `'content'` |
| Render.RenderLeafFraming | src/fastapi_autogen_team/autogen_workflow_team.py:72-89 | the text of a message that renders starts with its header and ends with the 80-dash separator |
| Strings.ContainsIff | src/fastapi_autogen_team/autogen_workflow_team.py:222-223 | Python's `sub in s` holds iff `sub` is a prefix of some suffix of `s` |
| Emission.RendersAsShaped | src/fastapi_autogen_team/autogen_workflow_team.py:82-97 | a renderer that puts what the hook puts for a message without tool responses puts nothing when the rendering raises, and otherwise one "stop" delta at the index it is given |
| Emission.LeafOnly | src/fastapi_autogen_team/autogen_workflow_team.py:76-97 | a message without tool responses puts exactly its own rendering, and raises iff that rendering raises |
| Emission.BatchEmitted | src/fastapi_autogen_team/autogen_workflow_team.py:76-80 | a message with tool responses puts the flush and then what its sub-messages put, and nothing of its own |
| Emission.LeafEmission | src/fastapi_autogen_team/autogen_workflow_team.py:82-97 | a message without tool responses that renders puts exactly one "stop" delta at its index, framed by header and separator, and counts one hook call |
| Emission.LeafEmitted | src/fastapi_autogen_team/autogen_workflow_team.py:82-97 | that one delta is `Delta(index, rendered text, "stop")` |
| Emission.StableAfterFailure | src/fastapi_autogen_team/autogen_workflow_team.py:120-129 | once a sub-message raises, later sub-messages put nothing and count nothing |
| Emission.FlatBatchCalls | src/fastapi_autogen_team/autogen_workflow_team.py:120-129 | plain sub-messages never raise, and each counts exactly one hook call |
| Emission.FlatBatchItems | src/fastapi_autogen_team/autogen_workflow_team.py:120-129 | the first j plain sub-messages put one item each, in list order: item k is the single delta sub-message k renders to at index+k+1 |
| Emission.FlatResponses | src/fastapi_autogen_team/autogen_workflow_team.py:120-129 | plain sub-message k, rendered by the hook at index+k+1, is the single "stop" delta carrying its text |
| Emission.ToolBatchItems | src/fastapi_autogen_team/autogen_workflow_team.py:112-131 | a "tool" message with n plain responses puts the header-only flush at index, then one "stop" delta per sub-message at index+1..index+n, in list order; the counter advances by n+1 |
| Emission.ToolBatchEmission | src/fastapi_autogen_team/autogen_workflow_team.py:112-131 | with the hook's rendering, that flush is the header alone and the delta at index+k+1 carries the text of sub-message k |
| Emission.OtherBatchEmission | src/fastapi_autogen_team/autogen_workflow_team.py:76-80 | a message of another role with n plain responses puts only the n sub-messages' deltas, at index+1..index+n with their texts, and nothing at index; the counter advances by n+1 |
| Emission.BatchItemsDependOnResponses | src/fastapi_autogen_team/autogen_workflow_team.py:120-129 | the sub-message loop depends only on the tool responses |
| Emission.BatchIgnoresOwnContent | src/fastapi_autogen_team/autogen_workflow_team.py:76-80 | a message with tool responses never renders its own content, name, ids or calls: only its role and responses matter |
| Emission.EmittedShape | src/fastapi_autogen_team/autogen_workflow_team.py:91-97 | every item put is a "stop" delta at or after the call's index (after it, for a non-"tool" batch) |
| Emission.BatchShape | src/fastapi_autogen_team/autogen_workflow_team.py:113-129 | every item the sub-message loop puts is a "stop" delta after the index |
| Emission.HookCallsCountTree | src/fastapi_autogen_team/autogen_workflow_team.py:317-324 | when nothing raises the counter advances once per message in the tree, nested responses included |
| Emission.BatchItemsPrefix | src/fastapi_autogen_team/autogen_workflow_team.py:120-129 | the items of the first j sub-messages are a prefix of those of the first k, for j <= k |
| Emission.NestedBatchRepeatsIndex | src/fastapi_autogen_team/autogen_workflow_team.py:120-129 | when the first sub-message carries plain "tool" responses and the second renders, the first nested response and the second sub-message are both put as deltas at index + 2, at distinct positions of the emission |
| Emission.BatchCallsCountTree | src/fastapi_autogen_team/autogen_workflow_team.py:120-129 | the same for the first j sub-messages |
| Workflow.Hook.Invoke | src/fastapi_autogen_team/autogen_workflow_team.py:317-324 | renders at the passed index or else the counter, puts `Emitted`, and adds `HookCalls` to the counter (one per completed invocation) |
| Workflow.Hook.PrintReceived | src/fastapi_autogen_team/autogen_workflow_team.py:59-97 | `streamed_print_received_message`: raises iff `Fails`, and puts exactly `Emitted` at the index |
| Workflow.Hook.PrintBatch | src/fastapi_autogen_team/autogen_workflow_team.py:75-80 | a message with tool responses: `handle_tool_responses` from the header, then return; raises iff a sub-message raises, and puts exactly `Emitted` |
| Workflow.Hook.PutRendered | src/fastapi_autogen_team/autogen_workflow_team.py:82-97 | a message without tool responses: raises iff it is a function/tool message without content; otherwise puts its rendering as one "stop" delta at the index |
| Workflow.Hook.HandleToolResponses | src/fastapi_autogen_team/autogen_workflow_team.py:100-132 | flush for "tool" then the sub-messages at consecutive indices; returns "" for "tool", the text otherwise |
| Workflow.Hook.Chat | src/fastapi_autogen_team/autogen_workflow_team.py:317-330 | the hook invocations of a chat from a fresh counter: stops at the first that raises; puts `CallsItems`; the counter ends at `CounterAfter` |
| Workflow.ErrorResult | src/fastapi_autogen_team/autogen_workflow_team.py:354-357 | the error ChatResult has a single "error" history entry and the summary "Conversation failed due to system error" |
| Workflow.AutogenWorkflow.SetQueue | src/fastapi_autogen_team/autogen_workflow_team.py:307-309 | sets the queue |
| Workflow.AutogenWorkflow.Run | src/fastapi_autogen_team/autogen_workflow_team.py:311-358 | returns `RunResult`; with stream and a queue puts `StreamItems`; without stream puts nothing |
| Workflow.CallsStableAfterFailure | src/fastapi_autogen_team/autogen_workflow_team.py:330-331 | after a hook invocation raises, the chat makes no further puts and the counter stays |
| Workflow.EmittedWithin | src/fastapi_autogen_team/autogen_workflow_team.py:317-324 | a call that does not raise uses only indices from its own index up to the counter after it |
| Workflow.BatchWithin | src/fastapi_autogen_team/autogen_workflow_team.py:120-129 | the sub-messages use indices from index+1 up to index+1+their calls |
| Workflow.CallsBelowCounter | src/fastapi_autogen_team/autogen_workflow_team.py:317-324 | every delta of a chat so far is below the counter, and the counter never goes back |
| Workflow.CallsDoNotShareIndices | src/fastapi_autogen_team/autogen_workflow_team.py:317-324 | every index a later hook invocation uses exceeds every index an earlier one used |
| Workflow.PlainCallsGapless | src/fastapi_autogen_team/autogen_workflow_team.py:317-324 | with plain calls the deltas carry indices 0, 1, 2, ... in order and the counter equals their number |
| Workflow.CallsAllStop | src/fastapi_autogen_team/autogen_workflow_team.py:330-331 | every hook delta has finish reason "stop" |
| Workflow.DoneOnceAndLast | src/fastapi_autogen_team/autogen_workflow_team.py:330-352 | "[DONE]" is put exactly once, last, whether the chat returns or raises |
| Workflow.ErrorDeltaIffException | src/fastapi_autogen_team/autogen_workflow_team.py:338-352 | a delta with finish reason "error" appears iff `run` caught an exception; it is just before "[DONE]", at the counter's value, with "System error occurred: " and the exception text |
| Workflow.HookFailureIsMissingContent | src/fastapi_autogen_team/autogen_workflow_team.py:144-145 | a hook invocation that raises is a function/tool message without content, reported as the KeyError `'content'` |
| Workflow.PlainStreamGapless | src/fastapi_autogen_team/autogen_workflow_team.py:311-335 | a chat of plain calls that returns streams one delta per message at 0, 1, 2, ..., then "[DONE]" |
| Workflow.BatchItemsPrefix | src/fastapi_autogen_team/autogen_workflow_team.py:120-129 | the puts of the first j sub-messages are a prefix of those of the first k |
| Workflow.NullQueueFailsAtFirstPut | src/fastapi_autogen_team/autogen_workflow_team.py:313-328 | with no queue set, streaming raises AttributeError at the first put, or KeyError when rendering fails before any put |
| Agents.Walk | src/fastapi_autogen_team/autogen_workflow_team.py:283-288 | following the first allowed successor n times visits at most n speakers; each one met is the first allowed successor of the one before it, and the walk stops short of n only at a speaker without successors |
| Team.HandOverCycle | src/fastapi_autogen_team/autogen_workflow_team.py:283-297 | the graph is well formed, each agent has one successor, the walk from any agent visits all four and returns after four hand-overs (UserProxy, Planner, rag_assurance, Quality_assurance), and max_round is 20 |
| Team.ConfigWellFormed | src/fastapi_autogen_team/autogen_workflow_team.py:283-297 | the hand-over graph is well formed over exactly the four agents |
| Team.CycleWalks | src/fastapi_autogen_team/autogen_workflow_team.py:283-297 | from each agent, four hand-overs visit the other three in cycle order and come back |
| Team.TerminationIff | src/fastapi_autogen_team/autogen_workflow_team.py:222-223 | UserProxy and Quality_assurance stop iff the content is present, not None and contains "TERMINATE"; Planner and rag_assurance never stop |
| Team.EndingWithTerminateStops | src/fastapi_autogen_team/autogen_workflow_team.py:255-256 | a reply ending with "TERMINATE" stops the terminating agents; missing or None content never does |
| AppTeam.GraphWellFormed | app/autogen_workflow_team.py:224-245 | five agents, every agent has successors, all other members, no self-loop; max_round is 10 |
| AppTeam.EveryoneReachesEveryone | app/autogen_workflow_team.py:224-230 | any agent can follow any agent within three hand-overs; Executor hands over only to Developer |
| AppTeam.HandOver | app/autogen_workflow_team.py:224-230 | a listed successor is reachable in one hand-over |
| AppTeam.Through | app/autogen_workflow_team.py:224-230 | reachability extends through a listed successor |
| AppWorkflow.AppStableAfterFailure | app/autogen_workflow_team.py:46-55 | once a sub-message raises, later ones put and count nothing |
| AppWorkflow.AppHook.Invoke | app/autogen_workflow_team.py:266-279 | renders at the passed index or the counter, puts `AppEmitted`, adds `AppHookCalls` to the counter |
| AppWorkflow.AppHook.PrintReceived | app/autogen_workflow_team.py:18-125 | the app's function: raises iff `AppFails`, puts exactly `AppEmitted` |
| AppWorkflow.AppHook.PrintBatch | app/autogen_workflow_team.py:36-58 | the sub-messages, then, unless "tool" or a sub-message raised, the message's own delta at the advanced index |
| AppWorkflow.AppHook.ToolResponses | app/autogen_workflow_team.py:36-55 | flush for "tool", the sub-messages at the next indices; the local index ends at index+n |
| AppWorkflow.AppHook.PutOwn | app/autogen_workflow_team.py:60-125 | renders the message itself and puts it at the index; raises iff it is a function/tool message without content |
| AppWorkflow.AppHook.Chat | app/autogen_workflow_team.py:286-288 | the app's hook invocations from a fresh counter, stopping at the first that raises |
| AppWorkflow.AppCallsStableAfterFailure | app/autogen_workflow_team.py:286-288 | after a hook invocation raises, nothing more is put and the counter stays |
| AppWorkflow.AppWorkflowRunner.SetQueue | app/autogen_workflow_team.py:251-252 | sets the queue |
| AppWorkflow.AppWorkflowRunner.Run | app/autogen_workflow_team.py:254-292 | returns the chat result or the escaping exception (`AppRunResult`); with stream and a queue puts `AppStreamItems` |
| AppWorkflow.AgreesWithSrc | app/autogen_workflow_team.py:36-58 | where only "tool" messages carry tool responses, the app puts, raises and counts exactly as the src variant, given the same rendering of messages without tool responses |
| AppWorkflow.BatchAgrees | app/autogen_workflow_team.py:46-55 | the same for the first j sub-messages |
| AppWorkflow.LeafItemsOfText | app/autogen_workflow_team.py:117-125 | a message that renders puts one "stop" delta with its text |
| AppWorkflow.OwnRendered | app/autogen_workflow_team.py:36-60 | a non-"tool" message whose sub-messages all returned falls through and puts its own rendering at index+n; it raises iff that rendering raises |
| AppWorkflow.OwnSkipped | app/autogen_workflow_team.py:36-58 | a "tool" message with tool responses, or one whose sub-messages raised, puts only the flush and the sub-messages, and raises iff a sub-message raised |
| AppWorkflow.FlatBatchAgrees | app/autogen_workflow_team.py:46-55 | plain sub-messages behave as in the src variant and count one call each |
| AppWorkflow.OtherBatchCalls | app/autogen_workflow_team.py:46-58 | a non-"tool" message with n plain responses counts n+1 hook calls |
| AppWorkflow.OtherBatchExtendsSrc | app/autogen_workflow_team.py:46-125 | a non-"tool" message with plain responses puts what the src variant puts, followed by its own delta at index+n |
| AppWorkflow.OtherBatchRepeatsIndex | app/autogen_workflow_team.py:46-125 | so its own delta reuses index+n, the index of its last sub-message |
| AppWorkflow.AppEmittedShape | app/autogen_workflow_team.py:117-125 | every app put is a "stop" delta at or after the call's index |
| AppWorkflow.AppBatchShape | app/autogen_workflow_team.py:46-55 | every put of the sub-message loop is a "stop" delta after the index |
| AppWorkflow.AppCallsAllStop | app/autogen_workflow_team.py:286-288 | every hook delta of the app has finish reason "stop" |
| AppWorkflow.DoneOnlyOnSuccess | app/autogen_workflow_team.py:286-292 | "[DONE]" is put iff the chat returned, and then last; no delta ever has finish reason "error" |
| Server.HandleResponse | src/fastapi_autogen_team/autogen_server.py:20-32 | succeeds iff given an Output whose dump succeeds, returning the dump; otherwise a 500 with "Unexpected string response: …", "Response object missing 'model_dump' method: …" or "Serialization error: …" |
| Server.NonStreamingShape | src/fastapi_autogen_team/autogen_server.py:134-166 | exactly one assistant choice at index 0 with "stop"; a result gives summary, `str(chat_id)` and its cost; no result gives the apology, id "None" and all-zero usage; a result without cost fails with a 500 "Response creation error" |
| Server.CreateNonStreamingResponseCorrected | src/fastapi_autogen_team/autogen_server.py:134-166 | the corrected reply always succeeds |
| Server.CorrectedAgrees | src/fastapi_autogen_team/autogen_server.py:134-166 | the corrected reply equals the original wherever the original succeeds, and answers a result without cost with its summary and all-zero usage |
| Server.EmptyUsageIsZero | src/fastapi_autogen_team/autogen_server.py:17 | `EMPTY_USAGE` has exactly the three token counters, all zero |
| Server.Chunk | src/fastapi_autogen_team/autogen_server.py:120-126 | each chunk is a "chat.completion.chunk" with the single item as choice, all-zero usage, the requested model and a fresh id |
| Server.GenerateStreamingResponse | src/fastapi_autogen_team/autogen_server.py:111-131 | the draining loop yields exactly `Drain`'s events and ends as `Drain` says |
| Server.DrainStep | src/fastapi_autogen_team/autogen_server.py:115-128 | a delta that dumps yields its event and the generator goes on with the next item |
| Server.StreamLayout | src/fastapi_autogen_team/autogen_server.py:111-128 | one event per item before the first "[DONE]", in queue order, then exactly "data: [DONE]\n\n", and the generator finishes |
| Server.StopsAtDone | src/fastapi_autogen_team/autogen_server.py:116-118 | nothing after the first "[DONE]" is read |
| Server.StreamFailure | src/fastapi_autogen_team/autogen_server.py:127-131 | the first chunk whose dump fails ends the stream with a 500 "Streaming error: 500: Serialization error: …" instead of an event |
| Server.DrainWithoutDone | src/fastapi_autogen_team/autogen_server.py:114-128 | without "[DONE]" every item yields an event and the generator is left waiting |
| Normalize.TextEntries | src/fastapi_autogen_team/autogen_server.py:52-54 | one entry per text part at most, all under the message's role |
| Normalize.ConcatAppend | src/fastapi_autogen_team/autogen_server.py:42-54 | the message-by-message flattening distributes over concatenation |
| Normalize.NormalizeEntries | src/fastapi_autogen_team/autogen_server.py:41-54 | the loop builds exactly `Normalized(messages)` |
| Normalize.NormalizedStep | src/fastapi_autogen_team/autogen_server.py:42-54 | one more message appends exactly its own entries |
| Normalize.TextEntriesStep | src/fastapi_autogen_team/autogen_server.py:52-54 | one more part appends an entry iff it is a text part |
| Normalize.LastUser | src/fastapi_autogen_team/autogen_server.py:58-67 | none iff there is no User entry; otherwise the index of a User entry with no User entry after it |
| Normalize.NormalizeInputMessages | src/fastapi_autogen_team/autogen_server.py:35-83 | returns `Prompt(Normalized(messages))` |
| Normalize.NormalizedAppend | src/fastapi_autogen_team/autogen_server.py:42-54 | the entries of a history are those of its parts, in order |
| Normalize.MessageContribution | src/fastapi_autogen_team/autogen_server.py:43-48 | a message of another role contributes nothing; string content contributes exactly one entry under the capitalised role |
| Normalize.EntriesLabelled | src/fastapi_autogen_team/autogen_server.py:54 | every entry is labelled User, Assistant or System |
| Normalize.TextEntriesCount | src/fastapi_autogen_team/autogen_server.py:53 | image parts contribute nothing |
| Normalize.NoUserMeansTerminate | src/fastapi_autogen_team/autogen_server.py:60-65 | with no User entry the prompt is exactly the fixed SHORT_MEMORY/REQUEST text, which contains "TERMINATE" |
| Normalize.NoSystemLineOfSystemEntries | src/fastapi_autogen_team/autogen_server.py:74 | filtering the System entries for non-System roles leaves nothing |
| Normalize.PromptWithUser | src/fastapi_autogen_team/autogen_server.py:67-81 | REQUEST is "User: " + the last User text, SHORT_MEMORY the non-System lines before it, SYSTEM_INFO always empty, so the prompt starts `'SYSTEM_INFO':{\n\n},\n` |
| Normalize.UserLine | src/fastapi_autogen_team/autogen_server.py:75 | the line of a User entry is "User: " followed by its text |
| Normalize.SectionsStart | src/fastapi_autogen_team/autogen_server.py:77-81 | a prompt with empty SYSTEM_INFO starts with that empty section |
| Normalize.LastUserIgnoresTail | src/fastapi_autogen_team/autogen_server.py:67 | entries without User after the last User entry do not move it |
| Normalize.TrailingEntriesIgnored | src/fastapi_autogen_team/autogen_server.py:67-75 | entries after the last User entry never reach the prompt |
| Bridge.StreamFinishes | src/fastapi_autogen_team/autogen_server.py:111-128 | draining the src workflow's queue yields one event per delta, in order, then "data: [DONE]\n\n", and finishes, whether the chat returned or raised |
| Bridge.AppStreamWaitsAfterFailure | app/autogen_workflow_team.py:286-292 | drained the same way, the app's queue finishes the stream iff the chat returned; after an exception the consumer is left waiting |
| Bridge.FailedChatRejected | src/fastapi_autogen_team/autogen_server.py:95-166 | as written, the error result of a chat that raised fails validation with a 500 "Response creation error", which the outer handler of `serve_autogen` re-raises as a 500 "Autogen processing error: 500: Response creation error: …" |
| Bridge.FailedChatReported | src/fastapi_autogen_team/autogen_server.py:95-166 | with the correction, a chat that raised is answered with the error summary, id "None" and all-zero usage; any other reply is unchanged |

## Left out

- The autogen library is foreign code and is not modelled. This covers `initiate_chat`, speaker selection, LLM calls, `register_function`, the round loop and the enforcement of `max_round` and of the hand-over graph. A chat is given as the hook invocations it makes and how it ends; the graphs and round limits are data only.
- `OpenAIWrapper.instantiate` is a function-valued field of the receiver. A message's `context` dict is its key/value pairs in order, and only that function reads it. `content_str` is folded into the content: list-valued message content is represented by the string the library makes of it.
- `self._message_to_dict` is the identity. A message is already a dict.
- Console output (`IOStream.print`, `termcolor.colored`) only echoes. Only the accumulated text and the queue puts are modelled.
- Without streaming, the manager prints with the library's own method. That printing is not modelled.
- Threads and the blocking `Queue.get`/`task_done` are not modelled. The queue is the sequence of everything put on it, drained in that order. "Waiting" stands for a `get` that blocks for ever.
- `json.dumps`, `uuid.uuid4` and the `Output.created` default are parameters of the stream (`Server.Env`). Whether a dump raises is a parameter too.
- The pydantic validation error's text is a parameter of `CreateNonStreamingResponse`.
- `serve_autogen`, both `main.py` files, `tool.py` and `data_model.py` are not part of this model. They are HTTP wiring, a network client and declarations. Only the non-streaming path of `serve_autogen` (lines 95-108) appears, as `Bridge.NonStreamingReply`: the call of `create_non_streaming_response` and the outer `except Exception` that re-raises any failure as a 500 "Autogen processing error: " followed by the `str()` of the exception. It exposes the finding below.
- The `else: [m["content"]]` branch of `normalize_input_messages` is not modelled. Validated content is always a string or a list, so the branch cannot run.
- Usage and cost dictionaries are flattened to string-to-integer maps. autogen's nested cost dictionary is one such map in this model.
- The app agents' own `is_termination_msg` (the library default) is not modelled.
- `streamed_print_received_message` is split into `Hook.PrintReceived`, `PrintBatch` and `PutRendered`, and the app's one function into `AppHook.PrintReceived`, `PrintBatch`, `ToolResponses` and `PutOwn`, so that each proof stays small. Together they take the source's branches in the source's order.
- Both variants share `Render.RenderLeaf`, because their text rendering is identical.
- Render.ResponseId: a message whose `name` or `tool_call_id` key is present with the value None shows "None" in Python (src/fastapi_autogen_team/autogen_workflow_team.py:137). The model's optional fields cannot tell a present None from a missing key, so it shows the default "No id found".
- Render.FunctionCallTitle: the same holds for a function call's `name` and `arguments` (lines 176 and 181) and for a tool call's `id`, `name` and `arguments` (lines 191, 194 and 200). Each shows "None" in Python when present with the value None, and the model shows the default instead. A tool call whose `function` is present with the value None makes `dict(None)` raise TypeError (line 192). The model has no such tool call, so that failure is not captured.
- Team.IsTerminationMsg: for string content it tests "TERMINATE" as a substring, as Python does. For list content, `"TERMINATE" in msg["content"]` (lines 222-223 and 255-256) is list membership: it holds only when one element equals "TERMINATE". The model folds list content into a string, so for list content it tests a substring instead.
- Server.CreateNonStreamingResponse: has no contract of its own. Its properties are stated by `Server.NonStreamingShape`.

Where the design description and the code disagree, the model follows the code:
- The design says a non-streaming reply takes its usage from the session's cost record if present, else a zeroed record. The code passes the cost through unchanged, so a missing cost fails validation (see Findings).
- The design says a streaming response is never left unterminated. The app variant's `run` puts "[DONE]" only when the chat returns (`AppWorkflow.DoneOnlyOnSuccess`, `Bridge.AppStreamWaitsAfterFailure`). The src variant does terminate (`Bridge.StreamFinishes`).
- The design says the index counter advances exactly once per top-level call of the hook. The code increments it once per invocation of the rebound hook (src/fastapi_autogen_team/autogen_workflow_team.py:317-324), and the loop over tool responses invokes the hook again for each one (lines 120-129). So it advances once per message in the tree, nested responses included (`Emission.HookCallsCountTree`).
- The design says delta indices are strictly increasing with no gaps. That holds only for plain calls (`Workflow.PlainCallsGapless`). A non-"tool" message with tool responses puts nothing at its own index, which leaves a gap (`Emission.OtherBatchEmission`). The loop's local `index += 1` (line 121) does not count nested calls, so a sub-message with tool responses of its own puts its deltas at indices that its later siblings reuse (`Emission.NestedBatchRepeatsIndex`).

## Findings

| source | as written | input that shows it | evidently intended | confidence | as-written member | corrected member |
|---|---|---|---|---|---|---|
| src/fastapi_autogen_team/autogen_server.py:148 | `create_non_streaming_response` passes `usage=chat_results.cost`. The `ChatResult` that `run` returns after catching an exception (src/fastapi_autogen_team/autogen_workflow_team.py:355-358) leaves `cost` at its default None, and `Output.usage` must be a dict. So validation fails with HTTP 500 "Response creation error", and the outer handler of `serve_autogen` (src/fastapi_autogen_team/autogen_server.py:106-108) turns that into HTTP 500 "Autogen processing error: 500: Response creation error: …". | a non-streaming request whose chat raises, e.g. a tool message without content, or any `initiate_chat` exception | report the error result: its summary "Conversation failed due to system error", with all-zero usage | medium, not executed | Bridge.FailedChatRejected | Bridge.FailedChatReported |
