/** The streaming side of `AutogenWorkflow` in
    src/fastapi_autogen_team/autogen_workflow_team.py: the rebound emission hook
    with its request-local index counter, the queue puts of
    `streamed_print_received_message` and `handle_tool_responses`, and `run`. */
module Workflow {
  import opened Wrappers
  import opened Render
  import opened Protocol
  import opened Emission

  /** The hook `run` installs on the manager in streaming mode: the closure over
      the request's queue and `index_counter`, bound to the manager. */
  class Hook {
    const queue: DeltaQueue
    const manager: Receiver
    /** What the hook puts for a message without tool responses: `Rendering(manager)`. */
    ghost const leaf: Renderer
    var counter: nat

    /** `leaf` renders as the manager's hook does. */
    ghost predicate Renders() {
      RendersAs(leaf, manager)
    }

    constructor (queue: DeltaQueue, manager: Receiver)
      ensures this.queue == queue && this.manager == manager && leaf == Rendering(manager) && counter == 0
      ensures Renders()
    {
      this.queue := queue;
      this.manager := manager;
      leaf := Rendering(manager);
      counter := 0;
      RenderingRendersAs(manager);
    }

    /** `streamed_print_received_message_with_queue_and_index`: renders at the index
        the caller passes (a nested call passes one) or else at the counter, and
        increments the counter once the rendering returns. */
    method Invoke(m: Message, sender: string, index: Option<nat>) returns (ok: bool)
      requires Renders()
      modifies this, queue
      decreases m, 3
      ensures ok == !Fails(m)
      ensures queue.items == old(queue.items) + Emitted(m, sender, manager, leaf, index.GetOr(old(counter)))
      ensures counter == old(counter) + HookCalls(m)
    {
      var i := if index.Some? then index.value else counter;
      ok := PrintReceived(m, sender, i);
      if ok {
        counter := counter + 1;
      }
    }

    /** `streamed_print_received_message`: `ok` is false when it raises. */
    method PrintReceived(m: Message, sender: string, index: nat) returns (ok: bool)
      requires Renders()
      modifies this, queue
      decreases m, 2
      ensures ok == !Fails(m)
      ensures queue.items == old(queue.items) + Emitted(m, sender, manager, leaf, index)
      ensures counter == old(counter) + (if HasBatch(m) then BatchCalls(m, |m.toolResponses|) else 0)
    {
      var streaming := Header(sender, manager.name);
      if m.toolResponses != [] {
        ok := PrintBatch(m, sender, index, streaming);
      } else {
        LeafOnly(m, sender, manager, leaf, index);
        ok := PutRendered(m, sender, index, streaming);
      }
    }

    /** The branch of `streamed_print_received_message` for a message with tool
        responses: `handle_tool_responses` with the header as the text so far,
        and then it returns. */
    method PrintBatch(m: Message, sender: string, index: nat, streaming: string) returns (ok: bool)
      requires Renders() && HasBatch(m) && streaming == Header(sender, manager.name)
      modifies this, queue
      decreases m, 1
      ensures ok == !Fails(m)
      ensures queue.items == old(queue.items) + Emitted(m, sender, manager, leaf, index)
      ensures counter == old(counter) + BatchCalls(m, |m.toolResponses|)
    {
      var rest;
      ok, rest := HandleToolResponses(m, sender, index, streaming);
      BatchEmitted(m, sender, manager, leaf, index);
    }

    /** The tail of `streamed_print_received_message` for a message without tool
        responses: the function/tool or regular rendering after the header, the
        separator, and one put at index. */
    method PutRendered(m: Message, sender: string, index: nat, streaming0: string) returns (ok: bool)
      requires streaming0 == Header(sender, manager.name) && Renders()
      modifies queue
      ensures ok == !LeafFails(m)
      ensures queue.items == old(queue.items) + leaf(m, sender, index)
    {
      assert leaf(m, sender, index) == LeafItems(m, sender, manager, index);
      ghost var rendered := RenderLeaf(m, sender, manager);
      var streaming := streaming0;
      if IsFunctionOrTool(m.role) {
        var r := HandleFunctionToolMessage(m, streaming);
        if r.Failure? {
          assert rendered.Failure?;
          ok := false;
          return;
        }
        streaming := r.value;
      } else {
        streaming := HandleRegularMessage(m, manager, streaming);
      }
      streaming := streaming + Separator;
      assert rendered == Success(streaming);
      queue.Put(Delta(index, streaming, Stop));
      ok := true;
    }

    /** `handle_tool_responses`: flushes the text so far for a "tool" message,
        emits every sub-message through the hook at consecutive indices, and
        returns "" for a "tool" message (even with no sub-messages). */
    method HandleToolResponses(m: Message, sender: string, index: nat, streaming: string) returns (ok: bool, r: string)
      requires Renders()
      modifies this, queue
      decreases m, 0
      ensures ok == !FailsBefore(m, |m.toolResponses|)
      ensures queue.items == old(queue.items)
        + (if IsToolRole(m) then [Delta(index, streaming, Stop)] else [])
        + BatchItems(m, sender, manager, leaf, index, |m.toolResponses|)
      ensures counter == old(counter) + BatchCalls(m, |m.toolResponses|)
      ensures ok ==> r == (if IsToolRole(m) then "" else streaming)
    {
      if m.role == Some("tool") {
        queue.Put(Delta(index, streaming, Stop));
      }
      ghost var start := queue.items;
      ghost var c0 := counter;
      var j := 0;
      var i := index;
      ok := true;
      while j < |m.toolResponses| && ok
        invariant 0 <= j <= |m.toolResponses| && i == index + j
        invariant ok == !FailsBefore(m, j)
        invariant queue.items == start + BatchItems(m, sender, manager, leaf, index, j)
        invariant counter == c0 + BatchCalls(m, j)
        decreases |m.toolResponses| - j
      {
        BatchStep(m, sender, manager, leaf, index, j);
        i := i + 1;
        ok := Invoke(m.toolResponses[j], sender, Some(i));
        AppendAssoc(start, BatchItems(m, sender, manager, leaf, index, j), Emitted(m.toolResponses[j], sender, manager, leaf, i));
        j := j + 1;
      }
      if !ok {
        StableAfterFailure(m, sender, manager, leaf, index, j, |m.toolResponses|);
      }
      r := if m.role == Some("tool") then "" else streaming;
    }

    /** The hook invocations of one chat, starting from a fresh counter: they stop
        at the first one that raises. */
    method Chat(calls: seq<HookCall>) returns (ok: bool)
      requires counter == 0 && Renders()
      modifies this, queue
      ensures ok == !CallsFailBefore(calls, |calls|)
      ensures queue.items == old(queue.items) + CallsItems(calls, manager, leaf, |calls|)
      ensures counter == CounterAfter(calls, |calls|)
    {
      var j := 0;
      ok := true;
      while j < |calls| && ok
        invariant 0 <= j <= |calls|
        invariant ok == !CallsFailBefore(calls, j)
        invariant queue.items == old(queue.items) + CallsItems(calls, manager, leaf, j)
        invariant counter == CounterAfter(calls, j)
        decreases |calls| - j
      {
        CallsStep(calls, manager, leaf, j);
        ok := Invoke(calls[j].message, calls[j].sender, None);
        AppendAssoc(old(queue.items), CallsItems(calls, manager, leaf, j),
          Emitted(calls[j].message, calls[j].sender, manager, leaf, CounterAfter(calls, j)));
        j := j + 1;
      }
      if !ok {
        CallsStableAfterFailure(calls, manager, leaf, j, |calls|);
      }
    }
  }

  /** One invocation of the manager's emission hook made by the library's chat loop. */
  datatype HookCall = HookCall(message: Message, sender: string)

  /** How `initiate_chat` ends when no hook call raises. */
  datatype Outcome = Returned(result: ChatResult) | Raised(error: string)

  /** `initiate_chat`, seen from this code: the hook invocations it makes, in
      order, and how it ends. A hook invocation that raises ends it at once with
      that exception. */
  datatype Conversation = Conversation(calls: seq<HookCall>, outcome: Outcome)

  const NoQueue := "'NoneType' object has no attribute 'put'"
  const ErrorSummary := "Conversation failed due to system error"

  function SystemError(e: string): string {
    "System error occurred: " + e
  }

  /** The ChatResult `run` returns after catching an exception. */
  function ErrorResult(e: string): (r: ChatResult)
    ensures |r.history| == 1 && r.history[0].role == "error" && r.summary == ErrorSummary
  {
    ChatResult(None, [HistoryEntry("error", SystemError(e), Some(ErrorInfo("Workflow Error", e, "system_error")))],
               ErrorSummary, None)
  }

  /** One of the first j calls raises. */
  predicate CallsFailBefore(calls: seq<HookCall>, j: nat)
    requires j <= |calls|
  {
    j > 0 && (CallsFailBefore(calls, j - 1) || Fails(calls[j - 1].message))
  }

  /** The index counter after the first j calls. */
  function CounterAfter(calls: seq<HookCall>, j: nat): nat
    requires j <= |calls|
  {
    if j == 0 then 0
    else if CallsFailBefore(calls, j - 1) then CounterAfter(calls, j - 1)
    else CounterAfter(calls, j - 1) + HookCalls(calls[j - 1].message)
  }

  /** What the first j calls put: each call renders at the counter's value. */
  function CallsItems(calls: seq<HookCall>, rc: Receiver, leaf: Renderer, j: nat): seq<Item>
    requires j <= |calls|
  {
    if j == 0 then []
    else if CallsFailBefore(calls, j - 1) then CallsItems(calls, rc, leaf, j - 1)
    else CallsItems(calls, rc, leaf, j - 1) + Emitted(calls[j - 1].message, calls[j - 1].sender, rc, leaf, CounterAfter(calls, j - 1))
  }

  /** One more call, while none has raised. */
  lemma CallsStep(calls: seq<HookCall>, rc: Receiver, leaf: Renderer, j: nat)
    requires j < |calls| && !CallsFailBefore(calls, j)
    ensures CallsFailBefore(calls, j + 1) == Fails(calls[j].message)
    ensures CallsItems(calls, rc, leaf, j + 1)
      == CallsItems(calls, rc, leaf, j) + Emitted(calls[j].message, calls[j].sender, rc, leaf, CounterAfter(calls, j))
    ensures CounterAfter(calls, j + 1) == CounterAfter(calls, j) + HookCalls(calls[j].message)
  {
  }

  lemma {:induction false} CallsStableAfterFailure(calls: seq<HookCall>, rc: Receiver, leaf: Renderer, j: nat, k: nat)
    requires j <= k <= |calls| && CallsFailBefore(calls, j)
    ensures CallsFailBefore(calls, k)
    ensures CallsItems(calls, rc, leaf, k) == CallsItems(calls, rc, leaf, j)
    ensures CounterAfter(calls, k) == CounterAfter(calls, j)
    decreases k
  {
    if k > j {
      CallsStableAfterFailure(calls, rc, leaf, j, k - 1);
    }
  }

  /** The exception `run` catches in streaming mode with a queue, if any. */
  function StreamError(conv: Conversation): Option<string> {
    if CallsFailBefore(conv.calls, |conv.calls|) then Some(MissingContent)
    else match conv.outcome
      case Returned(_) => None
      case Raised(e) => Some(e)
  }

  /** What `run` puts in streaming mode with a queue. */
  function StreamItems(conv: Conversation, rc: Receiver): seq<Item> {
    var n := |conv.calls|;
    CallsItems(conv.calls, rc, Rendering(rc), n)
      + (match StreamError(conv)
         case Some(e) => [Delta(CounterAfter(conv.calls, n), SystemError(e), ErrorReason)]
         case None => [])
      + [Done]
  }

  /** The exception the first hook invocation raises when the queue is None:
      the KeyError if rendering fails before the first put, else the failed put. */
  function NullQueueError(m: Message): string
    decreases m
  {
    if HasBatch(m) then (if IsToolRole(m) then NoQueue else NullQueueError(m.toolResponses[0]))
    else if LeafFails(m) then MissingContent
    else NoQueue
  }

  /** What `run` returns. */
  function RunResult(conv: Conversation, stream: bool, hasQueue: bool): ChatResult {
    if stream && hasQueue then
      match StreamError(conv)
      case Some(e) => ErrorResult(e)
      case None => conv.outcome.result
    else if stream && conv.calls != [] then ErrorResult(NullQueueError(conv.calls[0].message))
    else
      match conv.outcome
      case Returned(r) => r
      case Raised(e) => ErrorResult(e)
  }

  class AutogenWorkflow {
    var queue: DeltaQueue?
    /** The group chat manager that receives every message. */
    const manager: Receiver

    constructor (manager: Receiver)
      ensures queue == null && this.manager == manager
    {
      queue := null;
      this.manager := manager;
    }

    /** `set_queue`. */
    method SetQueue(q: DeltaQueue)
      modifies this
      ensures queue == q
    {
      queue := q;
    }

    /** `run`: in streaming mode installs the hook, lets the chat make its hook
        invocations, and puts "[DONE]" after it returns, or an error delta and
        "[DONE]" after it raises; the exception is returned as an error result. */
    method Run(conv: Conversation, stream: bool) returns (result: ChatResult)
      modifies queue
      ensures result == RunResult(conv, stream, queue != null)
      ensures queue != null && stream ==> queue.items == old(queue.items) + StreamItems(conv, manager)
      ensures queue != null && !stream ==> queue.items == old(queue.items)
    {
      var error: Option<string> := None;
      var counter := 0;
      // initiate_chat: the hook invocations
      if stream && queue != null {
        var hook := new Hook(queue, manager);
        var ok := hook.Chat(conv.calls);
        if !ok {
          error := Some(MissingContent);
        }
        counter := hook.counter;
      } else if stream && conv.calls != [] {
        error := Some(NullQueueError(conv.calls[0].message));
      }
      // initiate_chat: how the chat itself ends
      var history: ChatResult;
      if error.None? {
        match conv.outcome {
          case Returned(r) => history := r;
          case Raised(e) => error := Some(e);
        }
      }
      if error.None? {
        if stream && queue != null {
          queue.Put(Done);
        }
        result := history;
      } else {
        if stream && queue != null {
          queue.Put(Delta(counter, SystemError(error.value), ErrorReason));
          queue.Put(Done);
        }
        result := ErrorResult(error.value);
      }
    }
  }

  // ---------------------------------------------------------------------------
  // Indices: what one hook invocation uses, and what a whole chat uses.

  /** Deltas whose indices all lie in [low, high). */
  predicate IndicesWithin(items: seq<Item>, low: nat, high: nat) {
    forall i :: 0 <= i < |items| ==> items[i].Delta? && low <= items[i].index < high
  }

  /** A message that does not raise uses only indices from its own index up to
      (not including) the counter value after it. */
  lemma {:induction false} EmittedWithin(m: Message, sender: string, rc: Receiver, leaf: Renderer, index: nat)
    requires !Fails(m) && LeafShaped(leaf)
    ensures HookCalls(m) >= 1
    ensures IndicesWithin(Emitted(m, sender, rc, leaf, index), index, index + HookCalls(m))
    decreases m, |m.toolResponses| + 1
  {
    if HasBatch(m) {
      BatchWithin(m, sender, rc, leaf, index, |m.toolResponses|);
    } else {
      assert LeafShape(leaf(m, sender, index), m, index);
    }
  }

  lemma {:induction false} BatchWithin(m: Message, sender: string, rc: Receiver, leaf: Renderer, index: nat, j: nat)
    requires j <= |m.toolResponses| && !FailsBefore(m, j) && LeafShaped(leaf)
    ensures BatchCalls(m, j) >= j
    ensures IndicesWithin(BatchItems(m, sender, rc, leaf, index, j), index + 1, index + 1 + BatchCalls(m, j))
    decreases m, j
  {
    if j > 0 {
      BatchWithin(m, sender, rc, leaf, index, j - 1);
      EmittedWithin(m.toolResponses[j - 1], sender, rc, leaf, index + j);
    }
  }

  /** The deltas of the first j calls of a chat that has not raised are all below
      the counter after them, and the counter never goes back. */
  lemma {:induction false} CallsBelowCounter(calls: seq<HookCall>, rc: Receiver, leaf: Renderer, j: nat)
    requires j <= |calls| && !CallsFailBefore(calls, j) && LeafShaped(leaf)
    ensures IndicesWithin(CallsItems(calls, rc, leaf, j), 0, CounterAfter(calls, j))
    ensures forall i :: 0 <= i <= j ==> CounterAfter(calls, i) <= CounterAfter(calls, j)
  {
    if j > 0 {
      CallsBelowCounter(calls, rc, leaf, j - 1);
      EmittedWithin(calls[j - 1].message, calls[j - 1].sender, rc, leaf, CounterAfter(calls, j - 1));
    }
  }

  /** Two hook invocations of one chat never share an index: the deltas of a later
      invocation come after every index an earlier one used. */
  lemma CallsDoNotShareIndices(calls: seq<HookCall>, rc: Receiver, leaf: Renderer, j: nat)
    requires j < |calls| && !CallsFailBefore(calls, j + 1) && LeafShaped(leaf)
    ensures var earlier := CallsItems(calls, rc, leaf, j);
            var mine := Emitted(calls[j].message, calls[j].sender, rc, leaf, CounterAfter(calls, j));
            CallsItems(calls, rc, leaf, j + 1) == earlier + mine
            && (forall a, b :: 0 <= a < |earlier| && 0 <= b < |mine| ==>
                  earlier[a].Delta? && mine[b].Delta? && earlier[a].index < mine[b].index)
  {
    CallsBelowCounter(calls, rc, leaf, j);
    EmittedWithin(calls[j].message, calls[j].sender, rc, leaf, CounterAfter(calls, j));
  }

  /** A call the stream renders one delta per message for: a message without tool
      responses that renders, or a "tool" message over such messages. */
  predicate Plain(m: Message) {
    (!HasBatch(m) && !LeafFails(m)) || (HasBatch(m) && IsToolRole(m) && FlatOk(m))
  }

  /** When every call is plain, the deltas carry the indices 0, 1, 2, ... in order. */
  lemma {:induction false} PlainCallsGapless(calls: seq<HookCall>, rc: Receiver, leaf: Renderer, j: nat)
    requires j <= |calls| && LeafShaped(leaf)
    requires forall k :: 0 <= k < j ==> Plain(calls[k].message)
    ensures !CallsFailBefore(calls, j)
    ensures |CallsItems(calls, rc, leaf, j)| == CounterAfter(calls, j)
    ensures forall k :: 0 <= k < |CallsItems(calls, rc, leaf, j)| ==>
      CallsItems(calls, rc, leaf, j)[k].Delta? && CallsItems(calls, rc, leaf, j)[k].index == k
  {
    if j > 0 {
      PlainCallsGapless(calls, rc, leaf, j - 1);
      var m := calls[j - 1].message;
      var c := CounterAfter(calls, j - 1);
      var before := CallsItems(calls, rc, leaf, j - 1);
      var mine := Emitted(m, calls[j - 1].sender, rc, leaf, c);
      if HasBatch(m) {
        ToolBatchItems(m, calls[j - 1].sender, rc, leaf, c);
        forall k | 0 <= k < |mine|
          ensures mine[k].Delta? && mine[k].index == c + k
        {
          if k > 0 {
            var r := k - 1;
            assert 0 <= r < |m.toolResponses| && r + 1 == k;
            assert mine[r + 1] == leaf(m.toolResponses[r], calls[j - 1].sender, c + r + 1)[0];
            assert mine[r + 1].Delta? && mine[r + 1].index == c + r + 1;
          }
        }
      } else {
        LeafOnly(m, calls[j - 1].sender, rc, leaf, c);
        assert LeafShape(leaf(m, calls[j - 1].sender, c), m, c);
      }
      assert |mine| == HookCalls(m);
      assert CallsItems(calls, rc, leaf, j) == before + mine;
      forall k | 0 <= k < |before + mine|
        ensures (before + mine)[k].Delta? && (before + mine)[k].index == k
      {
        if k >= |before| {
          assert (before + mine)[k] == mine[k - |before|];
        }
      }
    }
  }

  // ---------------------------------------------------------------------------
  // The stream `run` produces with a queue.

  lemma {:induction false} CallsAllStop(calls: seq<HookCall>, rc: Receiver, leaf: Renderer, j: nat)
    requires j <= |calls| && LeafShaped(leaf)
    ensures StopDeltasFrom(CallsItems(calls, rc, leaf, j), 0)
  {
    if j > 0 {
      CallsAllStop(calls, rc, leaf, j - 1);
      if !CallsFailBefore(calls, j - 1) {
        EmittedShape(calls[j - 1].message, calls[j - 1].sender, rc, leaf, CounterAfter(calls, j - 1));
      }
    }
  }

  /** "[DONE]" is put exactly once, as the last item, on both paths. */
  lemma DoneOnceAndLast(conv: Conversation, rc: Receiver)
    ensures var s := StreamItems(conv, rc);
      |s| >= 1 && s[|s| - 1] == Done && forall i :: 0 <= i < |s| - 1 ==> s[i].Delta?
  {
    RenderingShaped(rc);
    CallsAllStop(conv.calls, rc, Rendering(rc), |conv.calls|);
  }

  /** A delta with finish reason "error" appears iff `run` caught an exception,
      and then it is the one just before "[DONE]", at the counter's value, and
      carries the exception's text; every other delta has finish reason "stop". */
  lemma ErrorDeltaIffException(conv: Conversation, rc: Receiver)
    ensures var s := StreamItems(conv, rc);
      forall i :: 0 <= i < |s| - 1 ==>
        s[i].Delta?
        && (s[i].finishReason == ErrorReason <==> StreamError(conv).Some? && i == |s| - 2)
        && (s[i].finishReason != ErrorReason ==> s[i].finishReason == Stop)
    ensures var s := StreamItems(conv, rc);
      StreamError(conv).Some? ==>
        |s| >= 2 && s[|s| - 2] == Delta(CounterAfter(conv.calls, |conv.calls|), SystemError(StreamError(conv).value), ErrorReason)
  {
    RenderingShaped(rc);
    CallsAllStop(conv.calls, rc, Rendering(rc), |conv.calls|);
  }

  /** A hook invocation that raises is the KeyError of a function or tool message
      without content, which `run` reports as a system error. */
  lemma HookFailureIsMissingContent(conv: Conversation)
    requires CallsFailBefore(conv.calls, |conv.calls|)
    ensures StreamError(conv) == Some(MissingContent)
    ensures exists j :: 0 <= j < |conv.calls| && Fails(conv.calls[j].message)
  {
    var j := |conv.calls|;
    while CallsFailBefore(conv.calls, j - 1)
      invariant 0 < j <= |conv.calls| && CallsFailBefore(conv.calls, j)
      decreases j
    {
      j := j - 1;
    }
    assert Fails(conv.calls[j - 1].message);
  }

  /** On a chat of plain calls that returns, the stream is one delta per message,
      at the indices 0, 1, 2, ..., then "[DONE]". */
  lemma PlainStreamGapless(conv: Conversation, rc: Receiver)
    requires conv.outcome.Returned?
    requires forall k :: 0 <= k < |conv.calls| ==> Plain(conv.calls[k].message)
    ensures var s := StreamItems(conv, rc);
      StreamError(conv).None?
      && forall k :: 0 <= k < |s| - 1 ==> s[k].Delta? && s[k].index == k
  {
    RenderingShaped(rc);
    PlainCallsGapless(conv.calls, rc, Rendering(rc), |conv.calls|);
    var s := StreamItems(conv, rc);
    var body := CallsItems(conv.calls, rc, Rendering(rc), |conv.calls|);
    assert s == body + [Done];
    assert forall k :: 0 <= k < |s| - 1 ==> s[k] == body[k];
  }

  // ---------------------------------------------------------------------------
  // Streaming with no queue set.

  lemma {:induction false} BatchItemsPrefix(m: Message, sender: string, rc: Receiver, leaf: Renderer, index: nat, j: nat, k: nat)
    requires j <= k <= |m.toolResponses|
    ensures BatchItems(m, sender, rc, leaf, index, j) <= BatchItems(m, sender, rc, leaf, index, k)
    decreases k
  {
    if k > j {
      BatchItemsPrefix(m, sender, rc, leaf, index, j, k - 1);
    }
  }

  /** With no queue the first hook invocation raises AttributeError at its first
      put, and KeyError exactly when rendering fails before anything is put. */
  lemma {:induction false} NullQueueFailsAtFirstPut(m: Message, sender: string, rc: Receiver, leaf: Renderer, index: nat)
    requires LeafShaped(leaf)
    ensures NullQueueError(m) == NoQueue <==> Emitted(m, sender, rc, leaf, index) != []
    ensures NullQueueError(m) != NoQueue ==> NullQueueError(m) == MissingContent && Fails(m)
    decreases m
  {
    if HasBatch(m) && !IsToolRole(m) {
      var first := m.toolResponses[0];
      NullQueueFailsAtFirstPut(first, sender, rc, leaf, index + 1);
      var n := |m.toolResponses|;
      assert BatchItems(m, sender, rc, leaf, index, 1) == Emitted(first, sender, rc, leaf, index + 1);
      if Emitted(first, sender, rc, leaf, index + 1) == [] {
        StableAfterFailure(m, sender, rc, leaf, index, 1, n);
      } else {
        BatchItemsPrefix(m, sender, rc, leaf, index, 1, n);
      }
    } else if !HasBatch(m) {
      assert LeafShape(leaf(m, sender, index), m, index);
    }
  }
}
