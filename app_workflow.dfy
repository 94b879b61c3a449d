/** The older variant in app/autogen_workflow_team.py: one function renders a
    message and recurses over its tool responses, and `run` has no exception
    handling. Its text rendering is the same as the src helpers' (Render); what
    differs is the control flow around tool responses and the sentinel. */
module AppWorkflow {
  import opened Wrappers
  import opened Render
  import opened Protocol
  import opened Emission
  import opened Workflow

  /** The call for m raises: a sub-message raises, or the message's own
      rendering does (a "tool" message with tool responses renders nothing itself). */
  predicate AppFails(m: Message)
    decreases m, |m.toolResponses| + 1
  {
    if HasBatch(m) then AppFailsBefore(m, |m.toolResponses|) || (!IsToolRole(m) && LeafFails(m))
    else LeafFails(m)
  }

  predicate AppFailsBefore(m: Message, j: nat)
    requires j <= |m.toolResponses|
    decreases m, j
  {
    j > 0 && (AppFailsBefore(m, j - 1) || AppFails(m.toolResponses[j - 1]))
  }

  /** Everything the call for m at index puts. After the sub-messages, a message
      of any role but "tool" falls through and puts its own delta at index + n. */
  function AppEmitted(m: Message, sender: string, rc: Receiver, leaf: Renderer, index: nat): seq<Item>
    decreases m, |m.toolResponses| + 1
  {
    if HasBatch(m) then
      var n := |m.toolResponses|;
      Flush(m, sender, rc, index) + AppBatchItems(m, sender, rc, leaf, index, n) + OwnItems(m, sender, leaf, index)
    else leaf(m, sender, index)
  }

  /** The delta a message with tool responses puts for itself after them. */
  function OwnItems(m: Message, sender: string, leaf: Renderer, index: nat): seq<Item>
    requires HasBatch(m)
  {
    if IsToolRole(m) || AppFailsBefore(m, |m.toolResponses|) then []
    else leaf(m, sender, index + |m.toolResponses|)
  }

  function AppBatchItems(m: Message, sender: string, rc: Receiver, leaf: Renderer, index: nat, j: nat): seq<Item>
    requires j <= |m.toolResponses|
    decreases m, j
  {
    if j == 0 then []
    else if AppFailsBefore(m, j - 1) then AppBatchItems(m, sender, rc, leaf, index, j - 1)
    else AppBatchItems(m, sender, rc, leaf, index, j - 1) + AppEmitted(m.toolResponses[j - 1], sender, rc, leaf, index + j)
  }

  function AppHookCalls(m: Message): nat
    decreases m, |m.toolResponses| + 1
  {
    (if AppFails(m) then 0 else 1) + (if HasBatch(m) then AppBatchCalls(m, |m.toolResponses|) else 0)
  }

  function AppBatchCalls(m: Message, j: nat): nat
    requires j <= |m.toolResponses|
    decreases m, j
  {
    if j == 0 then 0
    else if AppFailsBefore(m, j - 1) then AppBatchCalls(m, j - 1)
    else AppBatchCalls(m, j - 1) + AppHookCalls(m.toolResponses[j - 1])
  }

  lemma {:induction false} AppStableAfterFailure(m: Message, sender: string, rc: Receiver, leaf: Renderer, index: nat, j: nat, k: nat)
    requires j <= k <= |m.toolResponses| && AppFailsBefore(m, j)
    ensures AppFailsBefore(m, k)
    ensures AppBatchItems(m, sender, rc, leaf, index, k) == AppBatchItems(m, sender, rc, leaf, index, j)
    ensures AppBatchCalls(m, k) == AppBatchCalls(m, j)
    decreases k
  {
    if k > j {
      AppStableAfterFailure(m, sender, rc, leaf, index, j, k - 1);
    }
  }

  /** One more sub-message, while none has raised. */
  lemma AppBatchStep(m: Message, sender: string, rc: Receiver, leaf: Renderer, index: nat, j: nat)
    requires j < |m.toolResponses| && !AppFailsBefore(m, j)
    ensures AppFailsBefore(m, j + 1) == AppFails(m.toolResponses[j])
    ensures AppBatchItems(m, sender, rc, leaf, index, j + 1)
      == AppBatchItems(m, sender, rc, leaf, index, j) + AppEmitted(m.toolResponses[j], sender, rc, leaf, index + j + 1)
    ensures AppBatchCalls(m, j + 1) == AppBatchCalls(m, j) + AppHookCalls(m.toolResponses[j])
  {
  }

  /** The rebound hook of the app's `run`. */
  class AppHook {
    const queue: DeltaQueue
    const manager: Receiver
    /** What the hook puts for a message's own text: `Rendering(manager)`. */
    ghost const leaf: Renderer
    var counter: nat

    /** `leaf` renders as the manager's hook does. */
    ghost predicate Renders() {
      RendersAs(leaf, manager)
    }

    constructor (queue: DeltaQueue, manager: Receiver)
      ensures this.queue == queue && this.manager == manager && leaf == Rendering(manager) && counter == 0
      ensures Renders()
    {
      this.queue := queue;
      this.manager := manager;
      leaf := Rendering(manager);
      counter := 0;
    }

    method Invoke(m: Message, sender: string, index: Option<nat>) returns (ok: bool)
      requires Renders()
      modifies this, queue
      decreases m, 4
      ensures ok == !AppFails(m)
      ensures queue.items == old(queue.items) + AppEmitted(m, sender, manager, leaf, index.GetOr(old(counter)))
      ensures counter == old(counter) + AppHookCalls(m)
    {
      var i := if index.Some? then index.value else counter;
      ok := PrintReceived(m, sender, i);
      if ok {
        counter := counter + 1;
      }
    }

    /** `streamed_print_received_message` of the app: the sub-message loop
        advances the local index, which the message's own delta then uses. */
    method PrintReceived(m: Message, sender: string, index0: nat) returns (ok: bool)
      requires Renders()
      modifies this, queue
      decreases m, 3
      ensures ok == !AppFails(m)
      ensures queue.items == old(queue.items) + AppEmitted(m, sender, manager, leaf, index0)
      ensures counter == old(counter) + (if HasBatch(m) then AppBatchCalls(m, |m.toolResponses|) else 0)
    {
      var streaming := Header(sender, manager.name);
      if m.toolResponses != [] {
        ok := PrintBatch(m, sender, index0, streaming);
      } else {
        ok := PutOwn(m, sender, index0, streaming);
      }
    }

    /** A message with tool responses: the sub-messages, then, unless the role is
        "tool" or a sub-message raised, the message itself at the advanced index. */
    method PrintBatch(m: Message, sender: string, index0: nat, streaming: string) returns (ok: bool)
      requires Renders()
      requires HasBatch(m) && streaming == Header(sender, manager.name)
      modifies this, queue
      decreases m, 2
      ensures ok == !AppFails(m)
      ensures queue.items == old(queue.items) + AppEmitted(m, sender, manager, leaf, index0)
      ensures counter == old(counter) + AppBatchCalls(m, |m.toolResponses|)
    {
      ghost var q0 := queue.items;
      ghost var batch := Flush(m, sender, manager, index0) + AppBatchItems(m, sender, manager, leaf, index0, |m.toolResponses|);
      var index;
      ok, index := ToolResponses(m, sender, index0, streaming);
      if !ok || m.role == Some("tool") {
        OwnSkipped(m, sender, manager, leaf, index0);
        return;
      }
      ok := PutOwn(m, sender, index, streaming);
      OwnRendered(m, sender, manager, leaf, index0);
      AppendAssoc(q0, batch, leaf(m, sender, index));
    }

    /** The `tool_responses` branch of the app's function: the flush of a "tool"
        message, then every sub-message at the next value of the local index. */
    method ToolResponses(m: Message, sender: string, index0: nat, streaming: string) returns (ok: bool, index: nat)
      requires Renders()
      requires HasBatch(m) && streaming == Header(sender, manager.name)
      modifies this, queue
      decreases m, 1
      ensures ok == !AppFailsBefore(m, |m.toolResponses|)
      ensures queue.items == old(queue.items) + (Flush(m, sender, manager, index0)
                             + AppBatchItems(m, sender, manager, leaf, index0, |m.toolResponses|))
      ensures counter == old(counter) + AppBatchCalls(m, |m.toolResponses|)
      ensures ok ==> index == index0 + |m.toolResponses|
    {
      index := index0;
      ghost var q0 := queue.items;
      if m.role == Some("tool") {
        queue.Put(Delta(index, streaming, Stop));
      }
      ghost var start := queue.items;
      assert start == q0 + Flush(m, sender, manager, index0);
      ghost var c0 := counter;
      var j := 0;
      ok := true;
      while j < |m.toolResponses| && ok
        invariant 0 <= j <= |m.toolResponses| && index == index0 + j
        invariant ok == !AppFailsBefore(m, j)
        invariant queue.items == start + AppBatchItems(m, sender, manager, leaf, index0, j)
        invariant counter == c0 + AppBatchCalls(m, j)
        decreases |m.toolResponses| - j
      {
        AppBatchStep(m, sender, manager, leaf, index0, j);
        index := index + 1;
        ok := Invoke(m.toolResponses[j], sender, Some(index));
        AppendAssoc(start, AppBatchItems(m, sender, manager, leaf, index0, j), AppEmitted(m.toolResponses[j], sender, manager, leaf, index));
        j := j + 1;
      }
      if !ok {
        AppStableAfterFailure(m, sender, manager, leaf, index0, j, |m.toolResponses|);
      }
      AppendAssoc(q0, Flush(m, sender, manager, index0), AppBatchItems(m, sender, manager, leaf, index0, |m.toolResponses|));
    }

    /** The tail of the app's function, from the role test on: render the
        message itself after the header and put it at index. */
    method PutOwn(m: Message, sender: string, index: nat, streaming0: string) returns (ok: bool)
      requires Renders()
      requires streaming0 == Header(sender, manager.name)
      modifies queue
      ensures ok == !LeafFails(m)
      ensures queue.items == old(queue.items) + leaf(m, sender, index)
    {
      assert leaf(m, sender, index) == LeafItems(m, sender, manager, index);
      ghost var rendered := RenderLeaf(m, sender, manager);
      var streaming := streaming0;
      if IsFunctionOrTool(m.role) {
        var r := HandleFunctionToolMessage(m, streaming);
        if r.Failure? {
          assert rendered.Failure?;
          ok := false;
          return;
        }
        streaming := r.value;
      } else {
        streaming := HandleRegularMessage(m, manager, streaming);
      }
      streaming := streaming + Separator;
      assert rendered == Success(streaming);
      queue.Put(Delta(index, streaming, Stop));
      ok := true;
    }

    method Chat(calls: seq<HookCall>) returns (ok: bool)
      requires Renders() && counter == 0
      modifies this, queue
      ensures ok == !AppCallsFailBefore(calls, |calls|)
      ensures queue.items == old(queue.items) + AppCallsItems(calls, manager, leaf, |calls|)
      ensures counter == AppCounterAfter(calls, |calls|)
    {
      var j := 0;
      ok := true;
      while j < |calls| && ok
        invariant 0 <= j <= |calls|
        invariant ok == !AppCallsFailBefore(calls, j)
        invariant queue.items == old(queue.items) + AppCallsItems(calls, manager, leaf, j)
        invariant counter == AppCounterAfter(calls, j)
        decreases |calls| - j
      {
        AppCallsStep(calls, manager, leaf, j);
        ok := Invoke(calls[j].message, calls[j].sender, None);
        AppendAssoc(old(queue.items), AppCallsItems(calls, manager, leaf, j),
          AppEmitted(calls[j].message, calls[j].sender, manager, leaf, AppCounterAfter(calls, j)));
        j := j + 1;
      }
      if !ok {
        AppCallsStableAfterFailure(calls, manager, leaf, j, |calls|);
      }
    }
  }

  predicate AppCallsFailBefore(calls: seq<HookCall>, j: nat)
    requires j <= |calls|
  {
    j > 0 && (AppCallsFailBefore(calls, j - 1) || AppFails(calls[j - 1].message))
  }

  function AppCounterAfter(calls: seq<HookCall>, j: nat): nat
    requires j <= |calls|
  {
    if j == 0 then 0
    else if AppCallsFailBefore(calls, j - 1) then AppCounterAfter(calls, j - 1)
    else AppCounterAfter(calls, j - 1) + AppHookCalls(calls[j - 1].message)
  }

  function AppCallsItems(calls: seq<HookCall>, rc: Receiver, leaf: Renderer, j: nat): seq<Item>
    requires j <= |calls|
  {
    if j == 0 then []
    else if AppCallsFailBefore(calls, j - 1) then AppCallsItems(calls, rc, leaf, j - 1)
    else AppCallsItems(calls, rc, leaf, j - 1) + AppEmitted(calls[j - 1].message, calls[j - 1].sender, rc, leaf, AppCounterAfter(calls, j - 1))
  }

  /** One more call, while none has raised. */
  lemma AppCallsStep(calls: seq<HookCall>, rc: Receiver, leaf: Renderer, j: nat)
    requires j < |calls| && !AppCallsFailBefore(calls, j)
    ensures AppCallsFailBefore(calls, j + 1) == AppFails(calls[j].message)
    ensures AppCallsItems(calls, rc, leaf, j + 1)
      == AppCallsItems(calls, rc, leaf, j) + AppEmitted(calls[j].message, calls[j].sender, rc, leaf, AppCounterAfter(calls, j))
    ensures AppCounterAfter(calls, j + 1) == AppCounterAfter(calls, j) + AppHookCalls(calls[j].message)
  {
  }

  lemma {:induction false} AppCallsStableAfterFailure(calls: seq<HookCall>, rc: Receiver, leaf: Renderer, j: nat, k: nat)
    requires j <= k <= |calls| && AppCallsFailBefore(calls, j)
    ensures AppCallsFailBefore(calls, k)
    ensures AppCallsItems(calls, rc, leaf, k) == AppCallsItems(calls, rc, leaf, j)
    ensures AppCounterAfter(calls, k) == AppCounterAfter(calls, j)
    decreases k
  {
    if k > j {
      AppCallsStableAfterFailure(calls, rc, leaf, j, k - 1);
    }
  }

  /** The exception that leaves the app's `run` in streaming mode with a queue. */
  function AppStreamError(conv: Conversation): Option<string> {
    if AppCallsFailBefore(conv.calls, |conv.calls|) then Some(MissingContent)
    else match conv.outcome
      case Returned(_) => None
      case Raised(e) => Some(e)
  }

  /** What the app's `run` puts: "[DONE]" only after the chat returns. */
  function AppStreamItems(conv: Conversation, rc: Receiver): seq<Item> {
    AppCallsItems(conv.calls, rc, Rendering(rc), |conv.calls|) + (if AppStreamError(conv).None? then [Done] else [])
  }

  /** What the app's `run` returns, or the exception it lets escape. */
  function AppRunResult(conv: Conversation, stream: bool, hasQueue: bool): Result<ChatResult, string> {
    if stream && hasQueue then
      match AppStreamError(conv)
      case Some(e) => Failure(e)
      case None => Success(conv.outcome.result)
    else if stream && conv.calls != [] then Failure(NullQueueError(conv.calls[0].message))
    else
      match conv.outcome
      case Returned(r) => if stream then Failure(NoQueue) else Success(r)
      case Raised(e) => Failure(e)
  }

  class AppWorkflowRunner {
    var queue: DeltaQueue?
    const manager: Receiver

    constructor (manager: Receiver)
      ensures queue == null && this.manager == manager
    {
      queue := null;
      this.manager := manager;
    }

    method SetQueue(q: DeltaQueue)
      modifies this
      ensures queue == q
    {
      queue := q;
    }

    /** `run` of the app: an exception from the chat escapes, and "[DONE]" is
        put only when the chat returns (on a None queue that put raises). */
    method Run(conv: Conversation, stream: bool) returns (result: Result<ChatResult, string>)
      modifies queue
      ensures result == AppRunResult(conv, stream, queue != null)
      ensures queue != null && stream ==> queue.items == old(queue.items) + AppStreamItems(conv, manager)
      ensures queue != null && !stream ==> queue.items == old(queue.items)
    {
      if stream && queue != null {
        var hook := new AppHook(queue, manager);
        var ok := hook.Chat(conv.calls);
        if !ok {
          return Failure(MissingContent);
        }
      } else if stream && conv.calls != [] {
        return Failure(NullQueueError(conv.calls[0].message));
      }
      match conv.outcome {
        case Raised(e) =>
          return Failure(e);
        case Returned(r) =>
          if stream {
            if queue == null {
              return Failure(NoQueue);
            }
            queue.Put(Done);
          }
          return Success(r);
      }
    }
  }

  // ---------------------------------------------------------------------------
  // How the app variant relates to the src one.

  /** Only "tool" messages in the tree of m carry tool responses. */
  predicate OnlyToolBatches(m: Message)
    decreases m
  {
    HasBatch(m) ==> IsToolRole(m) && forall k :: 0 <= k < |m.toolResponses| ==> OnlyToolBatches(m.toolResponses[k])
  }

  /** Where only "tool" messages carry tool responses, the app variant puts,
      raises and counts exactly as the src one does, given the same rendering. */
  lemma {:induction false} AgreesWithSrc(m: Message, sender: string, rc: Receiver, leaf: Renderer, index: nat)
    requires OnlyToolBatches(m)
    ensures AppFails(m) == Fails(m)
    ensures AppEmitted(m, sender, rc, leaf, index) == Emitted(m, sender, rc, leaf, index)
    ensures AppHookCalls(m) == HookCalls(m)
    decreases m, |m.toolResponses| + 1
  {
    if HasBatch(m) {
      var n := |m.toolResponses|;
      BatchAgrees(m, sender, rc, leaf, index, n);
      BatchEmitted(m, sender, rc, leaf, index);
      OwnSkipped(m, sender, rc, leaf, index);
    }
  }

  lemma {:induction false} BatchAgrees(m: Message, sender: string, rc: Receiver, leaf: Renderer, index: nat, j: nat)
    requires j <= |m.toolResponses|
    requires forall k :: 0 <= k < j ==> OnlyToolBatches(m.toolResponses[k])
    ensures AppFailsBefore(m, j) == FailsBefore(m, j)
    ensures AppBatchItems(m, sender, rc, leaf, index, j) == BatchItems(m, sender, rc, leaf, index, j)
    ensures AppBatchCalls(m, j) == BatchCalls(m, j)
    decreases m, j
  {
    if j > 0 {
      BatchAgrees(m, sender, rc, leaf, index, j - 1);
      AgreesWithSrc(m.toolResponses[j - 1], sender, rc, leaf, index + j);
    }
  }

  /** A message that renders puts one "stop" delta carrying its text. */
  lemma LeafItemsOfText(m: Message, sender: string, rc: Receiver, index: nat)
    requires !LeafFails(m)
    ensures LeafItems(m, sender, rc, index) == [Delta(index, LeafText(m, sender, rc), Stop)]
  {
  }

  /** A message with tool responses that is not a "tool" message and whose
      sub-messages all returned falls through: after the flush and the
      sub-messages it puts its own text at index + n, and it raises exactly
      when its own rendering does. */
  lemma OwnRendered(m: Message, sender: string, rc: Receiver, leaf: Renderer, index: nat)
    requires HasBatch(m)
    ensures !IsToolRole(m) && !AppFailsBefore(m, |m.toolResponses|) ==>
      AppEmitted(m, sender, rc, leaf, index)
        == Flush(m, sender, rc, index) + AppBatchItems(m, sender, rc, leaf, index, |m.toolResponses|)
           + leaf(m, sender, index + |m.toolResponses|)
      && AppFails(m) == LeafFails(m)
  {
  }

  /** A "tool" message with tool responses, or one whose sub-messages raised,
      puts nothing for itself: only the flush and the sub-messages, and it
      raises exactly when a sub-message does. */
  lemma OwnSkipped(m: Message, sender: string, rc: Receiver, leaf: Renderer, index: nat)
    requires HasBatch(m)
    ensures IsToolRole(m) || AppFailsBefore(m, |m.toolResponses|) ==>
      AppEmitted(m, sender, rc, leaf, index)
        == Flush(m, sender, rc, index) + AppBatchItems(m, sender, rc, leaf, index, |m.toolResponses|)
      && AppFails(m) == AppFailsBefore(m, |m.toolResponses|)
  {
    var batch := Flush(m, sender, rc, index) + AppBatchItems(m, sender, rc, leaf, index, |m.toolResponses|);
    assert batch + [] == batch;
  }

  lemma FlatBatchAgrees(m: Message, sender: string, rc: Receiver, leaf: Renderer, index: nat)
    requires FlatOk(m)
    ensures !AppFailsBefore(m, |m.toolResponses|)
    ensures AppBatchItems(m, sender, rc, leaf, index, |m.toolResponses|) == BatchItems(m, sender, rc, leaf, index, |m.toolResponses|)
    ensures AppBatchCalls(m, |m.toolResponses|) == |m.toolResponses|
  {
    forall k | 0 <= k < |m.toolResponses|
      ensures OnlyToolBatches(m.toolResponses[k])
    {
    }
    BatchAgrees(m, sender, rc, leaf, index, |m.toolResponses|);
    FlatBatchCalls(m, |m.toolResponses|);
  }

  /** A message of another role with n plain tool responses completes n + 1
      hook calls, so the counter advances by n + 1. */
  lemma OtherBatchCalls(m: Message)
    requires HasBatch(m) && !IsToolRole(m) && FlatOk(m) && !LeafFails(m)
    ensures !AppFails(m) && AppHookCalls(m) == |m.toolResponses| + 1
  {
    var rc := Receiver("", false, (s, c, b) => s);
    FlatBatchAgrees(m, "", rc, Rendering(rc), 0);
  }

  /** A message of another role with plain tool responses puts what the src
      variant puts for it, followed by its own delta at index + n. */
  lemma OtherBatchExtendsSrc(m: Message, sender: string, rc: Receiver, leaf: Renderer, index: nat)
    requires HasBatch(m) && !IsToolRole(m) && FlatOk(m)
    ensures AppEmitted(m, sender, rc, leaf, index)
      == Emitted(m, sender, rc, leaf, index) + leaf(m, sender, index + |m.toolResponses|)
  {
    BatchEmitted(m, sender, rc, leaf, index);
    FlatBatchAgrees(m, sender, rc, leaf, index);
    OwnRendered(m, sender, rc, leaf, index);
  }

  /** So when its own rendering succeeds it puts the n sub-message deltas at
      index+1 .. index+n and then its own delta at index + n, the index of the
      last sub-message. */
  lemma OtherBatchRepeatsIndex(m: Message, sender: string, rc: Receiver, leaf: Renderer, index: nat)
    requires HasBatch(m) && !IsToolRole(m) && FlatOk(m) && !LeafFails(m) && RendersAs(leaf, rc)
    ensures var e := AppEmitted(m, sender, rc, leaf, index);
      var n := |m.toolResponses|;
      |e| == n + 1
      && (forall k :: 0 <= k < n ==> e[k] == ResponseDelta(m, sender, rc, index, k))
      && e[n] == Delta(index + n, LeafText(m, sender, rc), Stop)
      && e[n].index == e[n - 1].index
  {
    var n := |m.toolResponses|;
    OtherBatchExtendsSrc(m, sender, rc, leaf, index);
    OtherBatchEmission(m, sender, rc, leaf, index);
    LeafItemsOfText(m, sender, rc, index + n);
    assert leaf(m, sender, index + n) == LeafItems(m, sender, rc, index + n);
  }

  // ---------------------------------------------------------------------------
  // The app's stream.

  lemma {:induction false} AppEmittedShape(m: Message, sender: string, rc: Receiver, leaf: Renderer, index: nat)
    requires LeafShaped(leaf)
    ensures StopDeltasFrom(AppEmitted(m, sender, rc, leaf, index), index)
    decreases m, |m.toolResponses| + 1
  {
    if HasBatch(m) {
      AppBatchShape(m, sender, rc, leaf, index, |m.toolResponses|);
      assert LeafShape(leaf(m, sender, index + |m.toolResponses|), m, index + |m.toolResponses|);
    } else {
      assert LeafShape(leaf(m, sender, index), m, index);
    }
  }

  lemma {:induction false} AppBatchShape(m: Message, sender: string, rc: Receiver, leaf: Renderer, index: nat, j: nat)
    requires j <= |m.toolResponses| && LeafShaped(leaf)
    ensures StopDeltasFrom(AppBatchItems(m, sender, rc, leaf, index, j), index + 1)
    decreases m, j
  {
    if j > 0 {
      AppBatchShape(m, sender, rc, leaf, index, j - 1);
      if !AppFailsBefore(m, j - 1) {
        AppEmittedShape(m.toolResponses[j - 1], sender, rc, leaf, index + j);
      }
    }
  }

  lemma {:induction false} AppCallsAllStop(calls: seq<HookCall>, rc: Receiver, leaf: Renderer, j: nat)
    requires j <= |calls| && LeafShaped(leaf)
    ensures StopDeltasFrom(AppCallsItems(calls, rc, leaf, j), 0)
  {
    if j > 0 {
      AppCallsAllStop(calls, rc, leaf, j - 1);
      if !AppCallsFailBefore(calls, j - 1) {
        AppEmittedShape(calls[j - 1].message, calls[j - 1].sender, rc, leaf, AppCounterAfter(calls, j - 1));
      }
    }
  }

  /** The app puts "[DONE]" iff the chat returned, and then only as the last
      item; it never puts a delta with finish reason "error". */
  lemma DoneOnlyOnSuccess(conv: Conversation, rc: Receiver)
    ensures var s := AppStreamItems(conv, rc);
      (Done in s <==> AppStreamError(conv).None?)
      && (AppStreamError(conv).None? ==> s[|s| - 1] == Done)
      && (forall i :: 0 <= i < |s| && s[i] != Done ==> s[i].Delta? && s[i].finishReason == Stop)
      && (forall i :: 0 <= i < |s| - 1 ==> s[i] != Done)
  {
    RenderingShaped(rc);
    AppCallsAllStop(conv.calls, rc, Rendering(rc), |conv.calls|);
  }
}
