/** What one call of `streamed_print_received_message`
    (src/fastapi_autogen_team/autogen_workflow_team.py) puts on the queue,
    stated as functions of the message, and the properties of those puts. */
module Emission {
  import opened Wrappers
  import opened Render
  import opened Protocol

  predicate HasBatch(m: Message) {
    m.toolResponses != []
  }

  predicate IsToolRole(m: Message) {
    m.role == Some("tool")
  }

  /** Rendering a message without tool responses raises (KeyError on `content`). */
  predicate LeafFails(m: Message) {
    IsFunctionOrTool(m.role) && m.content == NoContent
  }

  /** The flush that handle_tool_responses puts for a "tool" message: the header alone. */
  function Flush(m: Message, sender: string, rc: Receiver, index: nat): seq<Item> {
    if IsToolRole(m) then [Delta(index, Header(sender, rc.name), Stop)] else []
  }

  /** The single delta of a message without tool responses, if it renders. */
  function LeafItems(m: Message, sender: string, rc: Receiver, index: nat): seq<Item> {
    match RenderLeaf(m, sender, rc)
    case Success(s) => [Delta(index, s, Stop)]
    case Failure(_) => []
  }

  /** What the call for a message without tool responses puts, by message,
      sender and index. The control-flow functions below take it as a
      parameter, so that their proofs never unfold the text rendering; the
      hook's is `Rendering` of the manager. */
  type Renderer = (Message, string, nat) -> seq<Item>

  function Rendering(rc: Receiver): Renderer {
    (m: Message, sender: string, index: nat) => LeafItems(m, sender, rc, index)
  }

  /** `leaf` puts for every message what the hook of rc puts for a message
      without tool responses. Its trigger keeps the text rendering out of a
      proof until the proof names LeafItems itself. */
  ghost predicate RendersAs(leaf: Renderer, rc: Receiver) {
    forall m: Message, sender: string, index: nat {:trigger LeafItems(m, sender, rc, index)} ::
      leaf(m, sender, index) == LeafItems(m, sender, rc, index)
  }

  lemma RenderingRendersAs(rc: Receiver)
    ensures RendersAs(Rendering(rc), rc)
  {
  }

  /** Nothing when the rendering of m raises, else a single "stop" delta at index. */
  predicate LeafShape(items: seq<Item>, m: Message, index: nat) {
    if LeafFails(m) then items == []
    else |items| == 1 && items[0].Delta? && items[0].index == index && items[0].finishReason == Stop
  }

  /** Every output of leaf has that shape. */
  ghost predicate LeafShaped(leaf: Renderer) {
    forall m: Message, sender: string, index: nat {:trigger leaf(m, sender, index)} ::
      LeafShape(leaf(m, sender, index), m, index)
  }

  /** A renderer that renders as a hook does has the leaf shape. */
  lemma RendersAsShaped(leaf: Renderer, rc: Receiver)
    requires RendersAs(leaf, rc)
    ensures LeafShaped(leaf)
  {
    forall m: Message, sender: string, index: nat
      ensures LeafShape(leaf(m, sender, index), m, index)
    {
      assert leaf(m, sender, index) == LeafItems(m, sender, rc, index);
    }
  }

  lemma RenderingShaped(rc: Receiver)
    ensures LeafShaped(Rendering(rc))
  {
    RenderingRendersAs(rc);
    RendersAsShaped(Rendering(rc), rc);
  }

  /** The call for m raises. */
  predicate Fails(m: Message)
    decreases m, |m.toolResponses| + 1
  {
    if HasBatch(m) then FailsBefore(m, |m.toolResponses|) else LeafFails(m)
  }

  /** One of the first j sub-messages of m raises (which ends the loop over them). */
  predicate FailsBefore(m: Message, j: nat)
    requires j <= |m.toolResponses|
    decreases m, j
  {
    j > 0 && (FailsBefore(m, j - 1) || Fails(m.toolResponses[j - 1]))
  }

  /** Everything the call for m at `index` puts, in order. */
  function Emitted(m: Message, sender: string, rc: Receiver, leaf: Renderer, index: nat): seq<Item>
    decreases m, |m.toolResponses| + 1
  {
    if HasBatch(m) then Flush(m, sender, rc, index) + BatchItems(m, sender, rc, leaf, index, |m.toolResponses|)
    else leaf(m, sender, index)
  }

  /** What the first j sub-messages put; sub-message k is rendered at index + k + 1. */
  function BatchItems(m: Message, sender: string, rc: Receiver, leaf: Renderer, index: nat, j: nat): seq<Item>
    requires j <= |m.toolResponses|
    decreases m, j
  {
    if j == 0 then []
    else if FailsBefore(m, j - 1) then BatchItems(m, sender, rc, leaf, index, j - 1)
    else BatchItems(m, sender, rc, leaf, index, j - 1) + Emitted(m.toolResponses[j - 1], sender, rc, leaf, index + j)
  }

  /** How many invocations of the rebound hook complete while m is emitted through
      it (each completed invocation increments the request's index counter once). */
  function HookCalls(m: Message): nat
    decreases m, |m.toolResponses| + 1
  {
    (if Fails(m) then 0 else 1) + (if HasBatch(m) then BatchCalls(m, |m.toolResponses|) else 0)
  }

  function BatchCalls(m: Message, j: nat): nat
    requires j <= |m.toolResponses|
    decreases m, j
  {
    if j == 0 then 0
    else if FailsBefore(m, j - 1) then BatchCalls(m, j - 1)
    else BatchCalls(m, j - 1) + HookCalls(m.toolResponses[j - 1])
  }

  /** Once a sub-message has raised, later ones are neither rendered nor counted. */
  lemma {:induction false} StableAfterFailure(m: Message, sender: string, rc: Receiver, leaf: Renderer, index: nat, j: nat, k: nat)
    requires j <= k <= |m.toolResponses|
    requires FailsBefore(m, j)
    ensures FailsBefore(m, k)
    ensures BatchItems(m, sender, rc, leaf, index, k) == BatchItems(m, sender, rc, leaf, index, j)
    ensures BatchCalls(m, k) == BatchCalls(m, j)
    decreases k
  {
    if k > j {
      StableAfterFailure(m, sender, rc, leaf, index, j, k - 1);
    }
  }

  /** One more sub-message, while none has raised: it raises or not, and its
      items and hook calls follow the earlier ones'. */
  lemma BatchStep(m: Message, sender: string, rc: Receiver, leaf: Renderer, index: nat, j: nat)
    requires j < |m.toolResponses| && !FailsBefore(m, j)
    ensures FailsBefore(m, j + 1) == Fails(m.toolResponses[j])
    ensures BatchItems(m, sender, rc, leaf, index, j + 1)
      == BatchItems(m, sender, rc, leaf, index, j) + Emitted(m.toolResponses[j], sender, rc, leaf, index + j + 1)
    ensures BatchCalls(m, j + 1) == BatchCalls(m, j) + HookCalls(m.toolResponses[j])
  {
  }

  lemma AppendAssoc(a: seq<Item>, b: seq<Item>, c: seq<Item>)
    ensures (a + b) + c == a + (b + c)
  {
  }

  /** A message without tool responses puts what the leaf renderer puts for it,
      and raises exactly when its rendering does. */
  lemma LeafOnly(m: Message, sender: string, rc: Receiver, leaf: Renderer, index: nat)
    requires !HasBatch(m)
    ensures Emitted(m, sender, rc, leaf, index) == leaf(m, sender, index)
    ensures Fails(m) == LeafFails(m)
  {
  }

  /** A message with tool responses puts its flush and then its sub-messages' items. */
  lemma BatchEmitted(m: Message, sender: string, rc: Receiver, leaf: Renderer, index: nat)
    requires HasBatch(m)
    ensures Emitted(m, sender, rc, leaf, index) == Flush(m, sender, rc, index) + BatchItems(m, sender, rc, leaf, index, |m.toolResponses|)
  {
  }

  // ---------------------------------------------------------------------------
  // A message without tool responses: exactly one delta.

  lemma LeafEmission(m: Message, sender: string, rc: Receiver, leaf: Renderer, index: nat)
    requires !HasBatch(m) && !LeafFails(m) && RendersAs(leaf, rc)
    ensures |Emitted(m, sender, rc, leaf, index)| == 1
    ensures var d := Emitted(m, sender, rc, leaf, index)[0];
      d.Delta? && d.index == index && d.finishReason == Stop
      && Strings.IsPrefix(Header(sender, rc.name), d.content) && Strings.IsSuffix(Separator, d.content)
    ensures HookCalls(m) == 1
  {
    RenderLeafFraming(m, sender, rc);
    assert leaf(m, sender, index) == LeafItems(m, sender, rc, index);
  }

  // ---------------------------------------------------------------------------
  // A batch of plain tool responses.

  /** Every sub-message of m is a message without tool responses that renders. */
  predicate FlatOk(m: Message) {
    forall k :: 0 <= k < |m.toolResponses| ==> !HasBatch(m.toolResponses[k]) && !LeafFails(m.toolResponses[k])
  }

  function LeafText(m: Message, sender: string, rc: Receiver): string
    requires !LeafFails(m)
  {
    RenderLeaf(m, sender, rc).value
  }

  lemma LeafEmitted(m: Message, sender: string, rc: Receiver, leaf: Renderer, index: nat)
    requires !HasBatch(m) && !LeafFails(m) && RendersAs(leaf, rc)
    ensures !Fails(m) && HookCalls(m) == 1
    ensures Emitted(m, sender, rc, leaf, index) == [Delta(index, LeafText(m, sender, rc), Stop)]
  {
    assert leaf(m, sender, index) == LeafItems(m, sender, rc, index);
  }

  /** The delta of plain sub-message k of a batch rendered at index. */
  function ResponseDelta(m: Message, sender: string, rc: Receiver, index: nat, k: nat): Item
    requires k < |m.toolResponses| && !LeafFails(m.toolResponses[k])
  {
    Delta(index + k + 1, LeafText(m.toolResponses[k], sender, rc), Stop)
  }

  /** Each plain sub-message, rendered at its index, is that delta alone. */
  lemma FlatResponses(m: Message, sender: string, rc: Receiver, leaf: Renderer, index: nat)
    requires FlatOk(m) && RendersAs(leaf, rc)
    ensures forall k :: 0 <= k < |m.toolResponses| ==>
      leaf(m.toolResponses[k], sender, index + k + 1) == [ResponseDelta(m, sender, rc, index, k)]
  {
    forall k | 0 <= k < |m.toolResponses|
      ensures leaf(m.toolResponses[k], sender, index + k + 1) == [ResponseDelta(m, sender, rc, index, k)]
    {
      assert leaf(m.toolResponses[k], sender, index + k + 1) == LeafItems(m.toolResponses[k], sender, rc, index + k + 1);
    }
  }

  lemma {:induction false} FlatBatchCalls(m: Message, j: nat)
    requires FlatOk(m) && j <= |m.toolResponses|
    ensures !FailsBefore(m, j)
    ensures BatchCalls(m, j) == j
    decreases j
  {
    if j > 0 {
      FlatBatchCalls(m, j - 1);
      var child := m.toolResponses[j - 1];
      assert !HasBatch(child) && !LeafFails(child);
    }
  }

  /** The first j plain sub-messages put one delta each, in list order: the one
      sub-message k renders to at index + k + 1. */
  lemma {:induction false} FlatBatchItems(m: Message, sender: string, rc: Receiver, leaf: Renderer, index: nat, j: nat)
    requires FlatOk(m) && LeafShaped(leaf) && j <= |m.toolResponses|
    ensures |BatchItems(m, sender, rc, leaf, index, j)| == j
    ensures forall k :: 0 <= k < j ==>
      BatchItems(m, sender, rc, leaf, index, j)[k] == leaf(m.toolResponses[k], sender, index + k + 1)[0]
    decreases j
  {
    if j > 0 {
      FlatBatchItems(m, sender, rc, leaf, index, j - 1);
      FlatBatchCalls(m, j - 1);
      var child := m.toolResponses[j - 1];
      BatchStep(m, sender, rc, leaf, index, j - 1);
      LeafOnly(child, sender, rc, leaf, index + j);
      var d := leaf(child, sender, index + j);
      assert LeafShape(d, child, index + j);
      assert d == [d[0]];
      var prev := BatchItems(m, sender, rc, leaf, index, j - 1);
      var cur := BatchItems(m, sender, rc, leaf, index, j);
      assert cur == prev + [d[0]];
      forall k | 0 <= k < j
        ensures cur[k] == leaf(m.toolResponses[k], sender, index + k + 1)[0]
      {
        if k < j - 1 {
          assert cur[k] == prev[k];
        }
      }
    }
  }

  /** A "tool" message with n plain tool responses: the header-only flush at
      index, then one "stop" delta per sub-message at index+1 .. index+n in list
      order; the counter advances by n + 1. */
  lemma ToolBatchItems(m: Message, sender: string, rc: Receiver, leaf: Renderer, index: nat)
    requires HasBatch(m) && IsToolRole(m) && FlatOk(m) && LeafShaped(leaf)
    ensures !Fails(m)
    ensures HookCalls(m) == |m.toolResponses| + 1
    ensures |Emitted(m, sender, rc, leaf, index)| == |m.toolResponses| + 1
    ensures Emitted(m, sender, rc, leaf, index)[0] == Delta(index, Header(sender, rc.name), Stop)
    ensures forall k :: 0 <= k < |m.toolResponses| ==>
      var d := Emitted(m, sender, rc, leaf, index)[k + 1];
      d == leaf(m.toolResponses[k], sender, index + k + 1)[0]
      && d.Delta? && d.index == index + k + 1 && d.finishReason == Stop
  {
    FlatBatchCalls(m, |m.toolResponses|);
    FlatBatchItems(m, sender, rc, leaf, index, |m.toolResponses|);
    var e := Emitted(m, sender, rc, leaf, index);
    forall k | 0 <= k < |m.toolResponses|
      ensures e[k + 1] == leaf(m.toolResponses[k], sender, index + k + 1)[0]
        && e[k + 1].Delta? && e[k + 1].index == index + k + 1 && e[k + 1].finishReason == Stop
    {
      assert LeafShape(leaf(m.toolResponses[k], sender, index + k + 1), m.toolResponses[k], index + k + 1);
    }
  }

  /** With the hook's rendering, those deltas carry the sub-messages' texts. */
  lemma ToolBatchEmission(m: Message, sender: string, rc: Receiver, leaf: Renderer, index: nat)
    requires HasBatch(m) && IsToolRole(m) && FlatOk(m) && RendersAs(leaf, rc)
    ensures |Emitted(m, sender, rc, leaf, index)| == |m.toolResponses| + 1
    ensures Emitted(m, sender, rc, leaf, index)[0] == Delta(index, Header(sender, rc.name), Stop)
    ensures forall k :: 0 <= k < |m.toolResponses| ==>
      Emitted(m, sender, rc, leaf, index)[k + 1] == ResponseDelta(m, sender, rc, index, k)
  {
    RendersAsShaped(leaf, rc);
    FlatBatchCalls(m, |m.toolResponses|);
    FlatBatchItems(m, sender, rc, leaf, index, |m.toolResponses|);
    FlatResponses(m, sender, rc, leaf, index);
  }

  /** A message of any other role with n plain tool responses: only the n
      sub-messages, at index+1 .. index+n; nothing is put at index. */
  lemma OtherBatchEmission(m: Message, sender: string, rc: Receiver, leaf: Renderer, index: nat)
    requires HasBatch(m) && !IsToolRole(m) && FlatOk(m) && RendersAs(leaf, rc)
    ensures !Fails(m)
    ensures HookCalls(m) == |m.toolResponses| + 1
    ensures |Emitted(m, sender, rc, leaf, index)| == |m.toolResponses|
    ensures forall k :: 0 <= k < |m.toolResponses| ==>
      Emitted(m, sender, rc, leaf, index)[k] == ResponseDelta(m, sender, rc, index, k)
  {
    RendersAsShaped(leaf, rc);
    FlatBatchCalls(m, |m.toolResponses|);
    FlatBatchItems(m, sender, rc, leaf, index, |m.toolResponses|);
    FlatResponses(m, sender, rc, leaf, index);
  }

  // ---------------------------------------------------------------------------
  // A message with tool responses never renders its own content.

  lemma {:induction false} BatchItemsDependOnResponses(m: Message, m': Message, sender: string, rc: Receiver, leaf: Renderer, index: nat, j: nat)
    requires m'.toolResponses == m.toolResponses && j <= |m.toolResponses|
    ensures FailsBefore(m', j) == FailsBefore(m, j)
    ensures BatchItems(m', sender, rc, leaf, index, j) == BatchItems(m, sender, rc, leaf, index, j)
    ensures BatchCalls(m', j) == BatchCalls(m, j)
    decreases j
  {
    if j > 0 {
      BatchItemsDependOnResponses(m, m', sender, rc, leaf, index, j - 1);
    }
  }

  /** Two messages with the same tool responses and the same role put the same items
      and count the same: content, name, ids, context, function call and tool calls
      of a message with tool responses are never rendered. */
  lemma BatchIgnoresOwnContent(m: Message, m': Message, sender: string, rc: Receiver, leaf: Renderer, index: nat)
    requires HasBatch(m) && m'.toolResponses == m.toolResponses && m'.role == m.role
    ensures Emitted(m', sender, rc, leaf, index) == Emitted(m, sender, rc, leaf, index)
    ensures HookCalls(m') == HookCalls(m)
  {
    BatchItemsDependOnResponses(m, m', sender, rc, leaf, index, |m.toolResponses|);
  }

  // ---------------------------------------------------------------------------
  // Every item is a "stop" delta at or after the call's index.

  predicate StopDeltasFrom(items: seq<Item>, low: nat) {
    forall i :: 0 <= i < |items| ==> items[i].Delta? && items[i].finishReason == Stop && items[i].index >= low
  }

  lemma {:induction false} EmittedShape(m: Message, sender: string, rc: Receiver, leaf: Renderer, index: nat)
    requires LeafShaped(leaf)
    ensures StopDeltasFrom(Emitted(m, sender, rc, leaf, index), index)
    ensures HasBatch(m) && !IsToolRole(m) ==> StopDeltasFrom(Emitted(m, sender, rc, leaf, index), index + 1)
    decreases m, |m.toolResponses| + 1
  {
    if HasBatch(m) {
      BatchShape(m, sender, rc, leaf, index, |m.toolResponses|);
    } else {
      assert LeafShape(leaf(m, sender, index), m, index);
    }
  }

  lemma {:induction false} BatchShape(m: Message, sender: string, rc: Receiver, leaf: Renderer, index: nat, j: nat)
    requires j <= |m.toolResponses| && LeafShaped(leaf)
    ensures StopDeltasFrom(BatchItems(m, sender, rc, leaf, index, j), index + 1)
    decreases m, j
  {
    if j > 0 {
      BatchShape(m, sender, rc, leaf, index, j - 1);
      if !FailsBefore(m, j - 1) {
        EmittedShape(m.toolResponses[j - 1], sender, rc, leaf, index + j);
      }
    }
  }

  // ---------------------------------------------------------------------------
  // The counter counts every invocation, nested ones included.

  /** The number of messages in the tree of m (m and all nested tool responses). */
  function Size(m: Message): nat
    decreases m, |m.toolResponses| + 1
  {
    1 + SizeBefore(m, |m.toolResponses|)
  }

  function SizeBefore(m: Message, j: nat): nat
    requires j <= |m.toolResponses|
    decreases m, j
  {
    if j == 0 then 0 else SizeBefore(m, j - 1) + Size(m.toolResponses[j - 1])
  }

  /** When nothing raises, the counter advances by one per message in the tree. */
  lemma {:induction false} HookCallsCountTree(m: Message)
    requires !Fails(m)
    ensures HookCalls(m) == Size(m)
    decreases m, |m.toolResponses| + 1
  {
    if HasBatch(m) {
      BatchCallsCountTree(m, |m.toolResponses|);
    }
  }

  lemma {:induction false} BatchCallsCountTree(m: Message, j: nat)
    requires j <= |m.toolResponses| && !FailsBefore(m, j)
    ensures BatchCalls(m, j) == SizeBefore(m, j)
    decreases m, j
  {
    if j > 0 {
      BatchCallsCountTree(m, j - 1);
      HookCallsCountTree(m.toolResponses[j - 1]);
    }
  }

  // ---------------------------------------------------------------------------
  // Sub-message indices count sub-messages, not hook calls.

  /** The items of the first j sub-messages open the items of the first k. */
  lemma {:induction false} BatchItemsPrefix(m: Message, sender: string, rc: Receiver, leaf: Renderer, index: nat, j: nat, k: nat)
    requires j <= k <= |m.toolResponses|
    ensures BatchItems(m, sender, rc, leaf, index, j) <= BatchItems(m, sender, rc, leaf, index, k)
    decreases k
  {
    if j < k {
      BatchItemsPrefix(m, sender, rc, leaf, index, j, k - 1);
    }
  }

  /** A first sub-message that carries plain "tool" responses of its own puts
      its first response at index + 2, and the second sub-message is rendered
      at index + 2 as well: the loop's own index does not count the nested
      calls, so two deltas of one emission share an index. */
  lemma NestedBatchRepeatsIndex(m: Message, sender: string, rc: Receiver, leaf: Renderer, index: nat)
    requires |m.toolResponses| >= 2
    requires HasBatch(m.toolResponses[0]) && IsToolRole(m.toolResponses[0]) && FlatOk(m.toolResponses[0])
    requires !HasBatch(m.toolResponses[1]) && !LeafFails(m.toolResponses[1])
    requires LeafShaped(leaf)
    ensures var e := Emitted(m, sender, rc, leaf, index);
      var p := |Flush(m, sender, rc, index)| + 1;
      var q := p + |m.toolResponses[0].toolResponses|;
      p < q < |e|
      && e[p] == leaf(m.toolResponses[0].toolResponses[0], sender, index + 2)[0]
      && e[q] == leaf(m.toolResponses[1], sender, index + 2)[0]
      && e[p].Delta? && e[q].Delta? && e[p].index == e[q].index == index + 2
  {
    var c0, c1 := m.toolResponses[0], m.toolResponses[1];
    var fl := Flush(m, sender, rc, index);
    BatchEmitted(m, sender, rc, leaf, index);
    ToolBatchItems(c0, sender, rc, leaf, index + 1);
    LeafOnly(c1, sender, rc, leaf, index + 2);
    assert LeafShape(leaf(c1, sender, index + 2), c1, index + 2);
    BatchStep(m, sender, rc, leaf, index, 0);
    BatchStep(m, sender, rc, leaf, index, 1);
    var e0 := Emitted(c0, sender, rc, leaf, index + 1);
    var e1 := Emitted(c1, sender, rc, leaf, index + 2);
    assert BatchItems(m, sender, rc, leaf, index, 2) == e0 + e1;
    BatchItemsPrefix(m, sender, rc, leaf, index, 2, |m.toolResponses|);
    var e := Emitted(m, sender, rc, leaf, index);
    var n0 := |c0.toolResponses|;
    assert e[|fl| + 1] == e0[1];
    assert e[|fl| + 1 + n0] == e1[0];
  }
}
