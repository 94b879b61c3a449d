/** The HTTP-facing shaping of src/fastapi_autogen_team/autogen_server.py:
    validating a response object, the non-streaming reply, and the
    server-sent-event stream drained from the queue. */
module Server {
  import opened Wrappers
  import opened Strings
  import opened Protocol

  /** `EMPTY_USAGE`. */
  const EmptyUsage: map<string, int> := map["prompt_tokens" := 0, "completion_tokens" := 0, "total_tokens" := 0]

  const CompletionObject := "chat.completion"
  const ChunkObject := "chat.completion.chunk"
  const Apology := "Sorry, I am unable to assist with that request at this time."
  const DoneEvent := "data: [DONE]\n\n"

  /** One entry of `choices`: a queue item as put by the workflow, or a full message. */
  datatype Choice =
    | ChunkChoice(item: Item)
    | MessageChoice(index: nat, role: string, content: string, finishReason: string, hasLogprobs: bool)

  /** `Output` (its dump has the same fields). */
  datatype Output = Output(id: string, objectKind: string, created: int, model: string, choices: seq<Choice>, usage: map<string, int>)

  /** An `HTTPException`; every one raised here has status 500. */
  datatype HttpError = HttpError(status: nat, detail: string)

  /** `str()` of an HTTPException. */
  function ErrorText(e: HttpError): string {
    (if e.status == 500 then "500" else "HTTP") + ": " + e.detail
  }

  /** What `handle_response` can be handed: a string, an object without
      `model_dump` (named by its type), or an Output whose dump may raise. */
  datatype Response = Text(s: string) | NoDump(typeName: string) | Model(output: Output, dumpError: Option<string>)

  /** `handle_response`: the dump of an Output, or a 500 naming what was wrong. */
  function HandleResponse(r: Response): (res: Result<Output, HttpError>)
    ensures res.Success? <==> r.Model? && r.dumpError.None?
    ensures res.Success? ==> res.value == r.output
    ensures res.Failure? ==> res.error.status == 500
    ensures r.Text? ==> IsPrefix("Unexpected string response: ", res.error.detail) && IsSuffix(r.s, res.error.detail)
    ensures r.NoDump? ==> IsPrefix("Response object missing 'model_dump' method: ", res.error.detail)
                          && IsSuffix(r.typeName, res.error.detail)
    ensures r.Model? && r.dumpError.Some? ==>
      IsPrefix("Serialization error: ", res.error.detail) && IsSuffix(r.dumpError.value, res.error.detail)
  {
    match r
    case Text(s) => Failure(HttpError(500, "Unexpected string response: " + s))
    case NoDump(t) => Failure(HttpError(500, "Response object missing 'model_dump' method: " + t))
    case Model(o, err) =>
      if err.Some? then Failure(HttpError(500, "Serialization error: " + err.value)) else Success(o)
  }

  /** `create_non_streaming_response`. `None` stands for a falsy result; an
      `Output` whose usage is not a dict fails validation with the given message. */
  function CreateNonStreamingResponse(results: Option<ChatResult>, model: string, created: int, validationError: string): (r: Result<Output, HttpError>)
  {
    match results
    case Some(cr) =>
      if cr.cost.None? then Failure(HttpError(500, "Response creation error: " + validationError))
      else
        var choices := [MessageChoice(0, "assistant", cr.summary, Stop, false)];
        var out := Output(IdText(cr.chatId), CompletionObject, created, model, choices, cr.cost.value.counts);
        HandleResponse(Model(out, None))
    case None =>
      var choices := [MessageChoice(0, "assistant", Apology, Stop, true)];
      HandleResponse(Model(Output("None", CompletionObject, created, model, choices, EmptyUsage), None))
  }

  /** `create_non_streaming_response` as evidently intended: a result without a
      cost is answered with `EMPTY_USAGE` instead of failing validation. */
  function CreateNonStreamingResponseCorrected(results: Option<ChatResult>, model: string, created: int): (r: Result<Output, HttpError>)
    ensures r.Success?
  {
    match results
    case Some(cr) =>
      var usage := if cr.cost.Some? then cr.cost.value.counts else EmptyUsage;
      var choices := [MessageChoice(0, "assistant", cr.summary, Stop, false)];
      HandleResponse(Model(Output(IdText(cr.chatId), CompletionObject, created, model, choices, usage), None))
    case None =>
      var choices := [MessageChoice(0, "assistant", Apology, Stop, true)];
      HandleResponse(Model(Output("None", CompletionObject, created, model, choices, EmptyUsage), None))
  }

  /** The corrected reply is the original one wherever that succeeds, and for a
      result without cost it carries the summary with all-zero usage. */
  lemma CorrectedAgrees(results: Option<ChatResult>, model: string, created: int, validationError: string)
    ensures var r := CreateNonStreamingResponse(results, model, created, validationError);
      r.Success? ==> CreateNonStreamingResponseCorrected(results, model, created) == r
    ensures results.Some? && results.value.cost.None? ==>
      var o := CreateNonStreamingResponseCorrected(results, model, created).value;
      o.usage == EmptyUsage && o.choices == [MessageChoice(0, "assistant", results.value.summary, Stop, false)]
      && o.id == IdText(results.value.chatId)
  {
  }

  /** `str(chat_id)`: the id, or "None" when unset. */
  function IdText(chatId: Option<string>): string {
    chatId.GetOr("None")
  }

  /** Every reply has exactly one choice, an assistant message at index 0 that
      finished with "stop"; a result carries its summary, id and cost, a missing
      result the apology with id "None" and all-zero usage. A result without cost
      is rejected with a 500. */
  lemma NonStreamingShape(results: Option<ChatResult>, model: string, created: int, validationError: string)
    ensures var r := CreateNonStreamingResponse(results, model, created, validationError);
      (r.Success? <==> results.None? || results.value.cost.Some?)
      && (r.Success? ==>
            |r.value.choices| == 1 && r.value.objectKind == CompletionObject && r.value.model == model
            && var c := r.value.choices[0];
               c.MessageChoice? && c.index == 0 && c.role == "assistant" && c.finishReason == Stop
               && (results.Some? ==> c.content == results.value.summary && !c.hasLogprobs
                                     && r.value.id == IdText(results.value.chatId)
                                     && r.value.usage == results.value.cost.value.counts)
               && (results.None? ==> c.content == Apology && c.hasLogprobs
                                     && r.value.id == "None" && r.value.usage == EmptyUsage))
      && (r.Failure? ==> r.error.status == 500 && IsPrefix("Response creation error: ", r.error.detail))
  {
  }

  /** `EMPTY_USAGE` has the three counters, all zero. */
  lemma EmptyUsageIsZero()
    ensures EmptyUsage.Keys == {"prompt_tokens", "completion_tokens", "total_tokens"}
    ensures forall k :: k in EmptyUsage ==> EmptyUsage[k] == 0
  {
  }

  // ---------------------------------------------------------------------------
  // The event stream.

  /** What the stream needs from outside: the requested model, the `created`
      default of `Output` (fixed when the module is loaded), the uuid drawn for
      the k-th chunk, whether dumping a chunk raises, and `json.dumps`. */
  datatype Env = Env(
    model: string,
    created: int,
    newId: nat -> string,
    dumpError: Output -> Option<string>,
    dumps: Output -> string)

  /** The k-th chunk, wrapping one queue item. */
  function Chunk(env: Env, item: Item, k: nat): (o: Output)
    ensures o.objectKind == ChunkObject && o.choices == [ChunkChoice(item)] && o.usage == EmptyUsage
    ensures o.model == env.model && o.id == env.newId(k)
  {
    Output(env.newId(k), ChunkObject, env.created, env.model, [ChunkChoice(item)], EmptyUsage)
  }

  function Event(json: string): string {
    "data: " + json + "\n\n"
  }

  /** How the generator ends: after "[DONE]", by raising, or still waiting on
      an empty queue (the real `get` blocks). */
  datatype StreamEnd = Finished | Failed(error: HttpError) | Waiting

  /** The item at k would make `handle_response` raise. */
  predicate DumpFails(items: seq<Item>, env: Env, k: nat)
    requires k < |items|
  {
    env.dumpError(Chunk(env, items[k], k)).Some?
  }

  /** What the generator yields from item k on, and how it ends. */
  function Drain(items: seq<Item>, env: Env, k: nat): (seq<string>, StreamEnd)
    requires k <= |items|
    decreases |items| - k
  {
    if k == |items| then ([], Waiting)
    else if items[k] == Done then ([DoneEvent], Finished)
    else
      var chunk := Chunk(env, items[k], k);
      match HandleResponse(Model(chunk, env.dumpError(chunk)))
      case Failure(e) => ([], Failed(HttpError(500, "Streaming error: " + ErrorText(e))))
      case Success(o) =>
        var rest := Drain(items, env, k + 1);
        ([Event(env.dumps(o))] + rest.0, rest.1)
  }

  /** `generate_streaming_response` over the items the queue hands out, in order. */
  method GenerateStreamingResponse(items: seq<Item>, env: Env) returns (events: seq<string>, end: StreamEnd)
    ensures events == Drain(items, env, 0).0 && end == Drain(items, env, 0).1
  {
    events := [];
    var k := 0;
    assert events + Drain(items, env, k).0 == Drain(items, env, k).0;
    while k < |items|
      invariant 0 <= k <= |items|
      invariant Drain(items, env, 0).0 == events + Drain(items, env, k).0
      invariant Drain(items, env, 0).1 == Drain(items, env, k).1
      decreases |items| - k
    {
      var message := items[k];
      if message == Done {
        assert Drain(items, env, k) == ([DoneEvent], Finished);
        events := events + [DoneEvent];
        end := Finished;
        return;
      }
      var chunk := Output(env.newId(k), ChunkObject, env.created, env.model, [ChunkChoice(message)], EmptyUsage);
      var r := HandleResponse(Model(chunk, env.dumpError(chunk)));
      if r.Failure? {
        end := Failed(HttpError(500, "Streaming error: " + ErrorText(r.error)));
        assert Drain(items, env, k) == ([], end);
        assert events + [] == events;
        return;
      }
      DrainStep(items, env, k);
      events := events + [Event(env.dumps(r.value))];
      k := k + 1;
    }
    end := Waiting;
  }

  lemma DrainStep(items: seq<Item>, env: Env, k: nat)
    requires k < |items| && items[k] != Done && !DumpFails(items, env, k)
    ensures Drain(items, env, k).0 == [Event(env.dumps(Chunk(env, items[k], k)))] + Drain(items, env, k + 1).0
    ensures Drain(items, env, k).1 == Drain(items, env, k + 1).1
  {
  }

  /** The first "[DONE]" is at d. */
  predicate FirstDoneAt(items: seq<Item>, d: nat) {
    d < |items| && items[d] == Done && forall k :: 0 <= k < d ==> items[k] != Done
  }

  /** When every item before the first "[DONE]" dumps, the stream is one event per
      item, in queue order, each the chunk of that item, then exactly the
      "[DONE]" event; nothing after the sentinel is read. */
  lemma {:induction false} StreamLayout(items: seq<Item>, env: Env, k: nat, d: nat)
    requires FirstDoneAt(items, d) && k <= d
    requires forall j :: k <= j < d ==> !DumpFails(items, env, j)
    ensures var r := Drain(items, env, k);
      r.1 == Finished && |r.0| == d - k + 1 && r.0[d - k] == DoneEvent
      && forall j :: k <= j < d ==> r.0[j - k] == Event(env.dumps(Chunk(env, items[j], j)))
    decreases d - k
  {
    if k < d {
      StreamLayout(items, env, k + 1, d);
      DrainStep(items, env, k);
    }
  }

  /** Nothing after the first "[DONE]" changes the stream. */
  lemma {:induction false} StopsAtDone(items: seq<Item>, tail: seq<Item>, env: Env, k: nat, d: nat)
    requires FirstDoneAt(items, d) && k <= d
    ensures Drain(items[..d + 1] + tail, env, k) == Drain(items, env, k)
    decreases d - k
  {
    var cut := items[..d + 1] + tail;
    assert cut[k] == items[k];
    if k < d {
      StopsAtDone(items, tail, env, k + 1, d);
    }
  }

  /** The first item whose chunk cannot be dumped ends the stream with a 500
      "Streaming error" instead of an event; the events before it are kept. */
  lemma {:induction false} StreamFailure(items: seq<Item>, env: Env, k: nat, f: nat)
    requires k <= f < |items| && items[f] != Done && DumpFails(items, env, f)
    requires forall j :: k <= j < f ==> items[j] != Done && !DumpFails(items, env, j)
    ensures var r := Drain(items, env, k);
      |r.0| == f - k
      && r.1 == Failed(HttpError(500, "Streaming error: " + "500: " + "Serialization error: "
                                       + env.dumpError(Chunk(env, items[f], f)).value))
    decreases f - k
  {
    if k < f {
      StreamFailure(items, env, k + 1, f);
      DrainStep(items, env, k);
    }
  }

  /** A queue that never hands out "[DONE]" and whose items all dump: one event
      per item, and then the generator waits for ever. */
  lemma {:induction false} DrainWithoutDone(items: seq<Item>, env: Env, k: nat)
    requires k <= |items|
    requires forall j :: k <= j < |items| ==> items[j] != Done && !DumpFails(items, env, j)
    ensures Drain(items, env, k).1 == Waiting && |Drain(items, env, k).0| == |items| - k
    decreases |items| - k
  {
    if k < |items| {
      DrainWithoutDone(items, env, k + 1);
      DrainStep(items, env, k);
    }
  }
}
