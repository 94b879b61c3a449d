/** How the pieces meet: the queue that `AutogenWorkflow.run` fills is the
    queue `generate_streaming_response` drains, and the `ChatResult` that
    `run` returns without streaming is what `create_non_streaming_response`
    answers with (src/fastapi_autogen_team/autogen_server.py, `serve_autogen`). */
module Bridge {
  import opened Wrappers
  import opened Render
  import opened Protocol
  import opened Workflow
  import opened AppWorkflow
  import opened Server

  /** The chunk of every delta on the queue dumps without error. */
  predicate ChunksDump(items: seq<Item>, env: Env) {
    forall k :: 0 <= k < |items| && items[k] != Done ==> !DumpFails(items, env, k)
  }

  /** A streaming request served from the src workflow: one event per queued
      delta, in queue order, then "data: [DONE]" and the generator finishes,
      whether the chat returned or raised. */
  lemma StreamFinishes(conv: Conversation, rc: Receiver, env: Env)
    requires ChunksDump(StreamItems(conv, rc), env)
    ensures var s := StreamItems(conv, rc);
      var r := Drain(s, env, 0);
      r.1 == Finished && |r.0| == |s| && r.0[|s| - 1] == DoneEvent
      && forall j :: 0 <= j < |s| - 1 ==> r.0[j] == Event(env.dumps(Chunk(env, s[j], j)))
  {
    var s := StreamItems(conv, rc);
    DoneOnceAndLast(conv, rc);
    StreamLayout(s, env, 0, |s| - 1);
  }

  /** Drained the same way, the app workflow's queue ends the stream only when
      the chat returned; after an exception the generator is left waiting. */
  lemma AppStreamWaitsAfterFailure(conv: Conversation, rc: Receiver, env: Env)
    requires ChunksDump(AppStreamItems(conv, rc), env)
    ensures var s := AppStreamItems(conv, rc);
      var r := Drain(s, env, 0);
      (r.1 == Finished <==> AppStreamError(conv).None?)
      && (AppStreamError(conv).Some? ==> r.1 == Waiting && |r.0| == |s|)
  {
    var s := AppStreamItems(conv, rc);
    DoneOnlyOnSuccess(conv, rc);
    if AppStreamError(conv).Some? {
      DrainWithoutDone(s, env, 0);
    } else {
      StreamLayout(s, env, 0, |s| - 1);
    }
  }

  // ---------------------------------------------------------------------------
  // Without streaming.

  /** The outer handler of `serve_autogen`: an exception raised while the reply
      is built, an HTTPException included, is re-raised as a 500 whose detail
      is "Autogen processing error: " and the `str()` of the exception. */
  function Served(r: Result<Output, HttpError>): Result<Output, HttpError> {
    match r
    case Success(o) => Success(o)
    case Failure(e) => Failure(HttpError(500, "Autogen processing error: " + ErrorText(e)))
  }

  /** `serve_autogen` without streaming: the result of `run(stream=False)`
      handed to `create_non_streaming_response`, under the outer handler. */
  function NonStreamingReply(conv: Conversation, model: string, created: int, validationError: string): Result<Output, HttpError> {
    Served(CreateNonStreamingResponse(Some(RunResult(conv, false, false)), model, created, validationError))
  }

  /** As written, a chat that raised is never reported: the error result that
      `run` builds has no cost, so the reply fails validation with a 500
      "Response creation error", which the outer handler wraps once more. The
      client sees that detail instead of the error summary. */
  lemma FailedChatRejected(conv: Conversation, model: string, created: int, validationError: string)
    requires conv.outcome.Raised?
    ensures NonStreamingReply(conv, model, created, validationError)
            == Failure(HttpError(500, "Autogen processing error: " + "500: " + "Response creation error: " + validationError))
  {
    var inner := HttpError(500, "Response creation error: " + validationError);
    assert CreateNonStreamingResponse(Some(RunResult(conv, false, false)), model, created, validationError) == Failure(inner);
    var head, code, why := "Autogen processing error: ", "500: ", "Response creation error: ";
    assert ErrorText(inner) == code + (why + validationError);
    assert head + (code + (why + validationError)) == head + code + why + validationError;
  }

  /** The same request answered by the corrected response builder. */
  function CorrectedReply(conv: Conversation, model: string, created: int): Result<Output, HttpError> {
    Served(CreateNonStreamingResponseCorrected(Some(RunResult(conv, false, false)), model, created))
  }

  /** With the correction a chat that raised is answered with the error summary,
      id "None" and all-zero usage, and a chat that returned is answered as before. */
  lemma FailedChatReported(conv: Conversation, model: string, created: int, validationError: string)
    ensures var r := CorrectedReply(conv, model, created);
      r.Success? && |r.value.choices| == 1
      && (conv.outcome.Raised? ==>
            r.value.choices[0].content == ErrorSummary && r.value.usage == EmptyUsage && r.value.id == "None")
      && (NonStreamingReply(conv, model, created, validationError).Success? ==>
            r == NonStreamingReply(conv, model, created, validationError))
  {
    CorrectedAgrees(Some(RunResult(conv, false, false)), model, created, validationError);
  }
}
