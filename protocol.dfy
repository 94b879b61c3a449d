/** The values that cross the hand-off between the conversation thread and
    the HTTP response: the records put on the queue, the queue itself, and
    the chat result that `run` returns. */
module Protocol {
  import opened Wrappers

  const Stop := "stop"
  const ErrorReason := "error"

  /** One `queue.put` argument: either a delta record
      `{"index": i, "delta": {"role": "assistant", "content": c}, "finish_reason": f}`
      (the role is always "assistant") or the sentinel string "[DONE]". */
  datatype Item = Delta(index: nat, content: string, finishReason: string) | Done

  /** The `queue.Queue` shared by producer and consumer, reduced to the
      sequence of everything put on it, oldest first. */
  class DeltaQueue {
    var items: seq<Item>

    constructor ()
      ensures items == []
    {
      items := [];
    }

    method Put(x: Item)
      modifies this
      ensures items == old(items) + [x]
    {
      items := items + [x];
    }
  }

  /** A usage or cost dictionary, flattened to counters. */
  datatype Usage = Usage(counts: map<string, int>)

  /** `{"error": "Workflow Error", "details": ..., "type": "system_error"}`. */
  datatype ErrorInfo = ErrorInfo(error: string, details: string, kind: string)

  /** One entry of a chat history. */
  datatype HistoryEntry = HistoryEntry(role: string, content: string, error: Option<ErrorInfo>)

  /** The library's ChatResult: fields left at their default are None. */
  datatype ChatResult = ChatResult(chatId: Option<string>, history: seq<HistoryEntry>, summary: string, cost: Option<Usage>)
}
