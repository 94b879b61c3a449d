/** The transcript renderer of src/fastapi_autogen_team/autogen_workflow_team.py:
    the pure `handle_*` helpers that append one message's text to the
    running `streaming_message`, and the whole fragment one message renders to. */
module Render {
  import opened Wrappers
  import opened Strings

  /** The `context` dict of a message, as its key/value pairs in order; only the
      template instantiation reads it. */
  datatype Context = Context(entries: seq<(string, string)>)

  /** The `content` key of a message dict: missing, present with None, or a string
      (for structured content, the string `content_str` makes of it). */
  datatype Content = NoContent | NullContent | TextContent(text: string)

  /** A `function_call` dict, or the `function` dict of a tool call: each key may be missing. */
  datatype FunctionCall = FunctionCall(name: Option<string>, arguments: Option<string>)

  /** One entry of `tool_calls`; a missing `function` key reads as an empty dict. */
  datatype ToolCall = ToolCall(id: Option<string>, call: FunctionCall)

  /** A message dict. `functionCall` is None when the key is missing or falsy;
      `toolCalls` and `toolResponses` are empty when the key is missing or falsy. */
  datatype Message = Message(
    role: Option<string>,
    content: Content,
    name: Option<string>,
    toolCallId: Option<string>,
    context: Option<Context>,
    functionCall: Option<FunctionCall>,
    toolCalls: seq<ToolCall>,
    toolResponses: seq<Message>)

  /** The receiving manager: its name, the `allow_format_str_template` flag of its
      llm_config, and the library's template instantiation `OpenAIWrapper.instantiate`. */
  datatype Receiver = Receiver(name: string, allowTemplate: bool, instantiate: (string, Context, bool) -> string)

  const Rule: string := Repeat('-', 80)
  const Separator: string := "\n" + Rule + "\n"
  const NoId := "No id found"
  const NoToolCallId := "No tool call id found"
  const NoFunctionName := "(No function name found)"
  const NoArguments := "(No arguments found)"
  /** `str(KeyError('content'))`, raised by `message['content']` on a message without content. */
  const MissingContent := "'content'"

  /** `f"{sender.name} (to {self.name}):\n"`. */
  function Header(sender: string, receiver: string): string {
    sender + " (to " + receiver + "):\n"
  }

  lemma StarsHaveNoNewline(n: nat)
    ensures NoNewline(Repeat('*', n))
  {
    var s := Repeat('*', n);
    forall i | 0 <= i < |s| ensures s[i] != '\n' {
    }
  }

  /** A bannered block: the title line, the body, and a closing row of asterisks
      exactly as long as the title. */
  function Banner(title: string, body: string): string {
    title + "\n" + body + "\n" + Repeat('*', |title|) + "\n"
  }

  /** The framing contract of every banner: it opens with the title line and its
      last line is a row of asterisks exactly as long as its first line. */
  lemma BannerFraming(title: string, body: string)
    requires NoNewline(title)
    ensures FirstLine(Banner(title, body)) == title
    ensures LastLine(Banner(title, body)) == Repeat('*', |FirstLine(Banner(title, body))|)
  {
    var b := Banner(title, body);
    var stars := Repeat('*', |title|);
    assert b == title + "\n" + (body + "\n" + stars + "\n");
    FirstLineOf(title, body + "\n" + stars + "\n");
    StarsHaveNoNewline(|title|);
    assert b == (title + "\n" + body) + "\n" + stars + "\n";
    LastLineOf(title + "\n" + body, stars);
  }

  predicate IsFunctionOrTool(role: Option<string>) {
    role == Some("function") || role == Some("tool")
  }

  /** The id shown for a function or tool result. */
  function ResponseId(m: Message): (id: string)
    requires IsFunctionOrTool(m.role)
    ensures m.role == Some("function") ==> id == (if m.name.Some? then m.name.value else NoId)
    ensures m.role == Some("tool") ==> id == (if m.toolCallId.Some? then m.toolCallId.value else NoId)
  {
    if m.role == Some("function") then m.name.GetOr(NoId) else m.toolCallId.GetOr(NoId)
  }

  function ResponseTitle(m: Message): string
    requires IsFunctionOrTool(m.role)
  {
    "***** Response from calling " + m.role.value + " (" + ResponseId(m) + ") *****"
  }

  /** `f"{message['content']}"` for a content key that is present. */
  function ContentRepr(c: Content): string
    requires c != NoContent
  {
    match c
    case NullContent => "None"
    case TextContent(s) => s
  }

  /** handle_function_tool_message: appends the bannered result of a function or tool
      call; raises KeyError('content') when the message has no content key. */
  function HandleFunctionToolMessage(m: Message, acc: string): (r: Result<string, string>)
    requires IsFunctionOrTool(m.role)
    ensures r.Failure? <==> m.content == NoContent
    ensures r.Failure? ==> r.error == MissingContent
    ensures r.Success? ==> r.value == acc + Banner(ResponseTitle(m), ContentRepr(m.content))
  {
    if m.content == NoContent then Failure(MissingContent)
    else Success(acc + Banner(ResponseTitle(m), ContentRepr(m.content)))
  }

  function FunctionCallTitle(fc: FunctionCall): string {
    "***** Suggested function call: " + fc.name.GetOr(NoFunctionName) + " *****"
  }

  function ArgumentsBody(fc: FunctionCall): string {
    "Arguments: \n" + fc.arguments.GetOr(NoArguments)
  }

  /** handle_suggested_function_call: appends one bannered block naming the function
      (or the default) and showing its arguments (or the default). */
  function HandleSuggestedFunctionCall(fc: FunctionCall, acc: string): string {
    acc + Banner(FunctionCallTitle(fc), ArgumentsBody(fc))
  }

  /** A banner appended to acc keeps acc in front, closes with a row of
      asterisks as long as its title, and shows its title and its body. */
  lemma AppendedBanner(acc: string, title: string, body: string)
    ensures var r := acc + Banner(title, body);
      IsPrefix(acc, r) && IsSuffix("\n" + Repeat('*', |title|) + "\n", r)
      && Contains(r, title) && Contains(r, body)
  {
    var stars := Repeat('*', |title|);
    var r := acc + Banner(title, body);
    assert r == acc + title + ("\n" + body + "\n" + stars + "\n");
    ContainsPiece(acc, title, "\n" + body + "\n" + stars + "\n");
    assert r == (acc + title + "\n") + body + ("\n" + stars + "\n");
    ContainsPiece(acc + title + "\n", body, "\n" + stars + "\n");
    assert r == (acc + title + "\n" + body) + ("\n" + stars + "\n");
  }

  /** The arguments body shows "(No arguments found)" when the arguments are missing. */
  lemma ArgumentsDefault(fc: FunctionCall)
    ensures fc.arguments.None? ==> Contains(ArgumentsBody(fc), NoArguments)
  {
    if fc.arguments.None? {
      ContainsPiece("Arguments: \n", NoArguments, "");
      assert "Arguments: \n" + NoArguments + "" == ArgumentsBody(fc);
    }
  }

  /** A function call's title shows "(No function name found)" when the name is missing. */
  lemma FunctionCallTitleDefault(fc: FunctionCall)
    ensures fc.name.None? ==> Contains(FunctionCallTitle(fc), NoFunctionName)
  {
    if fc.name.None? {
      ContainsPiece("***** Suggested function call: ", NoFunctionName, " *****");
    }
  }

  /** handle_suggested_function_call only appends: a banner naming the function,
      or "(No function name found)", over its arguments, or "(No arguments found)". */
  lemma SuggestedFunctionCallBlock(fc: FunctionCall, acc: string)
    ensures var r := HandleSuggestedFunctionCall(fc, acc);
      IsPrefix(acc, r) && IsSuffix("\n" + Repeat('*', |FunctionCallTitle(fc)|) + "\n", r)
      && (fc.name.None? ==> Contains(r, NoFunctionName))
      && (fc.arguments.None? ==> Contains(r, NoArguments))
  {
    var title := FunctionCallTitle(fc);
    var body := ArgumentsBody(fc);
    AppendedBanner(acc, title, body);
    var r := HandleSuggestedFunctionCall(fc, acc);
    FunctionCallTitleDefault(fc);
    ArgumentsDefault(fc);
    if fc.name.None? {
      ContainsWithin(r, title, NoFunctionName);
    }
    if fc.arguments.None? {
      ContainsWithin(r, body, NoArguments);
    }
  }

  function ToolCallTitle(tc: ToolCall): string {
    "***** Suggested tool call (" + tc.id.GetOr(NoToolCallId) + "): "
      + tc.call.name.GetOr(NoFunctionName) + " *****"
  }

  function ToolCallBlock(tc: ToolCall): string {
    Banner(ToolCallTitle(tc), ArgumentsBody(tc.call))
  }

  /** A tool call's title shows "No tool call id found" for a missing id and
      "(No function name found)" for a missing name. */
  lemma ToolCallTitleDefaults(tc: ToolCall)
    ensures tc.id.None? ==> Contains(ToolCallTitle(tc), NoToolCallId)
    ensures tc.call.name.None? ==> Contains(ToolCallTitle(tc), NoFunctionName)
  {
    var name := tc.call.name.GetOr(NoFunctionName);
    if tc.id.None? {
      ContainsPiece("***** Suggested tool call (", NoToolCallId, "): " + name + " *****");
      assert "***** Suggested tool call (" + NoToolCallId + ("): " + name + " *****") == ToolCallTitle(tc);
    }
    if tc.call.name.None? {
      ContainsPiece("***** Suggested tool call (" + tc.id.GetOr(NoToolCallId) + "): ", NoFunctionName, " *****");
    }
  }

  /** A suggested tool call's block shows "No tool call id found" for a missing
      id, "(No function name found)" for a missing name and "(No arguments
      found)" for missing arguments, and closes with a row of asterisks as long
      as its title. */
  lemma ToolCallBlockDefaults(tc: ToolCall)
    ensures var b := ToolCallBlock(tc);
      IsSuffix("\n" + Repeat('*', |ToolCallTitle(tc)|) + "\n", b)
      && (tc.id.None? ==> Contains(b, NoToolCallId))
      && (tc.call.name.None? ==> Contains(b, NoFunctionName))
      && (tc.call.arguments.None? ==> Contains(b, NoArguments))
  {
    var title := ToolCallTitle(tc);
    var body := ArgumentsBody(tc.call);
    AppendedBanner("", title, body);
    assert "" + Banner(title, body) == ToolCallBlock(tc);
    var b := ToolCallBlock(tc);
    ToolCallTitleDefaults(tc);
    ArgumentsDefault(tc.call);
    if tc.id.None? {
      ContainsWithin(b, title, NoToolCallId);
    }
    if tc.call.name.None? {
      ContainsWithin(b, title, NoFunctionName);
    }
    if tc.call.arguments.None? {
      ContainsWithin(b, body, NoArguments);
    }
  }

  /** The blocks of a list of suggested tool calls, one per call, in list order. */
  function ToolCallBlocks(calls: seq<ToolCall>): string {
    if calls == [] then "" else ToolCallBlocks(calls[..|calls| - 1]) + ToolCallBlock(calls[|calls| - 1])
  }

  lemma {:induction false} ToolCallBlocksAppend(a: seq<ToolCall>, b: seq<ToolCall>)
    ensures ToolCallBlocks(a + b) == ToolCallBlocks(a) + ToolCallBlocks(b)
    decreases |b|
  {
    if b == [] {
      assert a + b == a;
    } else {
      var b' := b[..|b| - 1];
      var last := b[|b| - 1];
      assert (a + b)[..|a + b| - 1] == a + b';
      assert (a + b)[|a + b| - 1] == last;
      assert ToolCallBlocks(a + b) == ToolCallBlocks(a + b') + ToolCallBlock(last);
      ToolCallBlocksAppend(a, b');
      TextAssoc(ToolCallBlocks(a), ToolCallBlocks(b'), ToolCallBlock(last));
      assert ToolCallBlocks(b) == ToolCallBlocks(b') + ToolCallBlock(last);
    }
  }

  lemma ToolCallBlocksStep(calls: seq<ToolCall>, i: nat)
    requires i < |calls|
    ensures ToolCallBlocks(calls[..i + 1]) == ToolCallBlocks(calls[..i]) + ToolCallBlock(calls[i])
  {
    assert calls[..i + 1][..i] == calls[..i];
  }

  lemma TextAssoc(a: string, b: string, c: string)
    ensures (a + b) + c == a + (b + c)
  {
  }

  /** handle_suggested_tool_calls: the `for tool_call in tool_calls` loop. */
  method HandleSuggestedToolCalls(calls: seq<ToolCall>, acc: string) returns (r: string)
    ensures r == acc + ToolCallBlocks(calls)
  {
    r := acc;
    var i := 0;
    while i < |calls|
      invariant 0 <= i <= |calls|
      invariant r == acc + ToolCallBlocks(calls[..i])
    {
      ToolCallBlocksStep(calls, i);
      TextAssoc(acc, ToolCallBlocks(calls[..i]), ToolCallBlock(calls[i]));
      r := r + ToolCallBlock(calls[i]);
      i := i + 1;
    }
    assert calls[..i] == calls;
  }

  /** The content part of a regular message: the content (after template
      instantiation when the message carries a context) and a line break, or
      nothing when the content is missing or None. */
  function ContentPart(m: Message, rc: Receiver): string {
    match m.content
    case TextContent(s) =>
      (if m.context.Some? then rc.instantiate(s, m.context.value, rc.allowTemplate) else s) + "\n"
    case _ => ""
  }

  function FunctionCallPart(m: Message): string {
    if m.functionCall.Some? then Banner(FunctionCallTitle(m.functionCall.value), ArgumentsBody(m.functionCall.value)) else ""
  }

  /** What handle_regular_message appends, in its order: content, function-call
      block, tool-call blocks. */
  function RegularBody(m: Message, rc: Receiver): string {
    ContentPart(m, rc) + FunctionCallPart(m) + ToolCallBlocks(m.toolCalls)
  }

  /** handle_regular_message. */
  method HandleRegularMessage(m: Message, rc: Receiver, acc: string) returns (r: string)
    ensures r == acc + RegularBody(m, rc)
  {
    r := acc;
    if m.content.TextContent? {
      var content := m.content.text;
      if m.context.Some? {
        content := rc.instantiate(content, m.context.value, rc.allowTemplate);
      }
      r := r + content + "\n";
    }
    assert r == acc + ContentPart(m, rc);
    ghost var withContent := r;
    if m.functionCall.Some? {
      r := HandleSuggestedFunctionCall(m.functionCall.value, r);
    }
    assert r == withContent + FunctionCallPart(m);
    ghost var withCall := r;
    if m.toolCalls != [] {
      r := HandleSuggestedToolCalls(m.toolCalls, r);
    }
    assert r == withCall + ToolCallBlocks(m.toolCalls);
    Regroup(acc, ContentPart(m, rc), FunctionCallPart(m), ToolCallBlocks(m.toolCalls));
  }

  lemma Regroup(a: string, b: string, c: string, d: string)
    ensures ((a + b) + c) + d == a + (b + c + d)
  {
  }

  /** The fragment a message without tool responses renders to: header, the
      function/tool block or the regular body, and the 80-dash separator; or the
      KeyError raised on a function/tool message without content. */
  function RenderLeaf(m: Message, sender: string, rc: Receiver): (r: Result<string, string>)
    ensures r.Failure? <==> IsFunctionOrTool(m.role) && m.content == NoContent
    ensures r.Failure? ==> r.error == MissingContent
  {
    var head := Header(sender, rc.name);
    if IsFunctionOrTool(m.role) then
      match HandleFunctionToolMessage(m, head)
      case Failure(e) => Failure(e)
      case Success(s) => Success(s + Separator)
    else
      Success(head + RegularBody(m, rc) + Separator)
  }

  /** A rendered fragment opens with the header and closes with the separator. */
  lemma RenderLeafFraming(m: Message, sender: string, rc: Receiver)
    ensures RenderLeaf(m, sender, rc).Success? ==>
      IsPrefix(Header(sender, rc.name), RenderLeaf(m, sender, rc).value)
      && IsSuffix(Separator, RenderLeaf(m, sender, rc).value)
  {
  }
}
