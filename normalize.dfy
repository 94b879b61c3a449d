/** `normalize_input_messages` of src/fastapi_autogen_team/autogen_server.py:
    flattening the chat history into (role, text) entries and building the
    three-section prompt handed to the workflow. */
module Normalize {
  import opened Wrappers
  import opened Strings

  /** A content part of the request: `ContentText` or `ContentImage`. */
  datatype Block = TextBlock(text: string) | ImageBlock(imageUrl: map<string, string>)

  /** A message's content: a plain string or a list of parts. */
  datatype Content = Str(s: string) | Blocks(blocks: seq<Block>)

  datatype ChatMessage = ChatMessage(role: string, content: Content)

  /** One normalized entry: a capitalised role and a text. */
  datatype Entry = Entry(role: string, text: string)

  const User := "User"
  const System := "System"

  /** The request roles that are kept. */
  predicate Kept(role: string) {
    role == "user" || role == "assistant" || role == "system"
  }

  /** `role.capitalize()` on a kept role. */
  function Label(role: string): string
    requires Kept(role)
  {
    if role == "user" then User else if role == "assistant" then "Assistant" else System
  }

  /** A string counts as one text part. */
  function Parts(c: Content): seq<Block> {
    match c
    case Str(s) => [TextBlock(s)]
    case Blocks(bs) => bs
  }

  /** The entries of the text parts among bs, in order, under one role. */
  function TextEntries(role: string, bs: seq<Block>): (r: seq<Entry>)
    ensures |r| <= |bs|
    ensures forall e :: e in r ==> e.role == role
  {
    if bs == [] then []
    else
      var last := bs[|bs| - 1];
      TextEntries(role, bs[..|bs| - 1]) + (if last.TextBlock? then [Entry(role, last.text)] else [])
  }

  /** What one message contributes. */
  function Entries(m: ChatMessage): seq<Entry> {
    if Kept(m.role) then TextEntries(Label(m.role), Parts(m.content)) else []
  }

  /** The entries of the whole history, message by message. */
  function Normalized(ms: seq<ChatMessage>): seq<Entry> {
    Concat(Entries, ms)
  }

  /** f applied to every element of xs, the results concatenated in order. */
  function Concat<T, U>(f: T -> seq<U>, xs: seq<T>): seq<U> {
    if xs == [] then [] else Concat(f, xs[..|xs| - 1]) + f(xs[|xs| - 1])
  }

  lemma {:induction false} ConcatAppend<T, U>(f: T -> seq<U>, a: seq<T>, b: seq<T>)
    ensures Concat(f, a + b) == Concat(f, a) + Concat(f, b)
    decreases |b|
  {
    if b == [] {
      assert a + b == a;
    } else {
      var b' := b[..|b| - 1];
      assert (a + b)[..|a + b| - 1] == a + b';
      ConcatAppend(f, a, b');
    }
  }

  /** The loop that builds `normalized_messages`. */
  method NormalizeEntries(ms: seq<ChatMessage>) returns (entries: seq<Entry>)
    ensures entries == Normalized(ms)
  {
    entries := [];
    for i := 0 to |ms|
      invariant entries == Normalized(ms[..i])
    {
      NormalizedStep(ms, i);
      var m := ms[i];
      if !(m.role == "user" || m.role == "assistant" || m.role == "system") {
        continue;
      }
      var blocks := match m.content case Str(s) => [TextBlock(s)] case Blocks(bs) => bs;
      var role := Label(m.role);
      ghost var before := entries;
      for j := 0 to |blocks|
        invariant entries == before + TextEntries(role, blocks[..j])
      {
        TextEntriesStep(role, blocks, j);
        if blocks[j].TextBlock? {
          entries := entries + [Entry(role, blocks[j].text)];
        }
      }
      assert blocks[..|blocks|] == blocks;
    }
    assert ms[..|ms|] == ms;
  }

  lemma NormalizedStep(ms: seq<ChatMessage>, i: nat)
    requires i < |ms|
    ensures Normalized(ms[..i + 1]) == Normalized(ms[..i]) + Entries(ms[i])
  {
    assert ms[..i + 1][..i] == ms[..i];
    assert Normalized(ms[..i + 1]) == Concat(Entries, ms[..i + 1][..i]) + Entries(ms[i]);
  }

  lemma TextEntriesStep(role: string, bs: seq<Block>, j: nat)
    requires j < |bs|
    ensures TextEntries(role, bs[..j + 1])
      == TextEntries(role, bs[..j]) + (if bs[j].TextBlock? then [Entry(role, bs[j].text)] else [])
  {
    assert bs[..j + 1][..j] == bs[..j];
  }

  // ---------------------------------------------------------------------------
  // The prompt.

  /** The index of the last User entry, if any. */
  function LastUser(es: seq<Entry>): (r: Option<nat>)
    ensures r.None? <==> forall k :: 0 <= k < |es| ==> es[k].role != User
    ensures r.Some? ==> r.value < |es| && es[r.value].role == User
                        && forall k :: r.value < k < |es| ==> es[k].role != User
  {
    if es == [] then None
    else if es[|es| - 1].role == User then Some(|es| - 1)
    else LastUser(es[..|es| - 1])
  }

  function Line(e: Entry): string {
    e.role + ": " + e.text
  }

  /** `f"{m['role']}: {m['text']}" for m in es if m["role"] != "System"`. */
  function NonSystemLines(es: seq<Entry>): seq<string> {
    if es == [] then []
    else NonSystemLines(es[..|es| - 1]) + (if es[|es| - 1].role != System then [Line(es[|es| - 1])] else [])
  }

  /** `[m for m in es if m["role"] == "System"]`. */
  function SystemEntries(es: seq<Entry>): (r: seq<Entry>)
    ensures forall e :: e in r ==> e.role == System
  {
    if es == [] then []
    else SystemEntries(es[..|es| - 1]) + (if es[|es| - 1].role == System then [es[|es| - 1]] else [])
  }

  const NoUserPrompt := "'SHORT_MEMORY':{\n NO user message detected, finish the workflow  \n},\n'REQUEST':{\n " + "TERMINATE" + " \n}"

  const SystemOpen := "'SYSTEM_INFO':{\n"
  const MemoryOpen := "'SHORT_MEMORY':{\n"
  const RequestOpen := "'REQUEST':{\n"
  const SectionClose := "\n},\n"
  const RequestClose := "\n}"

  /** The three-section layout of the prompt. */
  function Sections(systemInfo: string, shortMemory: string, request: string): string {
    SystemOpen + systemInfo + SectionClose + MemoryOpen + shortMemory + SectionClose + RequestOpen + request + RequestClose
  }

  /** The prompt for a list of entries. */
  function Prompt(es: seq<Entry>): string {
    match LastUser(es)
    case None => NoUserPrompt
    case Some(i) =>
      var systemInfo := Join("\n", NonSystemLines(SystemEntries(es)));
      var shortMemory := Join("\n", NonSystemLines(es[..i]));
      Sections(systemInfo, shortMemory, Line(es[i]))
  }

  /** `normalize_input_messages`. */
  method NormalizeInputMessages(ms: seq<ChatMessage>) returns (prompt: string)
    ensures prompt == Prompt(Normalized(ms))
  {
    var entries := NormalizeEntries(ms);
    prompt := Prompt(entries);
  }

  // ---------------------------------------------------------------------------
  // Properties.

  /** Normalizing is message by message: order is kept and histories concatenate. */
  lemma NormalizedAppend(a: seq<ChatMessage>, b: seq<ChatMessage>)
    ensures Normalized(a + b) == Normalized(a) + Normalized(b)
  {
    ConcatAppend(Entries, a, b);
  }

  /** A message of another role contributes nothing; a string content
      contributes exactly one entry under the capitalised role. */
  lemma MessageContribution(m: ChatMessage)
    ensures !Kept(m.role) ==> Normalized([m]) == []
    ensures Kept(m.role) && m.content.Str? ==> Normalized([m]) == [Entry(Label(m.role), m.content.s)]
  {
    assert [m][..0] == [];
    assert Concat(Entries, [m]) == Concat(Entries, [m][..0]) + Entries([m][0]);
    assert Normalized([m]) == Entries(m);
    if Kept(m.role) && m.content.Str? {
      assert [TextBlock(m.content.s)][..0] == [];
    }
  }

  /** Only text parts survive, and every entry has one of the three labels. */
  lemma {:induction false} EntriesLabelled(ms: seq<ChatMessage>)
    ensures forall e :: e in Normalized(ms) ==> e.role == User || e.role == "Assistant" || e.role == System
  {
    if ms != [] {
      EntriesLabelled(ms[..|ms| - 1]);
    }
  }

  lemma {:induction false} TextEntriesCount(role: string, bs: seq<Block>)
    requires forall k :: 0 <= k < |bs| ==> bs[k].ImageBlock?
    ensures TextEntries(role, bs) == []
  {
    if bs != [] {
      TextEntriesCount(role, bs[..|bs| - 1]);
    }
  }

  /** With no User entry the prompt is the fixed one that asks to terminate. */
  lemma NoUserMeansTerminate(es: seq<Entry>)
    requires forall k :: 0 <= k < |es| ==> es[k].role != User
    ensures Prompt(es) == NoUserPrompt
    ensures Contains(Prompt(es), "TERMINATE")
  {
    ContainsPiece("'SHORT_MEMORY':{\n NO user message detected, finish the workflow  \n},\n'REQUEST':{\n ", "TERMINATE", " \n}");
  }

  lemma {:induction false} NoSystemLineOfSystemEntries(es: seq<Entry>)
    requires forall e :: e in es ==> e.role == System
    ensures NonSystemLines(es) == []
  {
    if es != [] {
      NoSystemLineOfSystemEntries(es[..|es| - 1]);
    }
  }

  /** Otherwise the SYSTEM_INFO section is always empty, SHORT_MEMORY holds the
      non-System entries before the last User entry, and REQUEST is that entry. */
  lemma PromptWithUser(es: seq<Entry>, i: nat)
    requires LastUser(es) == Some(i)
    ensures Prompt(es) == Sections("", Join("\n", NonSystemLines(es[..i])), "User: " + es[i].text)
    ensures IsPrefix(SystemOpen + SectionClose, Prompt(es))
  {
    NoSystemLineOfSystemEntries(SystemEntries(es));
    UserLine(es[i]);
    var memory := Join("\n", NonSystemLines(es[..i]));
    var request := "User: " + es[i].text;
    assert Prompt(es) == Sections("", memory, request);
    SectionsStart(memory, request);
  }

  lemma UserLine(e: Entry)
    requires e.role == User
    ensures Line(e) == "User: " + e.text
  {
    assert User + ": " == "User: ";
  }

  lemma SectionsStart(memory: string, request: string)
    ensures IsPrefix(SystemOpen + SectionClose, Sections("", memory, request))
  {
    var rest := MemoryOpen + memory + SectionClose + RequestOpen + request + RequestClose;
    assert Sections("", memory, request) == (SystemOpen + SectionClose) + rest;
  }

  lemma {:induction false} LastUserIgnoresTail(es: seq<Entry>, tail: seq<Entry>)
    requires LastUser(es).Some?
    requires forall k :: 0 <= k < |tail| ==> tail[k].role != User
    ensures LastUser(es + tail) == LastUser(es)
    decreases |tail|
  {
    if tail == [] {
      assert es + tail == es;
    } else {
      assert (es + tail)[..|es + tail| - 1] == es + tail[..|tail| - 1];
      LastUserIgnoresTail(es, tail[..|tail| - 1]);
    }
  }

  /** Entries after the last User entry never reach the prompt. */
  lemma TrailingEntriesIgnored(es: seq<Entry>, tail: seq<Entry>)
    requires LastUser(es).Some?
    requires forall k :: 0 <= k < |tail| ==> tail[k].role != User
    ensures Prompt(es + tail) == Prompt(es)
  {
    LastUserIgnoresTail(es, tail);
    var i := LastUser(es).value;
    assert (es + tail)[..i] == es[..i];
    PromptWithUser(es, i);
    PromptWithUser(es + tail, i);
  }
}
