/** The chat template (qwen35-forward/gdn/src/chat.rs): what a conversation renders to. */
module ChatTemplate {
  import opened Options
  import opened Text
  import opened ChatParse

  const ImStart := "<|im_start|>"
  const ImEnd := "<|im_end|>\n"

  datatype Role = System | User | Assistant | Tool | Other(name: string)

  datatype Part = TextPart(text: string) | Image | Video | OtherPart

  datatype Content = Text(text: string) | Parts(parts: seq<Part>) | NoContent | Unsupported

  /** An argument value: a string, or any other JSON value by the text it is written as. */
  datatype Value = Str(text: string) | Json(text: string)

  datatype ToolArg = ToolArg(key: string, value: Value)

  datatype ToolCall = ToolCall(name: string, args: seq<ToolArg>)

  datatype Message = Message(role: Role, content: Content, reasoning: Option<string>, calls: seq<ToolCall>)

  /** Each tool by the JSON text it is written as; `instructions` is the constant text that
      follows the tools. */
  datatype Request = Request(messages: seq<Message>, tools: seq<string>, instructions: string,
                             addGenerationPrompt: bool, enableThinking: bool, addVisionId: bool)

  datatype RenderError =
    | NoMessages | SystemNotFirst | NoUserQuery | UnexpectedRole
    | SystemImage | SystemVideo | ItemType | ContentType

  datatype Outcome<+T> = Done(value: T) | Failed(error: RenderError)

  /** A text and the images and videos counted so far. */
  datatype Rendered = Rendered(text: string, images: nat, videos: nat)

  // ------------------------------------------------------------------ content

  function Decimal(n: nat): string {
    var digit := "0123456789"[n % 10];
    if n < 10 then [digit] else Decimal(n / 10) + [digit]
  }

  function VisionText(title: string, n: nat, pad: string, addVisionId: bool): string {
    (if addVisionId then title + Decimal(n) + ": " else "") + "<|vision_start|><|" + pad + "_pad|><|vision_end|>"
  }

  /** One element appended to what was rendered before it. */
  function RenderPart(p: Part, doCount: bool, isSystem: bool, addVisionId: bool, r: Rendered): Outcome<Rendered> {
    match p
    case TextPart(t) => Done(r.(text := r.text + t))
    case OtherPart => Failed(ItemType)
    case Image =>
      if isSystem then Failed(SystemImage) else
      var n := if doCount then r.images + 1 else r.images;
      Done(r.(text := r.text + VisionText("Picture ", n, "image", addVisionId), images := n))
    case Video =>
      if isSystem then Failed(SystemVideo) else
      var n := if doCount then r.videos + 1 else r.videos;
      Done(r.(text := r.text + VisionText("Video ", n, "video", addVisionId), videos := n))
  }

  function RenderParts(parts: seq<Part>, doCount: bool, isSystem: bool, addVisionId: bool, r: Rendered): Outcome<Rendered>
    decreases |parts|
  {
    if parts == [] then Done(r) else
    var next := RenderPart(parts[0], doCount, isSystem, addVisionId, r);
    if next.Failed? then next else RenderParts(parts[1..], doCount, isSystem, addVisionId, next.value)
  }

  /** `render_content`. */
  function RenderContent(c: Content, doCount: bool, isSystem: bool, addVisionId: bool, images: nat, videos: nat): Outcome<Rendered> {
    match c
    case Text(s) => Done(Rendered(s, images, videos))
    case NoContent => Done(Rendered("", images, videos))
    case Unsupported => Failed(ContentType)
    case Parts(parts) => RenderParts(parts, doCount, isSystem, addVisionId, Rendered("", images, videos))
  }

  // ------------------------------------------------------------------ the assistant turn

  /** What each call's arguments are written as. */
  function WrittenArgs(args: seq<ToolArg>): (r: seq<Arg>)
    ensures |r| == |args|
  {
    seq(|args|, i requires 0 <= i < |args| => Arg(args[i].key, args[i].value.text))
  }

  function Written(calls: seq<ToolCall>): (r: seq<Call>)
    ensures |r| == |calls|
  {
    seq(|calls|, i requires 0 <= i < |calls| => Call(calls[i].name, WrittenArgs(calls[i].args)))
  }

  function ArgText(a: Arg): string {
    ParameterOpen + a.key + NameClose + a.value + ParameterCloseLine
  }

  function ArgsText(args: seq<Arg>): string {
    if args == [] then "" else ArgText(args[0]) + ArgsText(args[1..])
  }

  function InnerText(c: Call): string {
    FunctionOpen + c.name + NameClose + ArgsText(c.args) + FunctionClose
  }

  function CallText(c: Call): string {
    CallOpen + "\n" + InnerText(c) + "\n" + CallClose
  }

  /** The calls after the first. */
  function MoreCalls(calls: seq<Call>): string {
    if calls == [] then "" else "\n" + CallText(calls[0]) + MoreCalls(calls[1..])
  }

  /** The calls, joined to the content with a blank line only when there is content. */
  function CallsText(content: string, calls: seq<Call>): string {
    if calls == [] then ""
    else (if JinjaTrim(content) != "" then "\n\n" else "") + CallText(calls[0]) + MoreCalls(calls[1..])
  }

  /** The turn as it follows the role marker, inside the current exchange. */
  function TurnText(reasoning: string, content: string, calls: seq<Call>): string {
    ThinkOpen + "\n" + reasoning + "\n" + ThinkClose + "\n\n" + content + CallsText(content, calls)
  }

  /** The reasoning and the content of an assistant message whose rendered content is `content`. */
  function SplitThinking(reasoning: Option<string>, content: string): (r: (string, string))
    ensures reasoning.Some? ==> r == (JinjaTrim(reasoning.value), content)
    ensures Trimmed(r.0, IsSpace)
  {
    if reasoning.Some? then (JinjaTrim(reasoning.value), content)
    else if Find(content, ThinkClose).Some? then
      var head := TrimEnd(SplitOnce(content, ThinkClose).value.0, IsNewline);
      (JinjaTrim(TrimStart(AfterLast(head, ThinkOpen), IsNewline)),
       TrimStart(AfterLast(content, ThinkClose), IsNewline))
    else (JinjaTrim(""), content)
  }

  function AssistantBlock(m: Message, content: string, afterQuery: bool): string {
    var (r, c) := SplitThinking(m.reasoning, content);
    var calls := Written(m.calls);
    ImStart + "assistant\n" + (if afterQuery then TurnText(r, c, calls) else c + CallsText(c, calls)) + ImEnd
  }

  // ------------------------------------------------------------------ the conversation

  const ToolResponseOpen := "<tool_response>"
  const ToolResponseClose := "</tool_response>"

  predicate IsToolResponse(c: string) {
    StripPrefix(c, ToolResponseOpen).Some? && StripSuffix(c, ToolResponseClose).Some?
  }

  /** Whether a message is a user query, not a wrapped tool response. */
  function IsQuery(m: Message, addVisionId: bool): Outcome<bool> {
    if m.role != User then Done(false) else
    var c := RenderContent(m.content, false, false, addVisionId, 0, 0);
    if c.Failed? then Failed(c.error) else Done(!IsToolResponse(JinjaTrim(c.value.text)))
  }

  function Queries(ms: seq<Message>, addVisionId: bool): (r: seq<Outcome<bool>>)
    ensures |r| == |ms|
  {
    seq(|ms|, i requires 0 <= i < |ms| => IsQuery(ms[i], addVisionId))
  }

  /** The last of the first `n` messages that is a query; what precedes it is not looked at. */
  function LastOf(queries: seq<Outcome<bool>>, n: nat): (r: Outcome<nat>)
    requires n <= |queries|
    ensures r.Done? ==> r.value < n && queries[r.value] == Done(true)
    ensures r.Done? ==> forall j :: r.value < j < n ==> queries[j] == Done(false)
  {
    if n == 0 then Failed(NoUserQuery)
    else if queries[n - 1].Failed? then Failed(queries[n - 1].error)
    else if queries[n - 1].value then Done(n - 1) else LastOf(queries, n - 1)
  }

  /** `last_query_index`: backwards over the messages. */
  function LastQuery(ms: seq<Message>, addVisionId: bool): (r: Outcome<nat>)
    ensures r.Done? ==> r.value < |ms|
  {
    LastOf(Queries(ms, addVisionId), |ms|)
  }

  function ToolBlockText(ms: seq<Message>, i: nat, content: string): string
    requires i < |ms|
  {
    (if i > 0 && ms[i - 1].role != Tool then ImStart + "user" else "")
    + "\n<tool_response>\n" + content + "\n</tool_response>"
    + (if i + 1 == |ms| || ms[i + 1].role != Tool then ImEnd else "")
  }

  /** Message `i`'s block. */
  function RenderMessage(ms: seq<Message>, i: nat, lastQuery: nat, addVisionId: bool, images: nat, videos: nat): Outcome<Rendered>
    requires i < |ms|
  {
    var body := RenderContent(ms[i].content, true, false, addVisionId, images, videos);
    if body.Failed? then body else
    var content := JinjaTrim(body.value.text);
    match ms[i].role
    case System => if i != 0 then Failed(SystemNotFirst) else Done(body.value.(text := ""))
    case User => Done(body.value.(text := ImStart + "user\n" + content + ImEnd))
    case Assistant => Done(body.value.(text := AssistantBlock(ms[i], content, i > lastQuery)))
    case Tool => Done(body.value.(text := ToolBlockText(ms, i, content)))
    case Other(_) => Failed(UnexpectedRole)
  }

  /** Message `i`'s block appended to what came before it. */
  function AppendMessage(ms: seq<Message>, i: nat, lastQuery: nat, addVisionId: bool, r: Rendered): Outcome<Rendered>
    requires i < |ms|
  {
    var block := RenderMessage(ms, i, lastQuery, addVisionId, r.images, r.videos);
    if block.Failed? then block else Done(block.value.(text := r.text + block.value.text))
  }

  /** Steps `i` to `n - 1`, stopping at the first that fails. */
  function Steps<T(!new)>(n: nat, i: nat, step: (nat, T) --> Outcome<T>, r: T): Outcome<T>
    requires i <= n && forall j: nat, t: T :: j < n ==> step.requires(j, t)
    decreases n - i
  {
    if i == n then Done(r) else
    var next := step(i, r);
    if next.Failed? then next else Steps(n, i + 1, step, next.value)
  }

  function Appending(ms: seq<Message>, lastQuery: nat, addVisionId: bool): (step: (nat, Rendered) --> Outcome<Rendered>)
    ensures forall j: nat, r: Rendered :: j < |ms| ==> step.requires(j, r)
    ensures forall j: nat, r: Rendered :: j < |ms| ==> step(j, r) == AppendMessage(ms, j, lastQuery, addVisionId, r)
  {
    (i: nat, r: Rendered) requires i < |ms| => AppendMessage(ms, i, lastQuery, addVisionId, r)
  }

  /** Every message in turn. */
  function RenderMessages(ms: seq<Message>, lastQuery: nat, addVisionId: bool, r: Rendered): Outcome<Rendered> {
    Steps(|ms|, 0, Appending(ms, lastQuery, addVisionId), r)
  }

  const ToolsPrefix := "# Tools\n\nYou have access to the following functions:\n\n<tools>"

  function ToolLines(tools: seq<string>): string {
    if tools == [] then "" else "\n" + tools[0] + ToolLines(tools[1..])
  }

  /** The description of the tools, which opens the system message. */
  function ToolBlock(tools: seq<string>, instructions: string): string {
    ImStart + "system\n" + ToolsPrefix + ToolLines(tools) + "\n</tools>" + instructions
  }

  /** The block before the messages. */
  function SystemBlock(req: Request): Outcome<string>
    requires req.messages != []
  {
    if req.messages[0].role == System then
      var body := RenderContent(req.messages[0].content, false, true, req.addVisionId, 0, 0);
      if body.Failed? then Failed(body.error) else
      var c := JinjaTrim(body.value.text);
      if req.tools != [] then
        Done(ToolBlock(req.tools, req.instructions) + (if c != "" then "\n\n" + c else "") + ImEnd)
      else Done(ImStart + "system\n" + c + ImEnd)
    else if req.tools != [] then Done(ToolBlock(req.tools, req.instructions) + ImEnd)
    else Done("")
  }

  function GenerationPrompt(req: Request): string {
    if !req.addGenerationPrompt then ""
    else ImStart + "assistant\n" + (if req.enableThinking then ThinkOpen + "\n" else ThinkOpen + "\n\n" + ThinkClose + "\n\n")
  }

  /** `render`. */
  function Render(req: Request): Outcome<Rendered> {
    if req.messages == [] then Failed(NoMessages) else
    var system := SystemBlock(req);
    if system.Failed? then Failed(system.error) else
    var last := LastQuery(req.messages, req.addVisionId);
    if last.Failed? then Failed(last.error) else
    var body := RenderMessages(req.messages, last.value, req.addVisionId, Rendered(system.value, 0, 0));
    if body.Failed? then body else Done(body.value.(text := body.value.text + GenerationPrompt(req)))
  }

  // ------------------------------------------------------------------ the loops

  /** The loop of `render_content`. */
  method RenderPartsLoop(parts: seq<Part>, doCount: bool, isSystem: bool, addVisionId: bool, r0: Rendered)
    returns (r: Outcome<Rendered>)
    ensures r == RenderParts(parts, doCount, isSystem, addVisionId, r0)
  {
    var acc := r0;
    for n := 0 to |parts|
      invariant RenderParts(parts, doCount, isSystem, addVisionId, r0)
             == RenderParts(parts[n..], doCount, isSystem, addVisionId, acc)
    {
      assert parts[n..][1..] == parts[n + 1..];
      var next := RenderPart(parts[n], doCount, isSystem, addVisionId, acc);
      if next.Failed? {
        return next;
      }
      acc := next.value;
    }
    r := Done(acc);
  }

  /** The loop over one call's parameters. */
  method AppendArgs(out0: string, args: seq<Arg>) returns (out: string)
    ensures out == out0 + ArgsText(args)
  {
    out := out0;
    for n := 0 to |args|
      invariant out + ArgsText(args[n..]) == out0 + ArgsText(args)
    {
      ghost var was := out;
      out := out + ArgText(args[n]);
      assert args[n..][0] == args[n] && args[n..][1..] == args[n + 1..];
      Regroup(was, ArgText(args[n]), ArgsText(args[n + 1..]));
    }
    Regroup(out, "", "");
  }

  lemma Regroup(a: string, b: string, c: string)
    ensures (a + b) + c == a + (b + c)
  {
  }

  method AppendCall(out0: string, c: Call) returns (out: string)
    ensures out == out0 + CallText(c)
  {
    out := out0 + (CallOpen + "\n" + FunctionOpen + c.name + NameClose);
    out := AppendArgs(out, c.args);
    out := out + (FunctionClose + "\n" + CallClose);
    CallPieces(out0, c);
  }

  lemma CallPieces(out: string, c: Call)
    ensures out + (CallOpen + "\n" + FunctionOpen + c.name + NameClose) + ArgsText(c.args) + (FunctionClose + "\n" + CallClose)
         == out + CallText(c)
  {
    var a, b, d := CallOpen + "\n", FunctionOpen + c.name + NameClose, ArgsText(c.args);
    assert CallOpen + "\n" + FunctionOpen + c.name + NameClose == a + b;
    assert FunctionClose + "\n" + CallClose == FunctionClose + ("\n" + CallClose);
    assert CallText(c) == a + (b + d + FunctionClose) + "\n" + CallClose;
  }

  /** The loop over the calls after the first. */
  method AppendMore(out0: string, calls: seq<Call>) returns (out: string)
    ensures out == out0 + MoreCalls(calls)
  {
    out := out0;
    for n := 0 to |calls|
      invariant out + MoreCalls(calls[n..]) == out0 + MoreCalls(calls)
    {
      ghost var was := out;
      out := AppendCall(out + "\n", calls[n]);
      assert calls[n..][0] == calls[n] && calls[n..][1..] == calls[n + 1..];
      NextCallText(was, calls[n], MoreCalls(calls[n + 1..]));
    }
    Regroup(out, "", "");
  }

  /** The calls of a turn. */
  method AppendCalls(content: string, out0: string, calls: seq<Call>) returns (out: string)
    ensures out == out0 + CallsText(content, calls)
  {
    if calls == [] {
      return out0;
    }
    var sep := if JinjaTrim(content) != "" then "\n\n" else "";
    out := AppendCall(out0 + sep, calls[0]);
    out := AppendMore(out, calls[1..]);
    Regroup(out0, sep, CallText(calls[0]));
    Regroup(out0, sep + CallText(calls[0]), MoreCalls(calls[1..]));
  }

  lemma NextCallText(was: string, c: Call, more: string)
    ensures was + "\n" + CallText(c) + more == was + ("\n" + CallText(c) + more)
  {
    Regroup(was, "\n", CallText(c));
    Regroup(was, "\n" + CallText(c), more);
  }

  method ScanStep(ms: seq<Message>, i: nat, addVisionId: bool, ghost queries: seq<Outcome<bool>>) returns (query: Outcome<bool>)
    requires queries == Queries(ms, addVisionId) && i < |ms|
    ensures i < |queries| && query == queries[i]
  {
    query := IsQuery(ms[i], addVisionId);
  }

  /** The loop of the backwards scan. */
  method ScanLoop(ms: seq<Message>, addVisionId: bool, ghost queries: seq<Outcome<bool>>) returns (r: Outcome<nat>)
    requires queries == Queries(ms, addVisionId)
    ensures r == LastOf(queries, |ms|)
  {
    var multiStepTool := true;
    var last := 0;
    for i := |ms| downto 0
      invariant multiStepTool ==> LastOf(queries, |ms|) == LastOf(queries, i)
      invariant !multiStepTool ==> LastOf(queries, |ms|) == Done(last)
    {
      if multiStepTool {
        var query := ScanStep(ms, i, addVisionId, queries);
        if query.Failed? {
          return Failed(query.error);
        }
        if query.value {
          multiStepTool := false;
          last := i;
        }
      }
    }
    r := if multiStepTool then Failed(NoUserQuery) else Done(last);
  }

  method ScanLastQuery(ms: seq<Message>, addVisionId: bool) returns (r: Outcome<nat>)
    ensures r == LastQuery(ms, addVisionId)
  {
    r := ScanLoop(ms, addVisionId, Queries(ms, addVisionId));
  }

  /** The main loop. */
  method RenderLoop(ms: seq<Message>, lastQuery: nat, addVisionId: bool, r0: Rendered) returns (r: Outcome<Rendered>)
    ensures r == RenderMessages(ms, lastQuery, addVisionId, r0)
  {
    var out := r0;
    ghost var step := Appending(ms, lastQuery, addVisionId);
    for i := 0 to |ms|
      invariant Steps(|ms|, 0, step, r0) == Steps(|ms|, i, step, out)
    {
      var next := AppendMessage(ms, i, lastQuery, addVisionId, out);
      if next.Failed? {
        return next;
      }
      out := next.value;
    }
    r := Done(out);
  }

  /** The loop over the tools. */
  method AppendTools(out0: string, tools: seq<string>) returns (out: string)
    ensures out == out0 + ToolLines(tools)
  {
    out := out0;
    for n := 0 to |tools|
      invariant out + ToolLines(tools[n..]) == out0 + ToolLines(tools)
    {
      ghost var was := out;
      out := out + ("\n" + tools[n]);
      assert tools[n..][0] == tools[n] && tools[n..][1..] == tools[n + 1..];
      Regroup(was, "\n" + tools[n], ToolLines(tools[n + 1..]));
    }
    Regroup(out, "", "");
  }

  /** The block before the messages, with its loop. */
  method RenderSystem(req: Request) returns (r: Outcome<string>)
    requires req.messages != []
    ensures r == SystemBlock(req)
  {
    var tools := "";
    if req.tools != [] {
      tools := AppendTools(ImStart + "system\n" + ToolsPrefix, req.tools);
      tools := tools + "\n</tools>" + req.instructions;
      assert tools == ToolBlock(req.tools, req.instructions);
    }
    var c := "";
    if req.messages[0].role == System {
      var body := RenderContent(req.messages[0].content, false, true, req.addVisionId, 0, 0);
      if body.Failed? {
        return Failed(body.error);
      }
      c := JinjaTrim(body.value.text);
    }
    if req.tools != [] {
      r := Done(tools + (if c != "" then "\n\n" + c else "") + ImEnd);
      assert c == "" ==> tools + "" == tools;
    } else if req.messages[0].role == System {
      r := Done(ImStart + "system\n" + c + ImEnd);
    } else {
      r := Done("");
    }
  }

  /** `render`, with its loops. */
  method RenderAll(req: Request) returns (r: Outcome<Rendered>)
    ensures r == Render(req)
  {
    if req.messages == [] {
      return Failed(NoMessages);
    }
    var system := RenderSystem(req);
    if system.Failed? {
      return Failed(system.error);
    }
    var last := ScanLastQuery(req.messages, req.addVisionId);
    if last.Failed? {
      return Failed(last.error);
    }
    var body := RenderLoop(req.messages, last.value, req.addVisionId, Rendered(system.value, 0, 0));
    if body.Failed? {
      return body;
    }
    r := Done(body.value.(text := body.value.text + GenerationPrompt(req)));
  }
}
