/** A conversation rendered again after one of its turns was parsed and put back
    (qwen35-forward/gdn/src/chat.rs with qwen35-forward/gdn/src/chatparse.rs). */
module ChatReplay {
  import opened Text
  import opened ChatParse
  import opened ChatTemplate
  import opened ChatRoundTrip

  /** Content without images or videos, and its text. */
  predicate Plain(c: Content) {
    match c
    case Text(_) => true
    case NoContent => true
    case Unsupported => false
    case Parts(parts) => forall i :: 0 <= i < |parts| ==> parts[i].TextPart?
  }

  function PartsText(parts: seq<Part>): string
    requires forall i :: 0 <= i < |parts| ==> parts[i].TextPart?
  {
    if parts == [] then "" else parts[0].text + PartsText(parts[1..])
  }

  function PlainText(c: Content): string
    requires Plain(c)
  {
    match c
    case Text(s) => s
    case NoContent => ""
    case Parts(parts) => PartsText(parts)
  }

  lemma {:induction false} PartsAreText(parts: seq<Part>, doCount: bool, isSystem: bool, addVisionId: bool, r: Rendered)
    requires forall i :: 0 <= i < |parts| ==> parts[i].TextPart?
    ensures RenderParts(parts, doCount, isSystem, addVisionId, r) == Done(r.(text := r.text + PartsText(parts)))
  {
    if parts == [] {
      assert r.text + "" == r.text;
    } else {
      PartsAreText(parts[1..], doCount, isSystem, addVisionId, r.(text := r.text + parts[0].text));
      Regroup(r.text, parts[0].text, PartsText(parts[1..]));
    }
  }

  lemma PlainRenders(c: Content, addVisionId: bool, images: nat, videos: nat)
    requires Plain(c)
    ensures RenderContent(c, true, false, addVisionId, images, videos) == Done(Rendered(PlainText(c), images, videos))
  {
    if c.Parts? {
      PartsAreText(c.parts, true, false, addVisionId, Rendered("", images, videos));
      assert "" + PartsText(c.parts) == PartsText(c.parts);
    }
  }

  // ------------------------------------------------------------------ putting a reply back

  /** `as_chat_calls`: every recovered value is a string. */
  function AsChatCall(c: Call): ToolCall {
    ToolCall(c.name, seq(|c.args|, i requires 0 <= i < |c.args| => ToolArg(c.args[i].key, Str(c.args[i].value))))
  }

  function AsChatCalls(calls: seq<Call>): (r: seq<ToolCall>)
    ensures |r| == |calls|
  {
    seq(|calls|, i requires 0 <= i < |calls| => AsChatCall(calls[i]))
  }

  lemma WrittenBack(calls: seq<Call>)
    ensures Written(AsChatCalls(calls)) == calls
  {
    var w := Written(AsChatCalls(calls));
    forall i | 0 <= i < |calls| ensures w[i] == calls[i] {
      assert WrittenArgs(AsChatCall(calls[i]).args) == calls[i].args;
    }
  }

  /** The message a reply is handed back as. */
  function ReplyMessage(r: Reply): Message {
    Message(Assistant, Content.Text(r.content), r.reasoning, AsChatCalls(r.calls))
  }

  /** What the model would have written for this message inside the current exchange. */
  function TurnOf(m: Message): string
    requires Plain(m.content)
  {
    var (r, c) := SplitThinking(m.reasoning, JinjaTrim(PlainText(m.content)));
    TurnText(r, c, Written(m.calls))
  }

  ghost predicate SoundMessage(m: Message)
    requires Plain(m.content)
  {
    var (r, c) := SplitThinking(m.reasoning, JinjaTrim(PlainText(m.content)));
    Sound(r, c, Written(m.calls))
  }

  /** The parsed reply's message renders to the same turn. */
  lemma SameTurn(m: Message, back: Message)
    requires Plain(m.content) && SoundMessage(m)
    requires back == ReplyMessage(ParseAssistant(TurnOf(m)))
    ensures Plain(back.content)
    ensures AssistantBlock(back, JinjaTrim(PlainText(back.content)), true)
         == AssistantBlock(m, JinjaTrim(PlainText(m.content)), true)
  {
    var (r, c) := SplitThinking(m.reasoning, JinjaTrim(PlainText(m.content)));
    var calls := Written(m.calls);
    SoundParses(r, c, calls);
    WrittenBack(calls);
    TrimOfTrimmed(r, IsSpace);
    TrimOfTrimmed(c, IsSpace);
  }

  // ------------------------------------------------------------------ the rest of the conversation

  lemma SameQuery(ms: seq<Message>, ns: seq<Message>, i: nat, addVisionId: bool)
    requires i < |ms| == |ns| && ns == ms[i := ns[i]] && ms[i].role == Assistant && ns[i].role == Assistant
    ensures LastQuery(ns, addVisionId) == LastQuery(ms, addVisionId)
  {
    NotQuery(ms[i], addVisionId);
    NotQuery(ns[i], addVisionId);
    assert Queries(ns, addVisionId) == Queries(ms, addVisionId);
  }

  lemma NotQuery(m: Message, addVisionId: bool)
    requires m.role != User
    ensures IsQuery(m, addVisionId) == Done(false)
  {
  }

  lemma OtherMessage(ms: seq<Message>, ns: seq<Message>, i: nat, j: nat, last: nat, addVisionId: bool, images: nat, videos: nat)
    requires i < |ms| == |ns| && j < |ms| && ns == ms[i := ns[i]] && ms[i].role == ns[i].role && i != j
    ensures RenderMessage(ns, j, last, addVisionId, images, videos) == RenderMessage(ms, j, last, addVisionId, images, videos)
  {
    SameNeighbours(ms, ns, i, j);
  }

  lemma SameTurnMessage(ms: seq<Message>, ns: seq<Message>, i: nat, last: nat, addVisionId: bool, images: nat, videos: nat)
    requires i < |ms| && i < |ns| && ms[i].role == Assistant && ns[i].role == Assistant && last < i
    requires Plain(ms[i].content) && Plain(ns[i].content)
    requires AssistantBlock(ns[i], JinjaTrim(PlainText(ns[i].content)), true)
          == AssistantBlock(ms[i], JinjaTrim(PlainText(ms[i].content)), true)
    ensures RenderMessage(ns, i, last, addVisionId, images, videos) == RenderMessage(ms, i, last, addVisionId, images, videos)
  {
    TurnRenders(ms, i, last, addVisionId, images, videos);
    TurnRenders(ns, i, last, addVisionId, images, videos);
  }

  lemma TurnRenders(ms: seq<Message>, i: nat, last: nat, addVisionId: bool, images: nat, videos: nat)
    requires i < |ms| && ms[i].role == Assistant && last < i && Plain(ms[i].content)
    ensures RenderMessage(ms, i, last, addVisionId, images, videos)
         == Done(Rendered(AssistantBlock(ms[i], JinjaTrim(PlainText(ms[i].content)), true), images, videos))
  {
    PlainRenders(ms[i].content, addVisionId, images, videos);
  }

  lemma SameNeighbours(ms: seq<Message>, ns: seq<Message>, i: nat, j: nat)
    requires i < |ms| == |ns| && j < |ms| && ns == ms[i := ns[i]] && ms[i].role == ns[i].role && i != j
    ensures ns[j] == ms[j]
    ensures forall content: string :: ToolBlockText(ns, j, content) == ToolBlockText(ms, j, content)
  {
    assert j > 0 ==> ns[j - 1].role == ms[j - 1].role;
    assert j + 1 < |ms| ==> ns[j + 1].role == ms[j + 1].role;
  }

  /** Steps that agree everywhere give the same result. */
  lemma {:induction false} SameSteps<T(!new)>(n: nat, i: nat, f: (nat, T) --> Outcome<T>, g: (nat, T) --> Outcome<T>, r: T)
    requires i <= n
    requires forall j: nat, t: T :: j < n ==> f.requires(j, t) && g.requires(j, t) && f(j, t) == g(j, t)
    ensures Steps(n, i, f, r) == Steps(n, i, g, r)
    decreases n - i
  {
    if i < n && f(i, r).Done? {
      SameSteps(n, i + 1, f, g, f(i, r).value);
    }
  }

  /** Two conversations that differ in one turn, which renders the same. */
  ghost predicate DifferInTurn(ms: seq<Message>, ns: seq<Message>, i: nat, last: nat) {
    && i < |ms| == |ns| && ns == ms[i := ns[i]] && ms[i].role == Assistant && ns[i].role == Assistant
    && last < i && Plain(ms[i].content) && Plain(ns[i].content)
    && AssistantBlock(ns[i], JinjaTrim(PlainText(ns[i].content)), true)
       == AssistantBlock(ms[i], JinjaTrim(PlainText(ms[i].content)), true)
  }

  lemma SameAppend(ms: seq<Message>, ns: seq<Message>, i: nat, last: nat, addVisionId: bool, j: nat, r: Rendered)
    requires DifferInTurn(ms, ns, i, last) && j < |ms|
    ensures AppendMessage(ns, j, last, addVisionId, r) == AppendMessage(ms, j, last, addVisionId, r)
  {
    if j == i {
      SameTurnMessage(ms, ns, i, last, addVisionId, r.images, r.videos);
    } else {
      OtherMessage(ms, ns, i, j, last, addVisionId, r.images, r.videos);
    }
  }

  lemma SameRest(ms: seq<Message>, ns: seq<Message>, i: nat, last: nat, addVisionId: bool, r: Rendered)
    requires DifferInTurn(ms, ns, i, last)
    ensures RenderMessages(ns, last, addVisionId, r) == RenderMessages(ms, last, addVisionId, r)
  {
    var f, g := Appending(ns, last, addVisionId), Appending(ms, last, addVisionId);
    forall j: nat, t: Rendered | j < |ms| ensures f(j, t) == g(j, t) {
      SameAppend(ms, ns, i, last, addVisionId, j, t);
    }
    SameSteps(|ms|, 0, f, g, r);
  }

  /** Render, parse, render is the identity: replacing a sound turn of the current exchange by
      what the parser recovers from it leaves the whole conversation's text as it was. */
  lemma RenderParseRender(req: Request, i: nat)
    requires i < |req.messages| && req.messages[i].role == Assistant && Plain(req.messages[i].content)
    requires var last := LastQuery(req.messages, req.addVisionId); last.Done? && last.value < i
    requires SoundMessage(req.messages[i])
    ensures var back := ReplyMessage(ParseAssistant(TurnOf(req.messages[i])));
            Render(req.(messages := req.messages[i := back])) == Render(req)
  {
    var back := ReplyMessage(ParseAssistant(TurnOf(req.messages[i])));
    SameTurn(req.messages[i], back);
    Replayed(req, i, back);
  }

  lemma Replayed(req: Request, i: nat, back: Message)
    requires i < |req.messages| && req.messages[i].role == Assistant && Plain(req.messages[i].content)
    requires var last := LastQuery(req.messages, req.addVisionId); last.Done? && last.value < i
    requires back.role == Assistant && Plain(back.content)
    requires AssistantBlock(back, JinjaTrim(PlainText(back.content)), true)
          == AssistantBlock(req.messages[i], JinjaTrim(PlainText(req.messages[i].content)), true)
    ensures Render(req.(messages := req.messages[i := back])) == Render(req)
  {
    var ms := req.messages;
    var ns := ms[i := back];
    SameQuery(ms, ns, i, req.addVisionId);
    var last := LastQuery(ms, req.addVisionId).value;
    SameOutside(req, req.(messages := ns));
    if SystemBlock(req).Done? {
      SameRest(ms, ns, i, last, req.addVisionId, Rendered(SystemBlock(req).value, 0, 0));
    }
    SameRender(req, req.(messages := ns));
  }

  lemma SameRender(req: Request, other: Request)
    requires req.messages != [] && other.messages != [] && other.addVisionId == req.addVisionId
    requires SystemBlock(other) == SystemBlock(req) && GenerationPrompt(other) == GenerationPrompt(req)
    requires var last := LastQuery(req.messages, req.addVisionId);
             && last == LastQuery(other.messages, req.addVisionId)
             && (last.Done? && SystemBlock(req).Done? ==>
                  var start := Rendered(SystemBlock(req).value, 0, 0);
                  RenderMessages(other.messages, last.value, req.addVisionId, start)
                    == RenderMessages(req.messages, last.value, req.addVisionId, start))
    ensures Render(other) == Render(req)
  {
  }

  lemma SameOutside(req: Request, other: Request)
    requires req.messages != [] && other.messages != [] && req.messages[0] == other.messages[0]
    requires other == req.(messages := other.messages)
    ensures SystemBlock(other) == SystemBlock(req) && GenerationPrompt(other) == GenerationPrompt(req)
  {
  }
}
