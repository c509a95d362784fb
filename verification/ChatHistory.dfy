/** Turns up to the last query are rendered without their reasoning (qwen35-forward/gdn/src/chat.rs). */
module ChatHistory {
  import opened Options
  import opened Text
  import opened ChatParse
  import opened ChatTemplate
  import opened ChatReplay

  /** The content of an assistant turn does not depend on which of two reasonings it has. */
  predicate SameContent(x: Option<string>, y: Option<string>, content: string) {
    SplitThinking(x, content).1 == SplitThinking(y, content).1
  }

  /** Given reasoning never touches the content; missing reasoning does only if a think block has to
      be cut out of it. */
  lemma ContentKept(x: Option<string>, y: Option<string>, content: string)
    ensures x.Some? && y.Some? ==> SameContent(x, y, content)
    ensures !Has(content, ThinkClose) ==> SameContent(x, y, content)
  {
  }

  /** Whatever the rendered content of message `i` is, the two reasonings leave it alike. */
  ghost predicate Interchangeable(m: Message, reasoning: Option<string>) {
    forall content: string {:trigger SameContent(m.reasoning, reasoning, content)} ::
      Contains(m.content, content) ==> SameContent(m.reasoning, reasoning, content)
  }

  /** `content` is what this content renders to, trimmed, for some counters. */
  ghost predicate Contains(c: Content, content: string) {
    exists addVisionId: bool, images: nat, videos: nat ::
      var r := RenderContent(c, true, false, addVisionId, images, videos);
      r.Done? && content == JinjaTrim(r.value.text)
  }

  lemma GivenReasonings(m: Message, reasoning: Option<string>)
    requires m.reasoning.Some? && reasoning.Some?
    ensures Interchangeable(m, reasoning)
  {
  }

  lemma PlainContents(m: Message, reasoning: Option<string>)
    requires Plain(m.content) && !Has(JinjaTrim(PlainText(m.content)), ThinkClose)
    ensures Interchangeable(m, reasoning)
  {
    forall content: string | Contains(m.content, content) ensures SameContent(m.reasoning, reasoning, content) {
      var v: bool, a: nat, b: nat :|
        var r := RenderContent(m.content, true, false, v, a, b); r.Done? && content == JinjaTrim(r.value.text);
      PlainRenders(m.content, v, a, b);
      ContentKept(m.reasoning, reasoning, content);
    }
  }

  /** A turn at or before the last query renders the same with either reasoning. */
  lemma PastMessage(ms: seq<Message>, ns: seq<Message>, i: nat, last: nat, addVisionId: bool, images: nat, videos: nat)
    requires i < |ms| == |ns| && ms[i].role == Assistant && i <= last
    requires ns[i] == ms[i].(reasoning := ns[i].reasoning) && Interchangeable(ms[i], ns[i].reasoning)
    ensures RenderMessage(ns, i, last, addVisionId, images, videos) == RenderMessage(ms, i, last, addVisionId, images, videos)
  {
    var body := RenderContent(ms[i].content, true, false, addVisionId, images, videos);
    if body.Done? {
      var content := JinjaTrim(body.value.text);
      assert Contains(ms[i].content, content);
      assert SameContent(ms[i].reasoning, ns[i].reasoning, content);
      PastBlock(ms[i], ns[i], content);
    }
  }

  lemma PastBlock(m: Message, n: Message, content: string)
    requires n.calls == m.calls && SameContent(m.reasoning, n.reasoning, content)
    ensures AssistantBlock(n, content, false) == AssistantBlock(m, content, false)
  {
  }

  lemma SameAppended(ms: seq<Message>, ns: seq<Message>, i: nat, last: nat, addVisionId: bool, j: nat, r: Rendered)
    requires i < |ms| == |ns| && ms[i].role == Assistant && i <= last && j < |ms|
    requires ns == ms[i := ms[i].(reasoning := ns[i].reasoning)] && Interchangeable(ms[i], ns[i].reasoning)
    ensures AppendMessage(ns, j, last, addVisionId, r) == AppendMessage(ms, j, last, addVisionId, r)
  {
    if j == i {
      PastMessage(ms, ns, i, last, addVisionId, r.images, r.videos);
    } else {
      OtherMessage(ms, ns, i, j, last, addVisionId, r.images, r.videos);
    }
  }

  lemma SameMessages(ms: seq<Message>, ns: seq<Message>, i: nat, last: nat, addVisionId: bool, r: Rendered)
    requires i < |ms| == |ns| && ms[i].role == Assistant && i <= last
    requires ns == ms[i := ms[i].(reasoning := ns[i].reasoning)] && Interchangeable(ms[i], ns[i].reasoning)
    ensures RenderMessages(ns, last, addVisionId, r) == RenderMessages(ms, last, addVisionId, r)
  {
    var f, g := Appending(ns, last, addVisionId), Appending(ms, last, addVisionId);
    forall j: nat, t: Rendered | j < |ms| ensures f(j, t) == g(j, t) {
      SameAppended(ms, ns, i, last, addVisionId, j, t);
    }
    SameSteps(|ms|, 0, f, g, r);
  }

  lemma SameBefore(req: Request, other: Request)
    requires req.messages != [] && other == req.(messages := other.messages) && other.messages != []
    requires other.messages[0] == req.messages[0]
          || (other.messages[0].role != System && req.messages[0].role != System)
    ensures SystemBlock(other) == SystemBlock(req) && GenerationPrompt(other) == GenerationPrompt(req)
  {
  }

  /** The reasoning of an assistant turn at or before the last query is not in the text: any other
      leaves the whole conversation's rendering as it is. */
  lemma PastReasoningForgotten(req: Request, i: nat, reasoning: Option<string>)
    requires i < |req.messages| && req.messages[i].role == Assistant && Interchangeable(req.messages[i], reasoning)
    requires var last := LastQuery(req.messages, req.addVisionId); last.Done? && i <= last.value
    ensures Render(req.(messages := req.messages[i := req.messages[i].(reasoning := reasoning)])) == Render(req)
  {
    var ms := req.messages;
    var ns := ms[i := ms[i].(reasoning := reasoning)];
    var other := req.(messages := ns);
    SameQuery(ms, ns, i, req.addVisionId);
    SameBefore(req, other);
    if SystemBlock(req).Done? {
      SameMessages(ms, ns, i, LastQuery(ms, req.addVisionId).value, req.addVisionId, Rendered(SystemBlock(req).value, 0, 0));
    }
    SameRender(req, other);
  }
}
