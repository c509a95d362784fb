/** Render, parse, render over a whole conversation (qwen35-forward/gdn/src/chat.rs with
    qwen35-forward/gdn/src/chatparse.rs): exactly when it is the identity, and turns for which
    it is not, or is without recovering the message. */
module ChatIdentity {
  import opened Options
  import opened Text
  import opened ChatParse
  import opened ChatTemplate
  import opened ChatRoundTrip
  import opened ChatReplay
  import opened ChatLayout

  // ------------------------------------------------------------------ different turns, different conversations

  /** Same counters, different text. */
  predicate TextsDiffer(a: Rendered, b: Rendered) {
    a.images == b.images && a.videos == b.videos && a.text != b.text
  }

  predicate OutcomesDiffer(a: Outcome<Rendered>, b: Outcome<Rendered>) {
    (a.Failed? && b == a) || (a.Done? && b.Done? && TextsDiffer(a.value, b.value))
  }

  lemma SuffixDiffers(a: string, b: string, s: string)
    requires a != b
    ensures a + s != b + s
  {
    assert |a + s| == |a| + |s| && |b + s| == |b| + |s|;
    assert (a + s)[..|a|] == a && (b + s)[..|b|] == b;
  }

  lemma PrefixDiffers(p: string, a: string, b: string)
    requires a != b
    ensures p + a != p + b
  {
    assert (p + a)[|p|..] == a && (p + b)[|p|..] == b;
  }

  /** Two conversations that differ in one plain turn after the last query, which they render differently. */
  ghost predicate TurnsDiffer(ms: seq<Message>, ns: seq<Message>, i: nat, last: nat) {
    && i < |ms| == |ns| && ns == ms[i := ns[i]] && ms[i].role == Assistant && ns[i].role == Assistant
    && last < i && Plain(ms[i].content) && Plain(ns[i].content) && TurnOf(ns[i]) != TurnOf(ms[i])
  }

  lemma BlocksDiffer(m: Message, n: Message)
    requires Plain(m.content) && Plain(n.content) && TurnOf(n) != TurnOf(m)
    ensures AssistantBlock(n, JinjaTrim(PlainText(n.content)), true) != AssistantBlock(m, JinjaTrim(PlainText(m.content)), true)
  {
    SuffixDiffers(TurnOf(n), TurnOf(m), ImEnd);
    PrefixDiffers(ImStart + "assistant\n", TurnOf(n) + ImEnd, TurnOf(m) + ImEnd);
    BlockIs(m);
    BlockIs(n);
  }

  lemma BlockIs(m: Message)
    requires Plain(m.content)
    ensures AssistantBlock(m, JinjaTrim(PlainText(m.content)), true) == ImStart + "assistant\n" + (TurnOf(m) + ImEnd)
  {
    Regroup(ImStart + "assistant\n", TurnOf(m), ImEnd);
  }

  /** The turn itself, appended to the same text. */
  lemma TurnAppended(ms: seq<Message>, ns: seq<Message>, i: nat, last: nat, addVisionId: bool, r: Rendered)
    requires TurnsDiffer(ms, ns, i, last)
    ensures OutcomesDiffer(AppendMessage(ms, i, last, addVisionId, r), AppendMessage(ns, i, last, addVisionId, r))
  {
    TurnRenders(ms, i, last, addVisionId, r.images, r.videos);
    TurnRenders(ns, i, last, addVisionId, r.images, r.videos);
    BlocksDiffer(ms[i], ns[i]);
    PrefixDiffers(r.text, AssistantBlock(ms[i], JinjaTrim(PlainText(ms[i].content)), true),
                  AssistantBlock(ns[i], JinjaTrim(PlainText(ns[i].content)), true));
  }

  /** A later message, appended to different texts. */
  lemma LaterAppended(ms: seq<Message>, ns: seq<Message>, i: nat, last: nat, addVisionId: bool, j: nat, a: Rendered, b: Rendered)
    requires TurnsDiffer(ms, ns, i, last) && i != j && j < |ms| && TextsDiffer(a, b)
    ensures OutcomesDiffer(AppendMessage(ms, j, last, addVisionId, a), AppendMessage(ns, j, last, addVisionId, b))
  {
    OtherMessage(ms, ns, i, j, last, addVisionId, a.images, a.videos);
    var block := RenderMessage(ms, j, last, addVisionId, a.images, a.videos);
    if block.Done? {
      SuffixDiffers(a.text, b.text, block.value.text);
    }
  }

  /** Steps that keep a difference keep it to the end. */
  lemma {:induction false} DifferenceStays(n: nat, i: nat, f: (nat, Rendered) --> Outcome<Rendered>,
                                           g: (nat, Rendered) --> Outcome<Rendered>, a: Rendered, b: Rendered)
    requires i <= n && TextsDiffer(a, b)
    requires forall j: nat, t: Rendered :: j < n ==> f.requires(j, t) && g.requires(j, t)
    requires forall j: nat, t: Rendered, u: Rendered :: i <= j < n && TextsDiffer(t, u) ==> OutcomesDiffer(f(j, t), g(j, u))
    ensures OutcomesDiffer(Steps(n, i, f, a), Steps(n, i, g, b))
    decreases n - i
  {
    if i < n {
      assert OutcomesDiffer(f(i, a), g(i, b));
      if f(i, a).Done? {
        DifferenceStays(n, i + 1, f, g, f(i, a).value, g(i, b).value);
      }
    }
  }

  /** Steps that agree up to `k`, differ there and keep the difference. */
  lemma {:induction false} DifferenceArises(n: nat, i: nat, k: nat, f: (nat, Rendered) --> Outcome<Rendered>,
                                            g: (nat, Rendered) --> Outcome<Rendered>, r: Rendered)
    requires i <= k < n
    requires forall j: nat, t: Rendered :: j < n ==> f.requires(j, t) && g.requires(j, t)
    requires forall j: nat, t: Rendered :: j < k ==> f(j, t) == g(j, t)
    requires forall t: Rendered :: OutcomesDiffer(f(k, t), g(k, t))
    requires forall j: nat, t: Rendered, u: Rendered :: k < j < n && TextsDiffer(t, u) ==> OutcomesDiffer(f(j, t), g(j, u))
    ensures OutcomesDiffer(Steps(n, i, f, r), Steps(n, i, g, r))
    decreases k - i
  {
    if i < k {
      if f(i, r).Done? {
        DifferenceArises(n, i + 1, k, f, g, f(i, r).value);
      }
    } else {
      assert OutcomesDiffer(f(k, r), g(k, r));
      if f(k, r).Done? {
        DifferenceStays(n, k + 1, f, g, f(k, r).value, g(k, r).value);
      }
    }
  }

  lemma DifferentRest(ms: seq<Message>, ns: seq<Message>, i: nat, last: nat, addVisionId: bool, r: Rendered)
    requires TurnsDiffer(ms, ns, i, last)
    ensures OutcomesDiffer(RenderMessages(ms, last, addVisionId, r), RenderMessages(ns, last, addVisionId, r))
  {
    var f, g := Appending(ms, last, addVisionId), Appending(ns, last, addVisionId);
    forall j: nat, t: Rendered | j < i ensures f(j, t) == g(j, t) {
      OtherMessage(ms, ns, i, j, last, addVisionId, t.images, t.videos);
    }
    forall t: Rendered ensures OutcomesDiffer(f(i, t), g(i, t)) {
      TurnAppended(ms, ns, i, last, addVisionId, t);
    }
    forall j: nat, t: Rendered, u: Rendered | i < j < |ms| && TextsDiffer(t, u) ensures OutcomesDiffer(f(j, t), g(j, u)) {
      LaterAppended(ms, ns, i, last, addVisionId, j, t, u);
    }
    DifferenceArises(|ms|, 0, i, f, g, r);
  }

  /** Replacing a turn by one that renders differently changes the conversation's text, unless
      it does not render. */
  lemma Changed(req: Request, i: nat, back: Message)
    requires i < |req.messages| && req.messages[i].role == Assistant && Plain(req.messages[i].content)
    requires var last := LastQuery(req.messages, req.addVisionId); last.Done? && last.value < i
    requires back.role == Assistant && Plain(back.content) && TurnOf(back) != TurnOf(req.messages[i])
    ensures OutcomesDiffer(Render(req), Render(req.(messages := req.messages[i := back])))
  {
    var ms := req.messages;
    var ns := ms[i := back];
    var other := req.(messages := ns);
    SameQuery(ms, ns, i, req.addVisionId);
    var last := LastQuery(ms, req.addVisionId).value;
    SameOutside(req, other);
    if SystemBlock(req).Done? {
      var start := Rendered(SystemBlock(req).value, 0, 0);
      DifferentRest(ms, ns, i, last, req.addVisionId, start);
      DifferentRender(req, other, last, start);
    }
  }

  lemma DifferentRender(req: Request, other: Request, last: nat, start: Rendered)
    requires req.messages != [] && other.messages != [] && other.addVisionId == req.addVisionId
    requires SystemBlock(other) == SystemBlock(req) == Done(start.text) && GenerationPrompt(other) == GenerationPrompt(req)
    requires LastQuery(req.messages, req.addVisionId) == Done(last) == LastQuery(other.messages, req.addVisionId)
    requires start.images == start.videos == 0
    requires OutcomesDiffer(RenderMessages(req.messages, last, req.addVisionId, start),
                            RenderMessages(other.messages, last, req.addVisionId, start))
    ensures OutcomesDiffer(Render(req), Render(other))
  {
    var a := RenderMessages(req.messages, last, req.addVisionId, start);
    var b := RenderMessages(other.messages, last, req.addVisionId, start);
    if a.Done? {
      SuffixDiffers(a.value.text, b.value.text, GenerationPrompt(req));
    }
  }

  // ------------------------------------------------------------------ the identity

  /** Replacing a turn of the current exchange by what the parser makes of it leaves the text of
      a conversation that renders as it was exactly if the turn is well laid. */
  lemma RenderIdentity(req: Request, i: nat)
    requires i < |req.messages| && req.messages[i].role == Assistant && Plain(req.messages[i].content)
    requires Render(req).Done? && LastQuery(req.messages, req.addVisionId).value < i
    ensures var turn := TurnOf(req.messages[i]);
            var back := ReplyMessage(ParseAssistant(turn));
            Render(req.(messages := req.messages[i := back])) == Render(req) <==> WellLaid(turn)
  {
    var m := req.messages[i];
    var turn := TurnOf(m);
    var back := ReplyMessage(ParseAssistant(turn));
    RenderedAgain(turn);
    if TurnOf(back) == turn {
      BlockIs(m);
      BlockIs(back);
      Replayed(req, i, back);
    } else {
      Changed(req, i, back);
    }
  }

  /** A turn that the parser recovers is well laid; `NameCanClose` shows that the converse fails. */
  lemma SoundIsWellLaid(m: Message)
    requires Plain(m.content) && SoundMessage(m)
    ensures WellLaid(TurnOf(m))
  {
    var back := ReplyMessage(ParseAssistant(TurnOf(m)));
    SameTurn(m, back);
    RenderedAgain(TurnOf(m));
    if TurnOf(back) != TurnOf(m) {
      BlocksDiffer(m, back);
    }
  }

  // ------------------------------------------------------------------ two turns

  /** A name without the closing tag can still complete one with the `>` that ends its line. The
      call is not recovered, but its text comes back: as content. */
  lemma NameCanClose()
    ensures var name := "f</tool_call"; name != "" && !Has(name, NameClose) && !Has(name, CallClose)
    ensures var text := TurnText("", "", [Call("f</tool_call", [])]);
            && ParseAssistant(text) != Reply(Some(""), "", [Call("f</tool_call", [])])
            && Rerendered(text) == text
  {
    var name := "f</tool_call";
    var c := Call(name, []);
    Unfinished(name);
    ParseRecovers("", "", [c]);
    assert !CleanCall(c) && [c][0] == c;
    BlockCut(c);
    TagsTrimmed(CallText(c));
    KeptAsContent(CallText(c));
    TurnIs("", "", [c]);
    OneCall(c);
    NameTurnLaid(TurnText("", "", [c]), CallText(c));
    RenderedAgain(TurnText("", "", [c]));
  }

  lemma OneCall(c: Call)
    ensures "" + CallsText("", [c]) == CallText(c)
    ensures TurnText("", "", [c]) == ThinkOpen + "\n" + "" + "\n" + ThinkClose + ("\n\n" + CallText(c))
  {
    TrimOfTrimmed("", IsSpace);
    assert [c][1..] == [];
    BodyIs("", [c]);
    TurnJoins("", CallText(c), "", [c]);
  }

  lemma NameTurnLaid(text: string, body: string)
    requires text == ThinkOpen + "\n" + "" + "\n" + ThinkClose + ("\n\n" + body) && StableBody(body)
    ensures WellLaid(text)
  {
    ShortHasNone("", ThinkClose);
    ShortHasNone("", ThinkOpen);
    ThinkingHead("");
    HeadThenClose(ThinkOpen + "\n" + "" + "\n", "\n\n" + body);
    HeadKept("");
    TailKept(body);
  }

  lemma KeptAsContent(body: string)
    requires ParseCalls(body).Err? && Trimmed(body, IsSpace)
    ensures StableBody(body)
  {
  }

  lemma TagsTrimmed(body: string)
    requires body != "" && body[0] == '<' && body[|body| - 1] == '>'
    ensures Trimmed(body, IsSpace)
  {
  }

  /** Its block is cut inside the name. */
  lemma BlockCut(c: Call)
    requires c == Call("f</tool_call", [])
    ensures ParseCalls(CallText(c)).Err?
    ensures CallText(c) != "" && CallText(c)[0] == '<' && CallText(c)[|CallText(c)| - 1] == '>'
  {
    var inner, rest := "\n" + FunctionOpen + "f", "\n" + FunctionClose + "\n" + CallClose;
    CallEnds(c);
    CutPieces(c);
    CutInside(inner);
    CutBlock(CallText(c), inner, rest);
  }

  lemma CutPieces(c: Call)
    requires c == Call("f</tool_call", [])
    ensures CallText(c)
         == "" + CallOpen + ("\n" + FunctionOpen + "f" + CallClose + ("\n" + FunctionClose + "\n" + CallClose))
  {
    assert c.name + NameClose == "f" + CallClose + "\n";
    assert InnerText(c) == FunctionOpen + (c.name + NameClose) + FunctionClose;
  }

  lemma CutInside(inner: string)
    requires inner == "\n" + FunctionOpen + "f"
    ensures !Has(inner, CallClose) && ParseOne(Trim(inner, IsNewline)).Err?
  {
    forall j: nat ensures !At(inner, CallClose, j) {
      if At(inner, CallClose, j) {
        CharInside(inner, CallClose, j, 0);
      }
    }
    var f := FunctionOpen + "f";
    TrimPad("\n", f, "", IsNewline);
    assert "\n" + f + "" == inner;
    TrimOfTrimmed(f, IsNewline);
    StripOf(FunctionOpen, "f");
    ShortHasNone("f", NameClose);
  }

  lemma CutBlock(text: string, inner: string, rest: string)
    requires text == "" + CallOpen + (inner + CallClose + rest)
    requires !Has(inner, CallClose) && ParseOne(Trim(inner, IsNewline)).Err?
    ensures ParseCalls(text).Err?
  {
    ShortHasNone("", CallOpen);
    LeadOnce("", CallOpen);
    SplitClean("", CallOpen, inner + CallClose + rest);
    FoundBySplit(text, CallOpen, "", inner + CallClose + rest);
    LeadOnce(inner, CallClose);
    SplitClean(inner, CallClose, rest);
    NextCall([], text);
  }

  lemma Unfinished(name: string)
    requires name == "f</tool_call"
    ensures !Has(name, NameClose) && !Has(name, CallClose) && !CleanKey(name)
  {
    forall j: nat ensures !At(name, CallClose, j) {
      if At(name, CallClose, j) {
        CharInside(name, CallClose, j, j + 11);
      }
    }
    forall j: nat ensures !At(name, NameClose, j) {
      if At(name, NameClose, j) {
        CharInside(name, NameClose, j, j);
      }
    }
    assert name + ">" == "f" + CallClose + "";
    HasClose("f", CallClose, "");
  }

  /** Content taken from behind a think block keeps its leading spaces when rendered and loses
      them when parsed, so that turn is rendered differently the second time. */
  lemma ExtractedContentCanShift(m: Message)
    requires m == Message(Assistant, Content.Text(ThinkClose + " b"), None, [])
    ensures TurnOf(m) == TurnText("", " b", [])
    ensures !WellLaid(TurnOf(m)) && Rerendered(TurnOf(m)) != TurnOf(m)
  {
    ExtractedTurn(m);
    ShortHasNone("", ThinkClose);
    SpaceIsNotLaid("", " b");
    RenderedAgain(TurnOf(m));
  }

  lemma ExtractedTurn(m: Message)
    requires m == Message(Assistant, Content.Text(ThinkClose + " b"), None, [])
    ensures TurnOf(m) == TurnText("", " b", [])
  {
    var content := ThinkClose + " b";
    assert content[0] == '<' && content[|content| - 1] == 'b';
    TrimOfTrimmed(content, IsSpace);
    ThinkingSplits();
    TurnOfSplit(m, content, "", " b");
  }

  lemma TurnOfSplit(m: Message, text: string, r: string, content: string)
    requires m == Message(Assistant, Content.Text(text), None, []) && JinjaTrim(text) == text
    requires SplitThinking(None, text) == (r, content)
    ensures TurnOf(m) == TurnText(r, content, [])
  {
    assert Written(m.calls) == [];
  }

  lemma SpaceIsNotLaid(r: string, content: string)
    requires !Has(r, ThinkClose) && content != "" && IsSpace(content[0])
    ensures !WellLaid(TurnText(r, content, []))
  {
    TurnSplits(r, content, []);
    assert "\n\n" + content + CallsText(content, []) == "\n\n" + content;
    StripOf("\n\n", content);
  }

  lemma ThinkingSplits()
    ensures SplitThinking(None, ThinkClose + " b") == ("", " b")
  {
    var content := ThinkClose + " b";
    assert content == "" + ThinkClose + " b";
    HasClose("", ThinkClose, " b");
    FirstAndLast(" b");
    EmptyHead();
    assert TrimStart(" b", IsNewline) == " b";
  }

  lemma FirstAndLast(tail: string)
    requires |tail| < |ThinkClose|
    ensures SplitOnce("" + ThinkClose + tail, ThinkClose) == Some(("", tail))
    ensures AfterLast("" + ThinkClose + tail, ThinkClose) == tail
  {
    SplitOnceIs("", ThinkClose, tail);
    ShortHasNone(tail, ThinkClose);
    OnlyFirst(ThinkClose, tail);
  }

  lemma EmptyHead()
    ensures JinjaTrim(TrimStart(AfterLast(TrimEnd("", IsNewline), ThinkOpen), IsNewline)) == ""
  {
    ShortHasNone("", ThinkOpen);
    assert TrimEnd("", IsNewline) == "";
  }}
