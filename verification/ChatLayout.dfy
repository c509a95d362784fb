/** Exactly which texts are the same after they are parsed and rendered again
    (qwen35-forward/gdn/src/chatparse.rs against qwen35-forward/gdn/src/chat.rs): those laid out
    as the template lays them out, wherever the parser trims or tries a second separator. */
module ChatLayout {
  import opened Options
  import opened Text
  import opened ChatParse
  import opened ChatTemplate
  import opened ChatRoundTrip
  import opened ChatReplay

  // ------------------------------------------------------------------ a reader that trims nothing

  function ReadArg(s: string): (r: Option<(Arg, string)>)
    ensures r.Some? ==> |r.value.1| < |s|
  {
    var k := StripPrefix(s, ParameterOpen);
    if k.None? then None else
    var v := SplitOnce(k.value, NameClose);
    if v.None? then None else
    var e := SplitOnce(v.value.1, ParameterCloseLine);
    if e.None? || (e.value.1 == "" && HoldsTag(e.value.0)) then None
    else Some((Arg(v.value.0, e.value.0), e.value.1))
  }

  /** The last value may not hold a closing tag, on a line of its own or not. */
  predicate HoldsTag(v: string) {
    Find(v, ParameterClose).Some?
  }

  function ReadArgs(s: string): (r: Option<seq<Arg>>)
    decreases |s|
  {
    if s == "" then Some([]) else
    var first := ReadArg(s);
    if first.None? then None else
    var tail := ReadArgs(first.value.1);
    if tail.None? then None else Some([first.value.0] + tail.value)
  }

  const BlockStart := "\n" + FunctionOpen
  const BlockEnd := FunctionClose + "\n"

  /** What is between a block's tags. */
  function ReadBlock(s: string): (r: Option<Call>)
  {
    var f := StripPrefix(s, BlockStart);
    if f.None? then None else
    var n := SplitOnce(f.value, NameClose);
    if n.None? || n.value.0 == "" then None else
    var inner := StripSuffix(n.value.1, BlockEnd);
    if inner.None? then None else
    var args := ReadArgs(inner.value);
    if args.None? then None else Some(Call(n.value.0, args.value))
  }

  /** A block after its opening tag, and the text after it. */
  function ReadCall(s: string): (r: Option<(Call, string)>)
    ensures r.Some? ==> |r.value.1| < |s|
  {
    var cut := SplitOnce(s, CallClose);
    if cut.None? then None else
    var c := ReadBlock(cut.value.0);
    if c.None? then None else Some((c.value, cut.value.1))
  }

  const NextStart := "\n" + CallOpen

  /** The calls after the first. */
  function ReadMore(s: string): (r: Option<seq<Call>>)
    decreases |s|
  {
    if s == "" then Some([]) else
    var next := StripPrefix(s, NextStart);
    if next.None? then None else
    var c := ReadCall(next.value);
    if c.None? then None else
    var more := ReadMore(c.value.1);
    if more.None? then None else Some([c.value.0] + more.value)
  }

  /** The content in front of the first call: nothing, or trimmed text and a blank line. */
  function ReadContent(s: string): (r: Option<string>)
  {
    if s == "" then Some("") else
    var c := StripSuffix(s, "\n\n");
    if c.None? || c.value == "" || !Trimmed(c.value, IsSpace) then None else c
  }

  /** The body of a turn. */
  function ReadBody(s: string): (r: Option<(string, seq<Call>)>)
  {
    var cut := SplitOnce(s, CallOpen);
    if cut.None? then (if Trimmed(s, IsSpace) then Some((s, [])) else None) else
    var content := ReadContent(cut.value.0);
    if content.None? then None else
    var c := ReadCall(cut.value.1);
    if c.None? then None else
    var more := ReadMore(c.value.1);
    if more.None? then None else Some((content.value, [c.value.0] + more.value))
  }

  // ------------------------------------------------------------------ what it reads is what is written

  lemma ArgWritten(s: string)
    requires ReadArg(s).Some? && !Has(s, CallClose)
    ensures var (a, rest) := ReadArg(s).value;
            && s == ArgText(a) + rest && CleanKey(a.key) && CleanValue(a.value, rest == "") && !Has(rest, CallClose)
  {
    var k := StripPrefix(s, ParameterOpen).value;
    StripParts(s, ParameterOpen);
    NotInSuffix(s, k, CallClose);
    KeyIsClean(k);
    var v := SplitOnce(k, NameClose).value.1;
    HeadWithNext(v, ParameterCloseLine);
    SplitParts(v, ParameterCloseLine);
    var (value, rest) := SplitOnce(v, ParameterCloseLine).value;
    NotInPrefix(v, value, CallClose);
    NotInSuffix(v, rest, CallClose);
    ArgSplits(ParameterOpen, ReadArg(s).value.0.key, NameClose, value, ParameterCloseLine, rest);
  }

  lemma {:induction false} ArgsWritten(s: string)
    requires ReadArgs(s).Some? && !Has(s, CallClose)
    ensures s == ArgsText(ReadArgs(s).value) && CleanArgs(ReadArgs(s).value)
    decreases |s|
  {
    if s != "" {
      ArgWritten(s);
      var (a, rest) := ReadArg(s).value;
      ArgsWritten(rest);
      var args := ReadArgs(s).value;
      assert args[0] == a && args[1..] == ReadArgs(rest).value;
      EmptyArgs(args[1..], rest);
    }
  }

  lemma EmptyArgs(args: seq<Arg>, s: string)
    requires s == ArgsText(args)
    ensures s == "" <==> args == []
  {
  }

  lemma BlockWritten(s: string)
    requires ReadBlock(s).Some? && !Has(s, CallClose)
    ensures s == "\n" + InnerText(ReadBlock(s).value) + "\n" && CleanCall(ReadBlock(s).value)
  {
    var f := StripPrefix(s, BlockStart).value;
    StripParts(s, BlockStart);
    NotInSuffix(s, f, CallClose);
    KeyIsClean(f);
    var (name, rest) := SplitOnce(f, NameClose).value;
    var inner := StripSuffix(rest, BlockEnd).value;
    assert rest[..|inner|] == inner;
    NotInPrefix(rest, inner, CallClose);
    ArgsWritten(inner);
    BlockPieces(name, inner);
  }

  lemma BlockPieces(name: string, inner: string)
    ensures BlockStart + (name + NameClose + (inner + BlockEnd))
         == "\n" + (FunctionOpen + name + NameClose + inner + FunctionClose) + "\n"
  {
    FivePieces("\n", FunctionOpen, name + NameClose, inner, FunctionClose);
    Regroup(FunctionOpen, name, NameClose);
  }

  lemma FivePieces(a: string, b: string, c: string, d: string, e: string)
    ensures a + b + (c + (d + (e + "\n"))) == a + (b + c + d + e) + "\n"
  {
  }

  lemma CallWritten(s: string)
    requires ReadCall(s).Some?
    ensures var (c, rest) := ReadCall(s).value; CleanCall(c) && CallOpen + s == CallText(c) + rest
  {
    HeadHasNone(s, CallClose);
    var (inner, rest) := SplitOnce(s, CallClose).value;
    BlockWritten(inner);
    TagPieces(CallOpen, InnerText(ReadCall(s).value.0), CallClose, rest);
  }

  lemma TagPieces(a: string, b: string, c: string, d: string)
    ensures a + ("\n" + b + "\n" + c + d) == a + "\n" + b + "\n" + c + d
  {
  }

  lemma {:induction false} MoreWritten(s: string)
    requires ReadMore(s).Some?
    ensures s == MoreCalls(ReadMore(s).value) && CleanCalls(ReadMore(s).value)
    decreases |s|
  {
    if s != "" {
      var next := StripPrefix(s, NextStart).value;
      CallWritten(next);
      var (c, rest) := ReadCall(next).value;
      MoreWritten(rest);
      var calls := ReadMore(s).value;
      assert calls[0] == c && calls[1..] == ReadMore(rest).value;
      Regroup("\n", CallOpen, next);
      Regroup("\n", CallText(c), rest);
      MoreIs(calls);
    }
  }

  /** A body that is read is the rendering of what is read, which the parser recovers. */
  lemma BodyWritten(s: string)
    requires ReadBody(s).Some?
    ensures var (content, calls) := ReadBody(s).value;
            && s == content + CallsText(content, calls)
            && Trimmed(content, IsSpace) && !Has(content, CallOpen) && CleanCalls(calls)
  {
    var cut := SplitOnce(s, CallOpen);
    if cut.None? {
      assert s + "" == s;
    } else {
      HeadHasNone(s, CallOpen);
      var (pre, after) := cut.value;
      var content := ReadContent(pre).value;
      ContentWritten(pre);
      NotInPrefix(pre, content, CallOpen);
      CallWritten(after);
      var (c, rest) := ReadCall(after).value;
      MoreWritten(rest);
      var more := ReadMore(rest).value;
      assert ([c] + more)[1..] == more;
      BodyPieces(pre, after, content, c, more);
    }
  }

  lemma ContentWritten(pre: string)
    requires ReadContent(pre).Some?
    ensures var c := ReadContent(pre).value;
            && Trimmed(c, IsSpace) && pre == c + Separator(c) && |c| <= |pre| && pre[..|c|] == c
  {
  }

  function Separator(content: string): string {
    if content != "" then "\n\n" else ""
  }

  lemma BodyPieces(pre: string, after: string, content: string, c: Call, more: seq<Call>)
    requires Trimmed(content, IsSpace) && pre == content + Separator(content)
    requires CallOpen + after == CallText(c) + MoreCalls(more)
    ensures pre + CallOpen + after == content + CallsText(content, [c] + more)
  {
    assert ([c] + more)[1..] == more;
    Regroup(pre, CallOpen, after);
    Regroup(pre, CallText(c), MoreCalls(more));
    BodyIs(content, [c] + more);
  }

  // ------------------------------------------------------------------ what is written is read

  lemma ArgRead(a: Arg, rest: string)
    requires CleanKey(a.key) && CleanValue(a.value, rest == "")
    ensures ReadArg(ArgText(a) + rest) == Some((a, rest))
  {
    var s := a.value + ParameterCloseLine + rest;
    ArgSplits(ParameterOpen, a.key, NameClose, a.value, ParameterCloseLine, rest);
    StripOf(ParameterOpen, a.key + NameClose + s);
    KeySplits(a.key, s);
    if rest == "" {
      NoTagNoLine(a.value, ParameterClose, '\n');
      assert ParameterClose + ['\n'] == ParameterCloseLine;
    }
    NewlineEnds(a.value, ParameterCloseLine);
    SplitClean(a.value, ParameterCloseLine, rest);
  }

  lemma {:induction false} ArgsRead(args: seq<Arg>)
    requires CleanArgs(args)
    ensures ReadArgs(ArgsText(args)) == Some(args)
  {
    if args != [] {
      ArgsRead(args[1..]);
      EmptyArgs(args[1..], ArgsText(args[1..]));
      ThenArgs(args[0], ArgsText(args[1..]), args[1..]);
      assert args == [args[0]] + args[1..];
    }
  }

  lemma ThenArgs(a: Arg, rest: string, args: seq<Arg>)
    requires CleanKey(a.key) && CleanValue(a.value, rest == "") && ReadArgs(rest) == Some(args)
    ensures ReadArgs(ArgText(a) + rest) == Some([a] + args)
  {
    ArgRead(a, rest);
    ArgsReadOn(ArgText(a) + rest, a, rest, args);
  }

  lemma ArgsReadOn(s: string, a: Arg, rest: string, args: seq<Arg>)
    requires s != "" && ReadArg(s) == Some((a, rest)) && ReadArgs(rest) == Some(args)
    ensures ReadArgs(s) == Some([a] + args)
  {
  }

  lemma BlockRead(c: Call)
    requires CleanCall(c)
    ensures ReadBlock("\n" + InnerText(c) + "\n") == Some(c)
  {
    var inner := ArgsText(c.args);
    BlockPieces(c.name, inner);
    StripOf(BlockStart, c.name + NameClose + (inner + BlockEnd));
    KeySplits(c.name, inner + BlockEnd);
    SuffixOf(inner, BlockEnd);
    ArgsRead(c.args);
  }

  lemma SuffixOf(s: string, post: string)
    ensures StripSuffix(s + post, post) == Some(s)
  {
  }

  lemma CallRead(c: Call, rest: string)
    requires CleanCall(c)
    ensures ReadCall("\n" + InnerText(c) + "\n" + CallClose + rest) == Some((c, rest))
  {
    BlockCloses(c, rest);
    BlockRead(c);
  }

  lemma {:induction false} MoreRead(calls: seq<Call>)
    requires CleanCalls(calls)
    ensures ReadMore(MoreCalls(calls)) == Some(calls)
  {
    if calls != [] {
      MoreRead(calls[1..]);
      MoreIs(calls);
      ThenMore(calls[0], MoreCalls(calls[1..]), calls[1..]);
      assert calls == [calls[0]] + calls[1..];
    }
  }

  lemma ThenMore(c: Call, rest: string, more: seq<Call>)
    requires CleanCall(c) && ReadMore(rest) == Some(more)
    ensures ReadMore("\n" + CallText(c) + rest) == Some([c] + more)
  {
    var next := "\n" + InnerText(c) + "\n" + CallClose + rest;
    CallRead(c, rest);
    CallSplits("\n", c, rest);
    StripOf(NextStart, next);
    MoreReadOn("\n" + CallText(c) + rest, next, c, rest, more);
  }

  lemma MoreReadOn(s: string, next: string, c: Call, rest: string, more: seq<Call>)
    requires s != "" && StripPrefix(s, NextStart) == Some(next)
    requires ReadCall(next) == Some((c, rest)) && ReadMore(rest) == Some(more)
    ensures ReadMore(s) == Some([c] + more)
  {
  }

  lemma ThenBody(s: string, pre: string, after: string, content: string, c: Call, rest: string, more: seq<Call>)
    requires SplitOnce(s, CallOpen) == Some((pre, after)) && ReadContent(pre) == Some(content)
    requires ReadCall(after) == Some((c, rest)) && ReadMore(rest) == Some(more)
    ensures ReadBody(s) == Some((content, [c] + more))
  {
  }

  /** Any trimmed content without a call, followed by clean calls, is read back. */
  lemma BodyRead(content: string, calls: seq<Call>)
    requires Trimmed(content, IsSpace) && !Has(content, CallOpen) && CleanCalls(calls)
    ensures ReadBody(content + CallsText(content, calls)) == Some((content, calls))
  {
    if calls == [] {
      assert content + CallsText(content, calls) == content;
    } else {
      MoreRead(calls[1..]);
      ThenCallsRead(content, calls[0], MoreCalls(calls[1..]), calls[1..]);
      assert calls == [calls[0]] + calls[1..];
      BodyIs(content, calls);
    }
  }

  lemma ThenCallsRead(content: string, c: Call, rest: string, more: seq<Call>)
    requires Trimmed(content, IsSpace) && !Has(content, CallOpen) && CleanCall(c) && ReadMore(rest) == Some(more)
    ensures ReadBody(content + Separator(content) + CallText(c) + rest) == Some((content, [c] + more))
  {
    var pre, after := content + Separator(content), "\n" + InnerText(c) + "\n" + CallClose + rest;
    BodyCut(content, c, rest);
    ReadBefore(content);
    CallRead(c, rest);
    ThenBody(pre + CallText(c) + rest, pre, after, content, c, rest, more);
  }

  lemma BodyIs(content: string, calls: seq<Call>)
    requires Trimmed(content, IsSpace) && calls != []
    ensures content + CallsText(content, calls)
         == content + Separator(content) + CallText(calls[0]) + MoreCalls(calls[1..])
  {
    TrimOfTrimmed(content, IsSpace);
    BodySplits(content, Separator(content), CallText(calls[0]), MoreCalls(calls[1..]));
  }

  lemma BodyCut(content: string, c: Call, rest: string)
    requires !Has(content, CallOpen)
    ensures var pre, after := content + Separator(content), "\n" + InnerText(c) + "\n" + CallClose + rest;
            SplitOnce(pre + CallText(c) + rest, CallOpen) == Some((pre, after))
  {
    var pre := content + Separator(content);
    BlankLine(content);
    assert content + "" == content;
    CallSplits(pre, c, rest);
    LeadOnce(pre, CallOpen);
    SplitClean(pre, CallOpen, "\n" + InnerText(c) + "\n" + CallClose + rest);
  }

  lemma ReadBefore(content: string)
    requires Trimmed(content, IsSpace)
    ensures ReadContent(content + Separator(content)) == Some(content)
  {
    SuffixOf(content, "\n\n");
  }

  // ------------------------------------------------------------------ bodies

  /** The body parsed and written again. */
  function Rebody(body: string): string {
    var (content, calls) := ParseBody(body);
    content + CallsText(content, calls)
  }

  /** Trimmed, and laid out strictly wherever the calls parse at all. */
  predicate StableBody(body: string) {
    Trimmed(body, IsSpace) && (ParseCalls(body).Err? || ReadBody(body).Some?)
  }

  lemma BodyEndsTrimmed(content: string, calls: seq<Call>)
    requires Trimmed(content, IsSpace)
    ensures Trimmed(content + CallsText(content, calls), IsSpace)
  {
    if calls == [] {
      assert content + CallsText(content, calls) == content;
    } else {
      BodyIs(content, calls);
      CallsEnd(calls[0], calls[1..]);
      EndsTrimmed(content, Separator(content), CallText(calls[0]) + MoreCalls(calls[1..]));
      Regroup(content + Separator(content), CallText(calls[0]), MoreCalls(calls[1..]));
    }
  }

  lemma {:induction false} CallsEnd(c: Call, more: seq<Call>)
    ensures var s := CallText(c) + MoreCalls(more); s != "" && s[0] == '<' && s[|s| - 1] == '>'
    decreases |more|
  {
    CallEnds(c);
    if more != [] {
      CallsEnd(more[0], more[1..]);
      MoreIs(more);
      Regroup("\n", CallText(more[0]), MoreCalls(more[1..]));
    }
  }

  lemma CallEnds(c: Call)
    ensures var s := CallText(c); s != "" && s[0] == '<' && s[|s| - 1] == '>'
  {
  }

  lemma EndsTrimmed(content: string, sep: string, s: string)
    requires Trimmed(content, IsSpace) && (content == "" ==> sep == "")
    requires s != "" && s[0] == '<' && s[|s| - 1] == '>'
    ensures Trimmed(content + sep + s, IsSpace)
  {
  }

  /** Parsing a body and writing it again changes nothing exactly for the stable bodies. */
  lemma BodyStable(body: string)
    ensures Rebody(body) == body <==> StableBody(body)
  {
    if StableBody(body) {
      StableIsKept(body);
    }
    if Rebody(body) == body {
      KeptIsStable(body);
    }
  }

  lemma StableIsKept(body: string)
    requires StableBody(body)
    ensures Rebody(body) == body
  {
    if ParseCalls(body).Err? {
      TrimOfTrimmed(body, IsSpace);
      assert body + "" == body;
    } else {
      BodyWritten(body);
      var (content, calls) := ReadBody(body).value;
      BodyParses(content, calls);
    }
  }

  lemma KeptIsStable(body: string)
    requires Rebody(body) == body
    ensures StableBody(body)
  {
    var (content, calls) := ParseBody(body);
    BodyIsClean(body);
    BodyEndsTrimmed(content, calls);
    if ParseCalls(body).Ok? {
      BodyRead(content, calls);
    }
  }

  // ------------------------------------------------------------------ turns

  /** A text of the model parsed, put back as a message and rendered inside the current exchange. */
  function Rerendered(text: string): string {
    TurnOf(ReplyMessage(ParseAssistant(text)))
  }

  const HeadStart := ThinkOpen + "\n"

  /** The reasoning in front of the first closing tag, alone between its two newlines. */
  predicate WellLaidHead(head: string) {
    var s := StripPrefix(head, HeadStart);
    s.Some? &&
    var r := StripSuffix(s.value, "\n");
    r.Some? && Trimmed(r.value, IsSpace) && Find(r.value, ThinkOpen).None?
  }

  /** A blank line, and a stable body. */
  predicate WellLaidTail(tail: string) {
    var body := StripPrefix(tail, "\n\n");
    body.Some? && StableBody(body.value)
  }

  predicate WellLaid(text: string) {
    var cut := SplitOnce(text, ThinkClose);
    cut.Some? && WellLaidHead(cut.value.0) && WellLaidTail(cut.value.1)
  }

  lemma RerenderedIs(text: string)
    requires Has(text, ThinkClose)
    ensures var reply := ParseAssistant(text);
            reply.reasoning.Some? && Rerendered(text) == TurnText(reply.reasoning.value, reply.content, reply.calls)
  {
    var reply := ParseAssistant(text);
    ReasoningIsClean(text);
    ContentIsTrimmed(text);
    WrittenBack(reply.calls);
    TrimOfTrimmed(reply.reasoning.value, IsSpace);
    TrimOfTrimmed(reply.content, IsSpace);
  }

  lemma ContentIsTrimmed(text: string)
    ensures Trimmed(ParseAssistant(text).content, IsSpace)
  {
    var cut := SplitOnce(text, ThinkClose);
    BodyIsClean(if cut.Some? then TrimStart(cut.value.1, IsNewline) else text);
  }

  /** A rendered turn always holds the closing tag. */
  lemma TurnCloses(m: Message)
    requires Plain(m.content)
    ensures Has(TurnOf(m), ThinkClose)
  {
    var (r, c) := SplitThinking(m.reasoning, JinjaTrim(PlainText(m.content)));
    TurnIs(r, c, Written(m.calls));
    HasClose(ThinkOpen + "\n" + r + "\n", ThinkClose, "\n\n" + c + CallsText(c, Written(m.calls)));
  }

  lemma HeadKept(r: string)
    requires Trimmed(r, IsSpace) && !Has(r, ThinkOpen)
    ensures WellLaidHead(ThinkOpen + "\n" + r + "\n")
  {
    Regroup(HeadStart, r, "\n");
    StripOf(HeadStart, r + "\n");
    SuffixOf(r, "\n");
  }

  lemma HeadIs(head: string) returns (r: string)
    requires WellLaidHead(head)
    ensures head == ThinkOpen + "\n" + r + "\n" && Trimmed(r, IsSpace) && !Has(r, ThinkOpen)
  {
    r := StripSuffix(StripPrefix(head, HeadStart).value, "\n").value;
    Regroup(HeadStart, r, "\n");
  }

  lemma TailKept(body: string)
    requires StableBody(body)
    ensures WellLaidTail("\n\n" + body)
    ensures TrimStart("\n\n" + body, IsNewline) == body
  {
    StripOf("\n\n", body);
    PaddingDropped("\n\n", body);
  }

  /** A well laid text is rendered as it was. */
  lemma WellLaidIsKept(text: string)
    requires WellLaid(text)
    ensures Rerendered(text) == text
  {
    var (head, tail) := SplitOnce(text, ThinkClose).value;
    var r := HeadIs(head);
    var body := StripPrefix(tail, "\n\n").value;
    TailKept(body);
    ReasoningParses(r);
    BodyStable(body);
    RerenderedIs(text);
    var (content, calls) := ParseBody(body);
    TurnJoins(r, body, content, calls);
  }

  lemma TurnJoins(r: string, body: string, content: string, calls: seq<Call>)
    requires body == content + CallsText(content, calls)
    ensures TurnText(r, content, calls) == ThinkOpen + "\n" + r + "\n" + ThinkClose + ("\n\n" + body)
  {
    TurnIs(r, content, calls);
    Regroup("\n\n", content, CallsText(content, calls));
  }

  /** A text that is rendered as it was is well laid. */
  lemma KeptIsWellLaid(text: string)
    requires Rerendered(text) == text
    ensures WellLaid(text)
  {
    TurnCloses(ReplyMessage(ParseAssistant(text)));
    RerenderedIs(text);
    ReasoningIsClean(text);
    ContentIsTrimmed(text);
    var reply := ParseAssistant(text);
    KeptParts(text, reply.reasoning.value, reply.content, reply.calls);
  }

  lemma KeptParts(text: string, r: string, content: string, calls: seq<Call>)
    requires text == TurnText(r, content, calls) && ParseAssistant(text) == Reply(Some(r), content, calls)
    requires Trimmed(r, IsSpace) && !Has(r, ThinkOpen) && !Has(r, ThinkClose) && Trimmed(content, IsSpace)
    ensures WellLaid(text)
  {
    var body := content + CallsText(content, calls);
    TurnSplits(r, content, calls);
    Regroup("\n\n", content, CallsText(content, calls));
    HeadKept(r);
    BodyStart(content, calls);
    BodyStable(body);
    TailKept(body);
  }

  /** Parsing a text and rendering what was parsed gives the text again exactly if it is well
      laid, for every text the model may write. */
  lemma RenderedAgain(text: string)
    ensures Rerendered(text) == text <==> WellLaid(text)
  {
    if WellLaid(text) {
      WellLaidIsKept(text);
    }
    if Rerendered(text) == text {
      KeptIsWellLaid(text);
    }
  }
}
