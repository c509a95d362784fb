/** Rendering an assistant turn and parsing it back (qwen35-forward/gdn/src/chatparse.rs
    against qwen35-forward/gdn/src/chat.rs): exactly which turns survive, and that a
    conversation re-rendered from the parsed reply is the same text. */
module ChatRoundTrip {
  import opened Options
  import opened Text
  import opened ChatParse
  import opened ChatTemplate

  // ------------------------------------------------------------------ separators

  /** A separator that cannot begin before the head's end is found exactly there. */
  lemma SplitClean(head: string, pat: string, tail: string)
    requires pat != "" && !Has(head + pat[..|pat| - 1], pat)
    ensures SplitOnce(head + pat + tail, pat) == Some((head, tail))
  {
    var s := head + pat + tail;
    var h := head + pat[..|pat| - 1];
    assert s[..|h|] == h;
    forall j: nat | j < |head| ensures !At(s, pat, j) {
      assert s[..|h|][j..j + |pat|] == s[j..j + |pat|];
      assert !At(h, pat, j);
    }
    SplitOnceIs(head, pat, tail);
  }

  /** A pattern whose first character does not recur cannot straddle its own beginning. */
  lemma LeadOnce(v: string, pat: string)
    requires pat != "" && !Has(v, pat) && forall o :: 0 < o < |pat| ==> pat[o] != pat[0]
    ensures !Has(v + pat[..|pat| - 1], pat)
  {
    var h := v + pat[..|pat| - 1];
    forall j: nat | At(h, pat, j) ensures false {
      if j + |pat| <= |v| {
        assert h[j..j + |pat|] == v[j..j + |pat|];
        assert At(v, pat, j);
      } else {
        CharInside(h, pat, j, |v|);
      }
    }
  }

  /** A pattern with a newline only at its ends. */
  lemma NewlineEnds(v: string, pat: string)
    requires |pat| > 1 && pat[0] == '\n' && !Has(v + "\n", pat) && forall o :: 0 < o < |pat| - 1 ==> pat[o] != '\n'
    ensures !Has(v + pat[..|pat| - 1], pat)
  {
    var h := v + pat[..|pat| - 1];
    forall j: nat | At(h, pat, j) ensures false {
      if j + |pat| <= |v| + 1 {
        assert h[..|v| + 1] == v + "\n";
        assert (v + "\n")[j..j + |pat|] == h[j..j + |pat|];
        assert At(v + "\n", pat, j);
      } else {
        CharInside(h, pat, j, |v|);
      }
    }
  }

  /** Appending a character the pattern does not end in makes no occurrence. */
  lemma LastDiffers(v: string, c: char, pat: string)
    requires pat != "" && !Has(v, pat) && pat[|pat| - 1] != c
    ensures !Has(v + [c], pat)
  {
    var s := v + [c];
    forall j: nat ensures !At(s, pat, j) {
      if j + |pat| <= |v| {
        assert s[j..j + |pat|] == v[j..j + |pat|];
        assert !At(v, pat, j);
      } else if j + |pat| == |s| {
        assert s[j..j + |pat|][|pat| - 1] == c;
      }
    }
  }

  /** An opening tag in front does not help a pattern that begins differently. */
  lemma PrefixSafe(pre: string, s: string, pat: string)
    requires |pre| > 1 && |pat| > 1 && !Has(s, pat)
    requires pre[1] != pat[1] && forall i :: 0 < i < |pre| ==> pre[i] != pat[0]
    ensures !Has(pre + s, pat)
  {
    forall j: nat | At(pre + s, pat, j) ensures false {
      if j < |pre| {
        CharInside(pre + s, pat, j, j);
        CharInside(pre + s, pat, j, j + 1);
      } else {
        assert (pre + s)[j..j + |pat|] == s[j - |pre|..j - |pre| + |pat|];
        assert At(s, pat, j - |pre|);
      }
    }
  }

  // ------------------------------------------------------------------ parameters

  lemma KeySplits(k: string, tail: string)
    requires CleanKey(k)
    ensures SplitOnce(k + NameClose + tail, NameClose) == Some((k, tail))
  {
    LastDiffers(k, '>', NameClose);
    assert NameClose[..|NameClose| - 1] == ">";
    SplitClean(k, NameClose, tail);
  }

  lemma ValueSplits(v: string, tail: string)
    requires CleanValue(v, false)
    ensures SplitValue(v + ParameterCloseLine + tail) == Some((v, tail))
  {
    NewlineEnds(v, ParameterCloseLine);
    SplitClean(v, ParameterCloseLine, tail);
  }

  lemma LastValueSplits(v: string)
    requires CleanValue(v, true)
    ensures SplitValue(v + ParameterClose) == Some((v, ""))
  {
    NoTagNoLine(v, ParameterClose, '\n');
    assert ParameterClose + ['\n'] == ParameterCloseLine;
    NewlineEnds(v, ParameterCloseLine);
    assert ParameterCloseLine[..|ParameterCloseLine| - 1] == ParameterClose;
    LastDiffers(v, '\n', ParameterClose);
    NewlineEnds(v, ParameterClose);
    SplitClean(v, ParameterClose, "");
    assert v + ParameterClose + "" == v + ParameterClose;
  }

  /** The parameters without the newline that ends the last. */
  function BareArgs(args: seq<Arg>): string {
    if args == [] then ""
    else if |args| == 1 then ParameterOpen + args[0].key + NameClose + args[0].value + ParameterClose
    else ArgText(args[0]) + BareArgs(args[1..])
  }

  lemma {:induction false} BareIs(args: seq<Arg>)
    requires args != []
    ensures ArgsText(args) == BareArgs(args) + "\n"
    ensures BareArgs(args) != "" && BareArgs(args)[0] == '<' && BareArgs(args)[|BareArgs(args)| - 1] == '>'
  {
    var a := args[0];
    if |args| == 1 {
      assert args[1..] == [];
      assert ArgText(a) == ParameterOpen + a.key + NameClose + a.value + ParameterClose + "\n";
    } else {
      BareIs(args[1..]);
    }
  }

  lemma StripOf(pre: string, r: string)
    ensures StripPrefix(pre + r, pre) == Some(r)
  {
  }

  /** A parameter block, given how its value splits. */
  lemma BlockParses(key: string, s: string, v: string, tail: string)
    requires CleanKey(key) && SplitValue(s) == Some((v, tail)) && (tail == "" || tail[0] != '\n')
    ensures ParseArg(ParameterOpen + (key + NameClose + s)) == Ok((Arg(key, v), tail))
  {
    StripOf(ParameterOpen, key + NameClose + s);
    KeySplits(key, s);
  }

  lemma ArgParses(a: Arg, tail: string)
    requires CleanKey(a.key) && CleanValue(a.value, false) && tail != "" && tail[0] != '\n'
    ensures ParseArg(ArgText(a) + tail) == Ok((a, tail))
  {
    ValueSplits(a.value, tail);
    BlockParses(a.key, a.value + ParameterCloseLine + tail, a.value, tail);
    ArgSplits(ParameterOpen, a.key, NameClose, a.value, ParameterCloseLine, tail);
  }

  lemma ArgSplits(a: string, b: string, c: string, d: string, e: string, f: string)
    ensures a + b + c + d + e + f == a + (b + c + (d + e + f))
  {
    assert a + b + c + d + e + f == a + (b + c) + (d + e + f);
  }

  lemma LastArgSplits(a: string, b: string, c: string, d: string, e: string)
    ensures a + b + c + d + e == a + (b + c + (d + e))
  {
    assert a + b + c + d + e == a + (b + c) + (d + e);
  }

  lemma LastArgParses(a: Arg)
    requires CleanKey(a.key) && CleanValue(a.value, true)
    ensures ParseArg(ParameterOpen + a.key + NameClose + a.value + ParameterClose) == Ok((a, ""))
  {
    LastValueSplits(a.value);
    BlockParses(a.key, a.value + ParameterClose, a.value, "");
    LastArgSplits(ParameterOpen, a.key, NameClose, a.value, ParameterClose);
  }

  lemma ParsedStep(rest: string, a: Arg, next: string, args: seq<Arg>)
    requires rest != "" && ParseArg(rest) == Ok((a, next)) && ParseArgs(next) == Ok(args)
    ensures ParseArgs(rest) == Ok([a] + args)
  {
  }

  lemma LastArgsParse(args: seq<Arg>)
    requires |args| == 1 && CleanArgs(args)
    ensures ParseArgs(BareArgs(args)) == Ok(args)
  {
    BareIs(args);
    LastArgParses(args[0]);
    assert ParseArgs("") == Ok([]);
    ParsedStep(BareArgs(args), args[0], "", []);
    assert args == [args[0]] + [];
  }

  lemma ThenParses(a: Arg, tail: string, args: seq<Arg>)
    requires CleanKey(a.key) && CleanValue(a.value, false) && tail != "" && tail[0] != '\n'
    requires ParseArgs(tail) == Ok(args)
    ensures ParseArgs(ArgText(a) + tail) == Ok([a] + args)
  {
    ArgParses(a, tail);
    ParsedStep(ArgText(a) + tail, a, tail, args);
  }

  lemma MoreArgsParse(args: seq<Arg>)
    requires |args| > 1 && CleanArgs(args) && ParseArgs(BareArgs(args[1..])) == Ok(args[1..])
    ensures ParseArgs(BareArgs(args)) == Ok(args)
  {
    var tail := args[1..];
    BareIs(tail);
    ThenParses(args[0], BareArgs(tail), tail);
    assert args == [args[0]] + tail;
  }

  lemma {:induction false} ArgsParse(args: seq<Arg>)
    requires CleanArgs(args)
    ensures ParseArgs(BareArgs(args)) == Ok(args)
  {
    if |args| == 1 {
      LastArgsParse(args);
    } else if args != [] {
      ArgsParse(args[1..]);
      MoreArgsParse(args);
    }
  }

  // ------------------------------------------------------------------ one call

  lemma HeadParses(c: Call)
    requires CleanCall(c)
    ensures ParseHead(InnerText(c)) == Ok((c.name, BareArgs(c.args)))
  {
    var rest := ArgsText(c.args) + FunctionClose;
    var f := c.name + NameClose + rest;
    assert InnerText(c) == FunctionOpen + f;
    InnerEnds(c);
    TrimOfTrimmed(InnerText(c), IsNewline);
    assert InnerText(c)[|FunctionOpen|..] == f;
    KeySplits(c.name, rest);
    EndOfInner(ArgsText(c.args));
    ArgsTrim(c.args);
  }

  lemma InnerEnds(c: Call)
    ensures InnerText(c) != "" && InnerText(c)[0] == '<' && InnerText(c)[|InnerText(c)| - 1] == '>'
    ensures Trimmed(InnerText(c), IsNewline)
  {
  }

  lemma EndOfInner(args: string)
    ensures TrimEnd(args + FunctionClose, IsNewline) == args + FunctionClose
    ensures StripSuffix(args + FunctionClose, FunctionClose) == Some(args)
  {
    var s := args + FunctionClose;
    assert s[|s| - |FunctionClose|..] == FunctionClose && s[..|s| - |FunctionClose|] == args;
  }

  lemma ArgsTrim(args: seq<Arg>)
    ensures Trim(ArgsText(args), IsNewline) == BareArgs(args)
  {
    if args != [] {
      BareIs(args);
      LineTrims(BareArgs(args));
    }
  }

  lemma LineTrims(s: string)
    requires Trimmed(s, IsNewline)
    ensures Trim(s + "\n", IsNewline) == s
  {
    TrimPad("", s, "\n", IsNewline);
    assert "" + s + "\n" == s + "\n";
    TrimOfTrimmed(s, IsNewline);
  }

  lemma CallParses(c: Call)
    requires CleanCall(c)
    ensures ParseOne(InnerText(c)) == Ok(c)
  {
    HeadParses(c);
    ArgsParse(c.args);
  }

  // ------------------------------------------------------------------ no early closing tag

  lemma OpenKeySafe(pre: string, k: string)
    requires pre == FunctionOpen || pre == ParameterOpen
    requires !Has(k + ">", CallClose)
    ensures !Has(pre + k + ">", CallClose)
  {
    PrefixSafe(pre, k + ">", CallClose);
    assert pre + (k + ">") == pre + k + ">";
  }

  lemma Around(l: string, r: string)
    requires !Has(l, CallClose) && !Has(r, CallClose)
    ensures !Has(l + "\n" + r, CallClose)
  {
    HasAround(l, '\n', r, CallClose);
  }

  lemma {:induction false} ArgsDoNotClose(args: seq<Arg>)
    requires CleanArgs(args)
    ensures !Has(ArgsText(args) + FunctionClose, CallClose)
  {
    if args == [] {
      assert ArgsText(args) + FunctionClose == FunctionClose;
      ShortHasNone(FunctionClose, CallClose);
    } else {
      ArgsDoNotClose(args[1..]);
      ArgDoesNotClose(args[0], |args| == 1, ArgsText(args[1..]) + FunctionClose);
      assert ArgsText(args) + FunctionClose == ArgText(args[0]) + (ArgsText(args[1..]) + FunctionClose);
    }
  }

  lemma ArgDoesNotClose(a: Arg, last: bool, tail: string)
    requires CleanKey(a.key) && CleanValue(a.value, last) && !Has(tail, CallClose)
    ensures !Has(ArgText(a) + tail, CallClose)
  {
    OpenKeySafe(ParameterOpen, a.key);
    var tag := "</parameter>";
    forall j: nat ensures !At(tag, CallClose, j) {
      if At(tag, CallClose, j) {
        CharInside(tag, CallClose, j, 2);
      }
    }
    Around(tag, tail);
    Around(a.value, tag + "\n" + tail);
    Around(ParameterOpen + a.key + ">", a.value + "\n" + (tag + "\n" + tail));
    ArgPieces(a, tail);
  }

  lemma ArgPieces(a: Arg, tail: string)
    ensures ArgText(a) + tail
         == ParameterOpen + a.key + ">" + "\n" + (a.value + "\n" + ("</parameter>" + "\n" + tail))
  {
    assert ParameterCloseLine == "\n" + "</parameter>" + "\n";
    assert NameClose == ">" + "\n";
  }

  /** The inside of a clean call does not contain the closing tag. */
  lemma CallDoesNotClose(c: Call)
    requires CleanCall(c)
    ensures !Has("\n" + InnerText(c) + "\n", CallClose)
  {
    ArgsDoNotClose(c.args);
    OpenKeySafe(FunctionOpen, c.name);
    var rest := ArgsText(c.args) + FunctionClose;
    Around(FunctionOpen + c.name + ">", rest);
    assert InnerText(c) == FunctionOpen + c.name + ">" + "\n" + rest by {
      assert NameClose == ">" + "\n";
    }
    ShortHasNone("", CallClose);
    Around("", InnerText(c));
    Around("" + "\n" + InnerText(c), "");
    assert "" + "\n" + InnerText(c) + "\n" + "" == "\n" + InnerText(c) + "\n";
  }

  // ------------------------------------------------------------------ the calls of a turn

  /** The first block of a text is the call that follows `pre`. */
  lemma BlockFound(pre: string, c: Call, rest: string)
    requires CleanCall(c) && !Has(pre, CallOpen)
    ensures Has(pre + CallText(c) + rest, CallOpen)
    ensures BeforeCalls(pre + CallText(c) + rest) == pre
    ensures FirstCall(pre + CallText(c) + rest) == Ok((c, rest))
  {
    var text := pre + CallText(c) + rest;
    var after := "\n" + InnerText(c) + "\n" + CallClose + rest;
    CallSplits(pre, c, rest);
    LeadOnce(pre, CallOpen);
    SplitClean(pre, CallOpen, after);
    FoundBySplit(text, CallOpen, pre, after);
    BlockCloses(c, rest);
    InnerTrims(c);
    CallParses(c);
  }

  lemma CallSplits(pre: string, c: Call, rest: string)
    ensures pre + CallText(c) + rest == pre + CallOpen + ("\n" + InnerText(c) + "\n" + CallClose + rest)
  {
    var a, b := CallOpen, "\n" + InnerText(c) + "\n" + CallClose;
    assert CallText(c) == a + b;
    Regroup(a, b, rest);
    Regroup(pre, a + b, rest);
    Regroup(pre, a, b + rest);
  }

  lemma FoundBySplit(s: string, pat: string, head: string, tail: string)
    requires SplitOnce(s, pat) == Some((head, tail)) && pat != ""
    ensures Has(s, pat) && Find(s, pat) == Some(|head|)
    ensures s[|head| + |pat|..] == tail && s[..|head|] == head
  {
  }

  lemma BlockCloses(c: Call, rest: string)
    requires CleanCall(c)
    ensures SplitOnce("\n" + InnerText(c) + "\n" + CallClose + rest, CallClose) == Some(("\n" + InnerText(c) + "\n", rest))
  {
    CallDoesNotClose(c);
    LeadOnce("\n" + InnerText(c) + "\n", CallClose);
    SplitClean("\n" + InnerText(c) + "\n", CallClose, rest);
  }

  lemma InnerTrims(c: Call)
    ensures Trim("\n" + InnerText(c) + "\n", IsNewline) == InnerText(c)
  {
    InnerEnds(c);
    TrimPad("\n", InnerText(c), "\n", IsNewline);
    TrimOfTrimmed(InnerText(c), IsNewline);
  }

  lemma ThenCalls(text: string, c: Call, rest: string, more: seq<Call>)
    requires Has(text, CallOpen) && FirstCall(text) == Ok((c, rest)) && ParseCalls(rest) == Ok(more)
    ensures ParseCalls(text) == Ok([c] + more)
  {
    ParsedTail(text);
  }

  lemma MoreIs(calls: seq<Call>)
    requires calls != []
    ensures MoreCalls(calls) == "\n" + CallText(calls[0]) + MoreCalls(calls[1..])
  {
  }

  lemma CallThenMore(pre: string, c: Call, rest: string, more: seq<Call>)
    requires CleanCall(c) && !Has(pre, CallOpen) && ParseCalls(rest) == Ok(more)
    ensures ParseCalls(pre + CallText(c) + rest) == Ok([c] + more)
  {
    BlockFound(pre, c, rest);
    ThenCalls(pre + CallText(c) + rest, c, rest, more);
  }

  lemma {:induction false} MoreParse(calls: seq<Call>)
    requires CleanCalls(calls)
    ensures ParseCalls(MoreCalls(calls)) == Ok(calls)
  {
    if calls == [] {
      ShortHasNone("", CallOpen);
      NoMoreCalls("");
    } else {
      ShortHasNone("\n", CallOpen);
      MoreParse(calls[1..]);
      MoreIs(calls);
      CallThenMore("\n", calls[0], MoreCalls(calls[1..]), calls[1..]);
      assert calls == [calls[0]] + calls[1..];
    }
  }

  /** Any clean calls after a text without a call parse back. */
  lemma CallsParse(pre: string, calls: seq<Call>)
    requires calls != [] && CleanCalls(calls) && !Has(pre, CallOpen)
    ensures ParseCalls(pre + CallText(calls[0]) + MoreCalls(calls[1..])) == Ok(calls)
  {
    MoreParse(calls[1..]);
    CallThenMore(pre, calls[0], MoreCalls(calls[1..]), calls[1..]);
    assert calls == [calls[0]] + calls[1..];
  }

  // ------------------------------------------------------------------ the body of a turn

  /** Content the parser can tell from calls: no opening tag, or one that is not a call, with
      no calls after it. */
  ghost predicate CleanContent(content: string, calls: seq<Call>) {
    !Has(content, CallOpen) || (calls == [] && ParseCalls(content).Err?)
  }

  lemma BlankLine(content: string)
    requires !Has(content, CallOpen)
    ensures !Has(content + "\n\n", CallOpen)
  {
    LastDiffers(content, '\n', CallOpen);
    LastDiffers(content + "\n", '\n', CallOpen);
    assert content + "\n" + ['\n'] == content + "\n\n";
  }

  lemma EndPadded(s: string, w: string, p: char -> bool)
    requires AllIn(w, p)
    ensures Trim(s + w, p) == Trim(s, p)
  {
    StartThen(s, w, p);
    if TrimStart(s, p) != "" {
      EndPad(TrimStart(s, p), w, p);
    }
  }

  lemma BlankLineTrims(content: string)
    ensures JinjaTrim(content + "\n\n") == JinjaTrim(content)
  {
    EndPadded(content, "\n\n", IsSpace);
  }

  lemma BodyParses(content: string, calls: seq<Call>)
    requires Trimmed(content, IsSpace) && CleanContent(content, calls) && CleanCalls(calls)
    ensures ParseBody(content + CallsText(content, calls)) == (content, calls)
  {
    TrimOfTrimmed(content, IsSpace);
    if calls == [] {
      assert content + CallsText(content, calls) == content;
      PlainBody(content);
    } else {
      var sep := if content != "" then "\n\n" else "";
      BlankLine(content);
      BlankLineTrims(content);
      var pre := content + sep;
      CallsParse(pre, calls);
      BlockFound(pre, calls[0], MoreCalls(calls[1..]));
      BodySplits(content, sep, CallText(calls[0]), MoreCalls(calls[1..]));
    }
  }

  lemma PlainBody(content: string)
    requires !Has(content, CallOpen) || ParseCalls(content).Err?
    ensures ParseBody(content) == (JinjaTrim(content), [])
  {
    if !Has(content, CallOpen) {
      NoMoreCalls(content);
    }
  }

  lemma BodySplits(a: string, b: string, c: string, d: string)
    ensures a + (b + c + d) == a + b + c + d
  {
  }

  // ------------------------------------------------------------------ the whole turn

  lemma ThinkingHead(r: string)
    requires !Has(r, ThinkClose)
    ensures !Has(ThinkOpen + "\n" + r + "\n", ThinkClose)
  {
    ShortHasNone(ThinkOpen, ThinkClose);
    ShortHasNone("", ThinkClose);
    HasAround(ThinkOpen, '\n', r, ThinkClose);
    HasAround(ThinkOpen + "\n" + r, '\n', "", ThinkClose);
    assert ThinkOpen + "\n" + r + "\n" + "" == ThinkOpen + "\n" + r + "\n";
  }

  lemma TurnIs(r: string, content: string, calls: seq<Call>)
    ensures TurnText(r, content, calls)
         == ThinkOpen + "\n" + r + "\n" + ThinkClose + ("\n\n" + content + CallsText(content, calls))
  {
    TurnPieces(ThinkOpen + "\n" + r + "\n", ThinkClose, content, CallsText(content, calls));
  }

  lemma TurnSplits(r: string, content: string, calls: seq<Call>)
    requires !Has(r, ThinkClose)
    ensures SplitOnce(TurnText(r, content, calls), ThinkClose)
         == Some((ThinkOpen + "\n" + r + "\n", "\n\n" + content + CallsText(content, calls)))
  {
    TurnIs(r, content, calls);
    ThinkingHead(r);
    HeadThenClose(ThinkOpen + "\n" + r + "\n", "\n\n" + content + CallsText(content, calls));
  }

  lemma HeadThenClose(head: string, tail: string)
    requires !Has(head, ThinkClose)
    ensures SplitOnce(head + ThinkClose + tail, ThinkClose) == Some((head, tail))
  {
    LeadOnce(head, ThinkClose);
    SplitClean(head, ThinkClose, tail);
  }

  lemma TurnPieces(a: string, b: string, c: string, d: string)
    ensures a + b + "\n\n" + c + d == a + b + ("\n\n" + c + d)
  {
  }

  lemma ReasoningParses(r: string)
    requires !Has(r, ThinkOpen) && Trimmed(r, IsSpace)
    ensures JinjaTrim(AfterLast(ThinkOpen + "\n" + r + "\n", ThinkOpen)) == r
  {
    var tail := "\n" + r + "\n";
    ShortHasNone("", ThinkOpen);
    HasAround("", '\n', r, ThinkOpen);
    HasAround("\n" + r, '\n', "", ThinkOpen);
    assert "" + "\n" + r == "\n" + r && "\n" + r + "\n" + "" == tail;
    OnlyFirst(ThinkOpen, tail);
    assert ThinkOpen + "\n" + r + "\n" == "" + ThinkOpen + tail;
    TrimPad("\n", r, "\n", IsSpace);
    TrimOfTrimmed(r, IsSpace);
  }

  /** After a tag whose first character does not recur in it, only the tail can hold another. */
  lemma OnlyFirst(pat: string, tail: string)
    requires pat != "" && !Has(tail, pat) && forall o :: 0 < o < |pat| ==> pat[o] != pat[0]
    ensures AfterLast("" + pat + tail, pat) == tail
  {
    var s := "" + pat + tail;
    assert s == pat + tail;
    forall j: nat | 0 < j ensures !At(s, pat, j) {
      if At(s, pat, j) {
        CharInside(s, pat, j, j);
        assert j >= |pat|;
        assert s[j..j + |pat|] == tail[j - |pat|..j];
        assert At(tail, pat, j - |pat|);
      }
    }
    AfterLastIs("", pat, tail);
  }

  lemma BodyStart(content: string, calls: seq<Call>)
    requires Trimmed(content, IsSpace)
    ensures TrimStart("\n\n" + content + CallsText(content, calls), IsNewline) == content + CallsText(content, calls)
  {
    BodyStartsBare(content, calls);
    BlankLineDropped(content, CallsText(content, calls));
  }

  lemma BlankLineDropped(a: string, b: string)
    requires a + b == "" || (a + b)[0] != '\n'
    ensures TrimStart("\n\n" + a + b, IsNewline) == a + b
  {
    Regroup("\n\n", a, b);
    PaddingDropped("\n\n", a + b);
  }

  lemma PaddingDropped(w: string, s: string)
    requires AllIn(w, IsNewline) && (s == "" || s[0] != '\n')
    ensures TrimStart(w + s, IsNewline) == s
  {
    StartPad(w, s, IsNewline);
  }

  lemma BodyStartsBare(content: string, calls: seq<Call>)
    requires Trimmed(content, IsSpace)
    ensures var body := content + CallsText(content, calls); body == "" || body[0] != '\n'
  {
    if content != "" {
      assert (content + CallsText(content, calls))[0] == content[0];
      assert IsSpace('\n');
    } else if calls != [] {
      TrimOfTrimmed(content, IsSpace);
      CallStarts(calls[0], MoreCalls(calls[1..]));
    }
  }

  lemma CallStarts(c: Call, rest: string)
    ensures ("" + CallText(c) + rest) != "" && ("" + CallText(c) + rest)[0] == '<'
    ensures "" + ("" + CallText(c) + rest) == "" + CallText(c) + rest
  {
    assert CallText(c)[0] == CallOpen[0];
  }

  /** Turns that survive a round trip. */
  ghost predicate Sound(r: string, content: string, calls: seq<Call>) {
    && Trimmed(r, IsSpace) && !Has(r, ThinkOpen) && !Has(r, ThinkClose)
    && Trimmed(content, IsSpace) && CleanContent(content, calls)
    && CleanCalls(calls)
  }

  lemma SoundParses(r: string, content: string, calls: seq<Call>)
    requires Sound(r, content, calls)
    ensures ParseAssistant(TurnText(r, content, calls)) == Reply(Some(r), content, calls)
  {
    TurnSplits(r, content, calls);
    ReasoningParses(r);
    BodyStart(content, calls);
    BodyParses(content, calls);
  }

  lemma HasClose(a: string, pat: string, b: string)
    ensures Has(a + pat + b, pat)
  {
    var s := a + pat + b;
    assert s[|a|..|a| + |pat|] == pat;
    assert At(s, pat, |a|);
  }

  lemma ReasoningIsClean(text: string)
    requires Has(text, ThinkClose)
    ensures var r := ParseAssistant(text).reasoning;
            r.Some? && Trimmed(r.value, IsSpace) && !Has(r.value, ThinkOpen) && !Has(r.value, ThinkClose)
  {
    HeadHasNone(text, ThinkClose);
    var head := SplitOnce(text, ThinkClose).value.0;
    var last := AfterLast(head, ThinkOpen);
    AfterLastHasNone(head, ThinkOpen);
    AfterLastSuffix(head, ThinkOpen);
    NotInSuffix(head, last, ThinkClose);
    TrimKeepsNone(last, IsSpace, ThinkOpen);
    TrimKeepsNone(last, IsSpace, ThinkClose);
  }

  lemma AfterLastSuffix(s: string, pat: string)
    ensures var r := AfterLast(s, pat); |r| <= |s| && s[|s| - |r|..] == r
  {
  }

  lemma BodyIsClean(body: string)
    ensures var (content, calls) := ParseBody(body);
            && Trimmed(content, IsSpace) && CleanCalls(calls)
            && (ParseCalls(body).Ok? ==> !Has(content, CallOpen))
            && (ParseCalls(body).Err? ==> calls == [] && content == JinjaTrim(body))
  {
    if ParseCalls(body).Ok? {
      CallsAreClean(body);
      TrimKeepsNone(BeforeCalls(body), IsSpace, CallOpen);
    }
  }

  lemma ParsedIsSound(r: string, content: string, calls: seq<Call>)
    requires ParseAssistant(TurnText(r, content, calls)) == Reply(Some(r), content, calls)
    ensures Sound(r, content, calls)
  {
    var text := TurnText(r, content, calls);
    TurnIs(r, content, calls);
    HasClose(ThinkOpen + "\n" + r + "\n", ThinkClose, "\n\n" + content + CallsText(content, calls));
    ReasoningIsClean(text);
    TurnSplits(r, content, calls);
    var body := TrimStart("\n\n" + content + CallsText(content, calls), IsNewline);
    BodyIsClean(body);
    BodyStart(content, calls);
    assert calls == [] ==> body == content;
  }

  /** The parser recovers a rendered turn exactly when the turn is sound. */
  lemma ParseRecovers(r: string, content: string, calls: seq<Call>)
    ensures ParseAssistant(TurnText(r, content, calls)) == Reply(Some(r), content, calls)
       <==> Sound(r, content, calls)
  {
    if Sound(r, content, calls) {
      SoundParses(r, content, calls);
    }
    if ParseAssistant(TurnText(r, content, calls)) == Reply(Some(r), content, calls) {
      ParsedIsSound(r, content, calls);
    }
  }

  // ------------------------------------------------------------------ replies without thinking

  /** A body is recovered exactly if its content and calls are clean. */
  lemma BodyRecovers(content: string, calls: seq<Call>)
    ensures ParseBody(content + CallsText(content, calls)) == (content, calls)
       <==> Trimmed(content, IsSpace) && CleanContent(content, calls) && CleanCalls(calls)
  {
    if Trimmed(content, IsSpace) && CleanContent(content, calls) && CleanCalls(calls) {
      BodyParses(content, calls);
    }
    if ParseBody(content + CallsText(content, calls)) == (content, calls) {
      BodyIsClean(content + CallsText(content, calls));
      assert calls == [] ==> content + CallsText(content, calls) == content;
    }
  }

  /** A text without a closing think tag has no reasoning, and its content and calls come back
      exactly if they are clean. */
  lemma PlainRecovers(content: string, calls: seq<Call>)
    requires !Has(content + CallsText(content, calls), ThinkClose)
    ensures ParseAssistant(content + CallsText(content, calls)).reasoning == None
    ensures ParseAssistant(content + CallsText(content, calls)) == Reply(None, content, calls)
       <==> Trimmed(content, IsSpace) && CleanContent(content, calls) && CleanCalls(calls)
  {
    BodyRecovers(content, calls);
  }
}
