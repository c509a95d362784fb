/** Reading back what the model wrote (qwen35-forward/gdn/src/chatparse.rs): the think block
    and the tool calls. */
module ChatParse {
  import opened Options
  import opened Text

  const ThinkOpen := "<think>"
  const ThinkClose := "</think>"
  const CallOpen := "<tool_call>"
  const CallClose := "</tool_call>"
  const FunctionOpen := "<function="
  const FunctionClose := "</function>"
  const ParameterOpen := "<parameter="
  const ParameterClose := "\n</parameter>"
  const ParameterCloseLine := "\n</parameter>\n"
  const NameClose := ">\n"

  datatype Arg = Arg(key: string, value: string)

  datatype Call = Call(name: string, args: seq<Arg>)

  datatype Reply = Reply(reasoning: Option<string>, content: string, calls: seq<Call>)

  datatype ParseError =
    | CallNeverClosed
    | NotAFunction
    | FunctionNameNotClosed
    | EmptyName
    | FunctionNeverClosed(name: string)
    | ExpectedParameter
    | ParameterKeyNotClosed
    | ParameterNeverClosed(key: string)

  datatype Result<+T> = Ok(value: T) | Err(error: ParseError)

  // ------------------------------------------------------------------ what the parser computes

  function StripPrefix(s: string, pre: string): (r: Option<string>)
    ensures r.Some? ==> s == pre + r.value
  {
    if |pre| <= |s| && s[..|pre|] == pre then Some(s[|pre|..]) else None
  }

  function StripSuffix(s: string, post: string): (r: Option<string>)
    ensures r.Some? ==> s == r.value + post
  {
    if |post| <= |s| && s[|s| - |post|..] == post then Some(s[..|s| - |post|]) else None
  }

  /** A parameter's value ends at the closing tag on a line of its own, or else at any. */
  function SplitValue(s: string): (r: Option<(string, string)>)
    ensures r.Some? ==> |r.value.1| < |s|
  {
    var line := SplitOnce(s, ParameterCloseLine);
    if line.Some? then line else SplitOnce(s, ParameterClose)
  }

  /** The key, the value and the remaining text of a `<parameter=` block. */
  function ParseArg(rest: string): (r: Result<(Arg, string)>)
    ensures r.Ok? ==> |r.value.1| < |rest|
  {
    var r := StripPrefix(rest, ParameterOpen);
    if r.None? then Err(ExpectedParameter) else
    var k := SplitOnce(r.value, NameClose);
    if k.None? then Err(ParameterKeyNotClosed) else
    var v := SplitValue(k.value.1);
    if v.None? then Err(ParameterNeverClosed(k.value.0)) else
    StartParts(v.value.1, IsNewline);
    Ok((Arg(k.value.0, v.value.0), TrimStart(v.value.1, IsNewline)))
  }

  function ParseArgs(rest: string): (r: Result<seq<Arg>>)
    ensures r == Ok([]) <==> rest == ""
    decreases |rest|
  {
    if rest == "" then Ok([]) else
    var first := ParseArg(rest);
    if first.Err? then Err(first.error) else
    var tail := ParseArgs(first.value.1);
    if tail.Err? then tail else Ok([first.value.0] + tail.value)
  }

  /** The function name and the text of its parameters. */
  function ParseHead(body: string): (r: Result<(string, string)>)
  {
    var f := StripPrefix(Trim(body, IsNewline), FunctionOpen);
    if f.None? then Err(NotAFunction) else
    var n := SplitOnce(f.value, NameClose);
    if n.None? then Err(FunctionNameNotClosed) else
    if n.value.0 == "" then Err(EmptyName) else
    var inner := StripSuffix(TrimEnd(n.value.1, IsNewline), FunctionClose);
    if inner.None? then Err(FunctionNeverClosed(n.value.0)) else
    Ok((n.value.0, Trim(inner.value, IsNewline)))
  }

  function ParseOne(body: string): (r: Result<Call>)
  {
    var head := ParseHead(body);
    if head.Err? then Err(head.error) else
    var args := ParseArgs(head.value.1);
    if args.Err? then Err(args.error) else Ok(Call(head.value.0, args.value))
  }

  /** The inside of the first block and the text after it. */
  function NextBlock(text: string): (r: Result<(string, string)>)
    requires Has(text, CallOpen)
    ensures r.Ok? ==> |r.value.1| < |text|
  {
    var after := text[Find(text, CallOpen).value + |CallOpen|..];
    var cut := SplitOnce(after, CallClose);
    if cut.None? then Err(CallNeverClosed) else Ok(cut.value)
  }

  /** The first block's call and the text after it. */
  function FirstCall(text: string): (r: Result<(Call, string)>)
    requires Has(text, CallOpen)
    ensures r.Ok? ==> |r.value.1| < |text|
  {
    var block := NextBlock(text);
    if block.Err? then Err(block.error) else
    var one := ParseOne(Trim(block.value.0, IsNewline));
    if one.Err? then Err(one.error) else Ok((one.value, block.value.1))
  }

  function ParseCalls(text: string): (r: Result<seq<Call>>)
    decreases |text|
  {
    if Find(text, CallOpen).None? then Ok([]) else
    var first := FirstCall(text);
    if first.Err? then Err(first.error) else
    var tail := ParseCalls(first.value.1);
    if tail.Err? then tail else Ok([first.value.0] + tail.value)
  }

  /** The text before the first block. */
  function BeforeCalls(body: string): (r: string)
    ensures !Has(body, CallOpen) ==> r == body
    ensures |r| <= |body| && r == body[..|r|]
    ensures !Has(r, CallOpen)
  {
    var cut := Find(body, CallOpen);
    if cut.None? then body
    else
      assert !Has(body[..cut.value], CallOpen) by {
        forall j: nat | At(body[..cut.value], CallOpen, j) ensures false {
          assert body[j..j + |CallOpen|] == body[..cut.value][j..j + |CallOpen|];
          assert At(body, CallOpen, j);
        }
      }
      body[..cut.value]
  }

  function ParseBody(body: string): (r: (string, seq<Call>))
  {
    var calls := ParseCalls(body);
    if calls.Ok? then (JinjaTrim(BeforeCalls(body)), calls.value) else (JinjaTrim(body), [])
  }

  /** `parse_assistant`. */
  function ParseAssistant(text: string): (r: Reply)
  {
    var cut := SplitOnce(text, ThinkClose);
    if cut.Some? then
      var (content, calls) := ParseBody(TrimStart(cut.value.1, IsNewline));
      Reply(Some(JinjaTrim(AfterLast(cut.value.0, ThinkOpen))), content, calls)
    else
      var (content, calls) := ParseBody(text);
      Reply(None, content, calls)
  }

  // ------------------------------------------------------------------ the loops

  function Prepended<T>(done: seq<T>, r: Result<seq<T>>): Result<seq<T>> {
    if r.Ok? then Ok(done + r.value) else r
  }

  lemma PrependedEnds<T>(done: seq<T>, r: Result<seq<T>>)
    ensures Prepended([], r) == r
    ensures r == Ok([]) ==> Prepended(done, r) == Ok(done)
  {
    assert r.Ok? ==> [] + r.value == r.value;
    assert r == Ok([]) ==> done + r.value == done;
  }

  lemma NextArg(done: seq<Arg>, rest: string)
    requires rest != ""
    ensures ParseArg(rest).Err? ==> Prepended(done, ParseArgs(rest)) == Err(ParseArg(rest).error)
    ensures ParseArg(rest).Ok? ==>
      Prepended(done, ParseArgs(rest)) == Prepended(done + [ParseArg(rest).value.0], ParseArgs(ParseArg(rest).value.1))
  {
    if ParseArg(rest).Ok? {
      var (a, next) := ParseArg(rest).value;
      var tail := ParseArgs(next);
      assert tail.Ok? ==> done + ([a] + tail.value) == (done + [a]) + tail.value;
    }
  }

  method ParseNextArg(ghost done: seq<Arg>, rest: string) returns (r: Result<(Arg, string)>)
    requires rest != ""
    ensures r.Err? ==> Prepended(done, ParseArgs(rest)) == Err(r.error)
    ensures r.Ok? ==> |r.value.1| < |rest|
                      && Prepended(done, ParseArgs(rest)) == Prepended(done + [r.value.0], ParseArgs(r.value.1))
  {
    NextArg(done, rest);
    r := ParseArg(rest);
  }

  /** The loop of `parse_one` over the parameters that remain. */
  method ParseArgLoop(text: string) returns (r: Result<seq<Arg>>)
    ensures r == ParseArgs(text)
  {
    var args: seq<Arg> := [];
    var rest := text;
    PrependedEnds(args, ParseArgs(text));
    while rest != ""
      invariant ParseArgs(text) == Prepended(args, ParseArgs(rest))
      decreases |rest|
    {
      var first := ParseNextArg(args, rest);
      if first.Err? {
        return Err(first.error);
      }
      args := args + [first.value.0];
      rest := first.value.1;
    }
    PrependedEnds(args, ParseArgs(rest));
    r := Ok(args);
  }

  /** `parse_one`. */
  method ParseOneCall(body: string) returns (r: Result<Call>)
    ensures r == ParseOne(body)
  {
    var head := ParseHead(body);
    if head.Err? {
      return Err(head.error);
    }
    var args := ParseArgLoop(head.value.1);
    r := if args.Err? then Err(args.error) else Ok(Call(head.value.0, args.value));
  }

  lemma NextCall(done: seq<Call>, rest: string)
    requires Has(rest, CallOpen)
    ensures FirstCall(rest).Err? ==> ParseCalls(rest) == Err(FirstCall(rest).error)
    ensures FirstCall(rest).Ok? ==>
      Prepended(done, ParseCalls(rest)) == Prepended(done + [FirstCall(rest).value.0], ParseCalls(FirstCall(rest).value.1))
  {
    if FirstCall(rest).Ok? {
      ParsedTail(rest);
      var (c, next) := FirstCall(rest).value;
      PrependedTwice(done, c, ParseCalls(next));
    }
  }

  lemma ParsedTail(rest: string)
    requires Has(rest, CallOpen) && FirstCall(rest).Ok?
    ensures ParseCalls(rest) == Prepended([FirstCall(rest).value.0], ParseCalls(FirstCall(rest).value.1))
  {
  }

  lemma PrependedTwice<T>(done: seq<T>, x: T, r: Result<seq<T>>)
    ensures Prepended(done, Prepended([x], r)) == Prepended(done + [x], r)
  {
    assert r.Ok? ==> done + ([x] + r.value) == (done + [x]) + r.value;
  }

  method ParseNextCall(ghost done: seq<Call>, rest: string) returns (r: Result<(Call, string)>)
    requires Has(rest, CallOpen)
    ensures r.Err? ==> Prepended(done, ParseCalls(rest)) == Err(r.error)
    ensures r.Ok? ==> |r.value.1| < |rest|
                      && Prepended(done, ParseCalls(rest)) == Prepended(done + [r.value.0], ParseCalls(r.value.1))
  {
    NextCall(done, rest);
    var block := NextBlock(rest);
    if block.Err? {
      return Err(block.error);
    }
    var one := ParseOneCall(Trim(block.value.0, IsNewline));
    r := if one.Err? then Err(one.error) else Ok((one.value, block.value.1));
  }

  lemma NoMoreCalls(rest: string)
    requires !Has(rest, CallOpen)
    ensures ParseCalls(rest) == Ok([])
  {
  }

  /** `parse_tool_calls`. */
  method ParseToolCalls(text: string) returns (r: Result<seq<Call>>)
    ensures r == ParseCalls(text)
  {
    var out: seq<Call> := [];
    var rest := text;
    PrependedEnds(out, ParseCalls(text));
    while Find(rest, CallOpen).Some?
      invariant ParseCalls(text) == Prepended(out, ParseCalls(rest))
      decreases |rest|
    {
      var next := ParseNextCall(out, rest);
      if next.Err? {
        return Err(next.error);
      }
      out := out + [next.value.0];
      rest := next.value.1;
    }
    NoMoreCalls(rest);
    PrependedEnds(out, ParseCalls(rest));
    r := Ok(out);
  }

  // ------------------------------------------------------------------ what can come out

  /** Names and keys that survive a round trip. The closing `>` counts: a name ending in
      `</tool_call` would close the block. */
  ghost predicate CleanKey(k: string) {
    !Has(k, NameClose) && !Has(k + ">", CallClose)
  }

  /** Values that survive: only the last one is cut at any closing tag. */
  ghost predicate CleanValue(v: string, last: bool) {
    && !Has(v, CallClose)
    && if last then !Has(v, ParameterClose) else !Has(v + "\n", ParameterCloseLine)
  }

  ghost predicate CleanArgs(args: seq<Arg>) {
    args == [] || (CleanKey(args[0].key) && CleanValue(args[0].value, |args| == 1) && CleanArgs(args[1..]))
  }

  ghost predicate CleanCall(c: Call) {
    c.name != "" && CleanKey(c.name) && CleanArgs(c.args)
  }

  ghost predicate CleanCalls(calls: seq<Call>) {
    forall i :: 0 <= i < |calls| ==> CleanCall(calls[i])
  }

  lemma KeyIsClean(s: string)
    requires SplitOnce(s, NameClose).Some? && !Has(s, CallClose)
    ensures CleanKey(SplitOnce(s, NameClose).value.0)
    ensures var tail := SplitOnce(s, NameClose).value.1; |tail| < |s| && s[|s| - |tail|..] == tail && !Has(tail, CallClose)
  {
    HeadHasNone(s, NameClose);
    SplitParts(s, NameClose);
    var (k, tail) := SplitOnce(s, NameClose).value;
    NotInPrefix(s, k + ">", CallClose);
    NotInSuffix(s, tail, CallClose);
  }

  /** A value cut at a closing line: nor does it become one by the newline that follows it. */
  lemma HeadWithNext(s: string, pat: string)
    requires SplitOnce(s, pat).Some? && |pat| > 1
    ensures !Has(SplitOnce(s, pat).value.0 + [pat[0]], pat)
  {
    HeadHasNone(s, pat);
    SplitParts(s, pat);
    var v := SplitOnce(s, pat).value.0 + [pat[0]];
    forall j: nat | At(v, pat, j) ensures false {
      assert s[j..j + |pat|] == s[..|v|][j..j + |pat|];
      assert At(s, pat, j);
    }
  }

  /** A value without a closing tag has no closing line either. */
  lemma NoTagNoLine(v: string, tag: string, c: char)
    requires !Has(v, tag)
    ensures !Has(v + [c], tag + [c])
  {
    forall j: nat | At(v + [c], tag + [c], j) ensures false {
      var n := |tag|;
      var w := (v + [c])[j..j + n + 1];
      assert w[..n] == tag;
      assert v[j..j + n] == w[..n];
      assert At(v, tag, j);
    }
  }

  lemma ValueParts(s: string)
    requires SplitValue(s).Some?
    ensures var (v, after) := SplitValue(s).value;
            && |v| <= |s| && s[..|v|] == v && |after| <= |s| && s[|s| - |after|..] == after
  {
    if SplitOnce(s, ParameterCloseLine).Some? {
      SplitParts(s, ParameterCloseLine);
    } else {
      SplitParts(s, ParameterClose);
    }
  }

  lemma ValueIsClean(s: string)
    requires SplitValue(s).Some? && EndsBare(s) && !Has(s, CallClose)
    ensures var (v, after) := SplitValue(s).value; CleanValue(v, TrimStart(after, IsNewline) == "")
  {
    var (v, after) := SplitValue(s).value;
    ValueParts(s);
    NotInPrefix(s, v, CallClose);
    if SplitOnce(s, ParameterCloseLine).Some? {
      HeadWithNext(s, ParameterCloseLine);
      LineNotAtEnd(s, v, ParameterCloseLine, after);
    } else {
      HeadHasNone(s, ParameterClose);
      NoTagNoLine(v, ParameterClose, '\n');
      assert ParameterClose + ['\n'] == ParameterCloseLine;
    }
  }

  /** In a text that ends bare, a closing line is not followed by newlines only. */
  lemma LineNotAtEnd(s: string, v: string, pat: string, after: string)
    requires s == v + pat + after && pat != "" && EndsBare(s) && pat[|pat| - 1] == '\n'
    ensures TrimStart(after, IsNewline) != ""
  {
    if after == "" {
      LastChar(v, pat);
    } else if TrimStart(after, IsNewline) == "" {
      LastChar(v + pat, after);
      TrimmedAway(after);
    }
  }

  lemma LastChar(u: string, v: string)
    requires v != ""
    ensures (u + v)[|u + v| - 1] == v[|v| - 1]
  {
  }

  lemma TrimmedAway(s: string)
    requires s != "" && TrimStart(s, IsNewline) == ""
    ensures s[|s| - 1] == '\n'
  {
    StartParts(s, IsNewline);
    assert s[..|s|] == s;
    assert IsNewline(s[|s| - 1]);
  }

  /** One parsed parameter. */
  lemma ArgIsClean(rest: string)
    requires ParseArg(rest).Ok? && EndsBare(rest) && !Has(rest, CallClose)
    ensures var (a, next) := ParseArg(rest).value;
            && CleanKey(a.key) && CleanValue(a.value, next == "")
            && EndsBare(next) && !Has(next, CallClose)
  {
    var r := StripPrefix(rest, ParameterOpen).value;
    StripParts(rest, ParameterOpen);
    NotInSuffix(rest, r, CallClose);
    SuffixBare(rest, r);
    KeyIsClean(r);
    var s := SplitOnce(r, NameClose).value.1;
    SuffixBare(r, s);
    ValueIsClean(s);
    ValueParts(s);
    var after := SplitValue(s).value.1;
    NotInSuffix(s, after, CallClose);
    SuffixBare(s, after);
    TrimKeepsNone(after, IsNewline, CallClose);
    StartParts(after, IsNewline);
    SuffixBare(after, TrimStart(after, IsNewline));
  }

  lemma StripParts(s: string, pre: string)
    requires StripPrefix(s, pre).Some?
    ensures var r := StripPrefix(s, pre).value; |r| <= |s| && s[|s| - |r|..] == r
  {
  }

  lemma {:induction false} ArgsAreClean(rest: string)
    requires ParseArgs(rest).Ok? && EndsBare(rest) && !Has(rest, CallClose)
    ensures CleanArgs(ParseArgs(rest).value)
    decreases |rest|
  {
    if rest != "" {
      ArgIsClean(rest);
      var (a, next) := ParseArg(rest).value;
      ArgsAreClean(next);
      var args := ParseArgs(rest).value;
      assert args[0] == a && args[1..] == ParseArgs(next).value;
    }
  }

  /** The head of a call: a clean name, and parameters that end bare. */
  lemma HeadIsClean(body: string)
    requires ParseHead(body).Ok? && !Has(body, CallClose)
    ensures var (name, inner) := ParseHead(body).value;
            name != "" && CleanKey(name) && EndsBare(inner) && !Has(inner, CallClose)
  {
    var b := Trim(body, IsNewline);
    TrimKeepsNone(body, IsNewline, CallClose);
    var f := StripPrefix(b, FunctionOpen).value;
    StripParts(b, FunctionOpen);
    NotInSuffix(b, f, CallClose);
    KeyIsClean(f);
    var rest := SplitOnce(f, NameClose).value.1;
    var e := TrimEnd(rest, IsNewline);
    TrimKeepsNone(rest, IsNewline, CallClose);
    var inner := StripSuffix(e, FunctionClose).value;
    assert e[..|inner|] == inner;
    NotInPrefix(e, inner, CallClose);
    TrimKeepsNone(inner, IsNewline, CallClose);
  }

  lemma CallIsClean(body: string)
    requires ParseOne(body).Ok? && !Has(body, CallClose)
    ensures CleanCall(ParseOne(body).value)
  {
    HeadIsClean(body);
    ArgsAreClean(ParseHead(body).value.1);
  }

  lemma BlockIsClean(text: string)
    requires Has(text, CallOpen) && NextBlock(text).Ok?
    ensures !Has(NextBlock(text).value.0, CallClose)
  {
    HeadHasNone(text[Find(text, CallOpen).value + |CallOpen|..], CallClose);
  }

  lemma FirstIsClean(text: string)
    requires Has(text, CallOpen) && FirstCall(text).Ok?
    ensures CleanCall(FirstCall(text).value.0)
  {
    BlockIsClean(text);
    var block := NextBlock(text).value.0;
    TrimKeepsNone(block, IsNewline, CallClose);
    CallIsClean(Trim(block, IsNewline));
  }

  /** Every call the parser returns is clean. */
  lemma {:induction false} CallsAreClean(text: string)
    requires ParseCalls(text).Ok?
    ensures CleanCalls(ParseCalls(text).value)
    decreases |text|
  {
    if Has(text, CallOpen) {
      FirstIsClean(text);
      CallsAreClean(FirstCall(text).value.1);
    }
  }
}
