/** A reader for rendered conversations (qwen35-forward/gdn/src/chat.rs): cut at the start markers
    they fall apart into who said what, with the tool responses between two turns grouped. */
module ChatReading {
  import opened Options
  import opened Text
  import opened ChatParse
  import opened ChatTemplate
  import opened ChatRoundTrip

  // ------------------------------------------------------------------ the reader

  /** What is said in one piece of the text. */
  datatype Said =
    | SystemText(text: string)
    | UserText(text: string)
    | Answer(reply: Reply)
    | Responses(texts: seq<string>)
    | Begun(text: string)
    | Unknown

  /** The pieces between start markers, the first being what precedes them all. */
  function Cut(text: string): (r: seq<string>)
    ensures |r| > 0
    decreases |text|
  {
    var c := SplitOnce(text, ImStart);
    if c.None? then [text] else [c.value.0] + Cut(c.value.1)
  }

  const ResponseOpen := "<tool_response>\n"
  const ResponseClose := "\n</tool_response>"
  const ResponseNext := "\n</tool_response>\n<tool_response>\n"

  /** The texts between response tags. */
  function ReadResponses(body: string): (r: seq<string>)
    decreases |body|
  {
    var c := SplitOnce(body, ResponseNext);
    if c.None? then [body] else [c.value.0] + ReadResponses(c.value.1)
  }

  function ReadUser(body: string): Said {
    var inner := StripPrefix(body, ResponseOpen);
    if inner.None? then UserText(body) else
    var texts := StripSuffix(inner.value, ResponseClose);
    if texts.None? then UserText(body) else Responses(ReadResponses(texts.value))
  }

  /** Speaker and body; a piece that has not ended has been begun for the model to go on. */
  function ReadPiece(piece: string): Said {
    var e := StripSuffix(piece, ImEnd);
    if e.None? then Begun(piece) else
    var h := SplitOnce(e.value, "\n");
    if h.None? then Unknown
    else if h.value.0 == "system" then SystemText(h.value.1)
    else if h.value.0 == "user" then ReadUser(h.value.1)
    else if h.value.0 == "assistant" then Answer(ParseAssistant(h.value.1))
    else Unknown
  }

  function ReadPieces(pieces: seq<string>): (r: seq<Said>)
    ensures |r| == |pieces|
  {
    seq(|pieces|, i requires 0 <= i < |pieces| => ReadPiece(pieces[i]))
  }

  function ReadConversation(text: string): Option<seq<Said>> {
    var pieces := Cut(text);
    if pieces[0] != "" then None else Some(ReadPieces(pieces[1..]))
  }

  // ------------------------------------------------------------------ cutting

  /** Pieces, each behind a start marker. */
  function Joined(pieces: seq<string>): string {
    if pieces == [] then "" else ImStart + pieces[0] + Joined(pieces[1..])
  }

  ghost predicate Unmarked(pieces: seq<string>) {
    forall i :: 0 <= i < |pieces| ==> !Has(pieces[i], ImStart)
  }

  lemma CutAt(head: string, tail: string)
    requires !Has(head, ImStart)
    ensures Cut(head + ImStart + tail) == [head] + Cut(tail)
  {
    LeadOnce(head, ImStart);
    SplitClean(head, ImStart, tail);
  }

  lemma CutNothing(text: string)
    requires !Has(text, ImStart)
    ensures Cut(text) == [text]
  {
  }

  /** Cutting a text behind which marked pieces follow gives it and the pieces. */
  lemma {:induction false} CutJoined(head: string, pieces: seq<string>)
    requires !Has(head, ImStart) && Unmarked(pieces)
    ensures Cut(head + Joined(pieces)) == [head] + pieces
    decreases |pieces|
  {
    if pieces == [] {
      assert head + Joined(pieces) == head;
      CutNothing(head);
    } else {
      var rest := pieces[1..];
      CutJoined(pieces[0], rest);
      CutAt(head, pieces[0] + Joined(rest));
      FourParts(head, ImStart, pieces[0], Joined(rest));
      assert pieces == [pieces[0]] + rest;
    }
  }

  lemma FourParts(a: string, b: string, c: string, d: string)
    ensures a + (b + c + d) == a + b + (c + d)
  {
  }

  lemma {:induction false} JoinedAppend(a: seq<string>, b: seq<string>)
    ensures Joined(a + b) == Joined(a) + Joined(b)
    decreases |a|
  {
    if a == [] {
      assert a + b == b;
    } else {
      JoinedAppend(a[1..], b);
      assert (a + b)[1..] == a[1..] + b;
      Regroup(ImStart + a[0], Joined(a[1..]), Joined(b));
    }
  }

  // ------------------------------------------------------------------ what the pieces are read as

  lemma ReadsAs(speaker: string, body: string)
    requires !Has(speaker, "\n")
    ensures StripSuffix(speaker + "\n" + body + ImEnd, ImEnd) == Some(speaker + "\n" + body)
    ensures SplitOnce(speaker + "\n" + body, "\n") == Some((speaker, body))
  {
    Suffixed(speaker + "\n" + body, ImEnd);
    assert "\n"[..|"\n"| - 1] == "";
    assert speaker + "" == speaker;
    SplitClean(speaker, "\n", body);
  }

  lemma Suffixed(s: string, post: string)
    ensures StripSuffix(s + post, post) == Some(s)
  {
  }

  lemma OneWord(word: string)
    requires forall i :: 0 <= i < |word| ==> word[i] != '\n'
    ensures !Has(word, "\n")
  {
    forall j: nat ensures !At(word, "\n", j) {
      if j < |word| {
        assert word[j..j + 1][0] == word[j];
      }
    }
  }

  lemma SystemRead(body: string)
    ensures ReadPiece("system" + "\n" + body + ImEnd) == SystemText(body)
  {
    OneWord("system");
    ReadsAs("system", body);
  }

  lemma UserRead(body: string)
    ensures ReadPiece("user" + "\n" + body + ImEnd) == ReadUser(body)
  {
    OneWord("user");
    ReadsAs("user", body);
  }

  lemma AnswerRead(body: string)
    ensures ReadPiece("assistant" + "\n" + body + ImEnd) == Answer(ParseAssistant(body))
  {
    OneWord("assistant");
    ReadsAs("assistant", body);
  }

  // ------------------------------------------------------------------ grouped responses

  /** Responses as they are written one after another. */
  function ResponsesText(texts: seq<string>): string {
    if texts == [] then "" else "\n" + ResponseOpen + texts[0] + ResponseClose + ResponsesText(texts[1..])
  }

  /** The same between the first opening and the last closing tag. */
  function Inner(texts: seq<string>): string
    requires texts != []
  {
    if |texts| == 1 then texts[0] else texts[0] + ResponseNext + Inner(texts[1..])
  }

  lemma {:induction false} ResponsesAre(texts: seq<string>)
    requires texts != []
    ensures ResponsesText(texts) == "\n" + (ResponseOpen + Inner(texts) + ResponseClose)
    decreases |texts|
  {
    if |texts| == 1 {
      assert ResponsesText(texts[1..]) == "";
      LastResponse("\n", ResponseOpen, texts[0], ResponseClose);
    } else {
      ResponsesAre(texts[1..]);
      Separator();
      MoreResponses("\n", ResponseOpen, texts[0], ResponseClose, Inner(texts[1..]));
    }
  }

  lemma Separator()
    ensures ResponseNext == ResponseClose + "\n" + ResponseOpen
  {
  }

  lemma LastResponse(n: string, a: string, b: string, c: string)
    ensures n + a + b + c + "" == n + (a + b + c)
  {
  }

  lemma MoreResponses(n: string, a: string, b: string, c: string, d: string)
    ensures n + a + b + c + (n + (a + d + c)) == n + (a + (b + (c + n + a) + d) + c)
  {
    assert n + a + b + c + (n + (a + d + c)) == n + (a + b + c + n + a + d + c);
    assert b + (c + n + a) + d == b + c + n + a + d;
  }

  /** Responses in which no response seems to end. */
  ghost predicate Separate(texts: seq<string>) {
    forall i :: 0 <= i < |texts| ==> !Has(texts[i] + "\n", "\n</tool_response>\n")
  }

  lemma {:induction false} ResponsesRead(texts: seq<string>)
    requires texts != [] && Separate(texts)
    ensures ReadResponses(Inner(texts)) == texts
    decreases |texts|
  {
    if |texts| == 1 {
      OneResponse(texts[0]);
    } else {
      ResponsesRead(texts[1..]);
      NextResponse(texts[0], Inner(texts[1..]));
      assert texts == [texts[0]] + texts[1..];
    }
  }

  lemma OneResponse(text: string)
    requires !Has(text + "\n", "\n</tool_response>\n")
    ensures ReadResponses(text) == [text]
  {
    if Has(text, ResponseNext) {
      var i: nat :| At(text, ResponseNext, i);
      FoundEnd(text, i);
    }
  }

  lemma FoundEnd(text: string, i: nat)
    requires At(text, ResponseNext, i)
    ensures Has(text + "\n", "\n</tool_response>\n")
  {
    var pat := "\n</tool_response>\n";
    assert ResponseNext[..|pat|] == pat;
    var t := text + "\n";
    assert text[i..i + |ResponseNext|][..|pat|] == text[i..i + |pat|] == t[i..i + |pat|];
    assert At(t, pat, i);
  }

  lemma NextResponse(text: string, rest: string)
    requires !Has(text + "\n", "\n</tool_response>\n")
    ensures ReadResponses(text + ResponseNext + rest) == [text] + ReadResponses(rest)
  {
    FirstEnd(text, rest);
    SplitOnceIs(text, ResponseNext, rest);
  }

  /** The separator does not begin inside the text. */
  lemma FirstEnd(text: string, rest: string)
    requires !Has(text + "\n", "\n</tool_response>\n")
    ensures forall j: nat :: j < |text| ==> !At(text + ResponseNext + rest, ResponseNext, j)
  {
    var s, pat := text + ResponseNext + rest, "\n</tool_response>\n";
    forall j: nat | j < |text| ensures !At(s, ResponseNext, j) {
      EarlyEnd(text, rest, j);
    }
  }

  lemma EarlyEnd(text: string, rest: string, j: nat)
    requires !Has(text + "\n", "\n</tool_response>\n") && j < |text|
    ensures !At(text + ResponseNext + rest, ResponseNext, j)
  {
    var s, pat := text + ResponseNext + rest, "\n</tool_response>\n";
    assert ResponseNext[..|pat|] == pat;
    assert s[|text|] == ResponseNext[0] == '\n';
    if j + |pat| <= |text| + 1 {
      var t := text + "\n";
      Firsts(text, '\n', s);
      assert !At(t, pat, j);
      assert s[j..j + |pat|] == t[j..j + |pat|];
      StartOf(s, ResponseNext, pat, j);
    } else {
      Straddles(s, |text|, j);
    }
  }

  lemma Firsts(text: string, c: char, s: string)
    requires |text| < |s| && s[..|text|] == text && s[|text|] == c
    ensures s[..|text| + 1] == text + [c]
  {
  }

  /** Where a text begins, its beginning begins. */
  lemma StartOf(s: string, pat: string, pre: string, j: nat)
    requires pre <= pat && j + |pre| <= |s| && s[j..j + |pre|] != pre
    ensures !At(s, pat, j)
  {
    if j + |pat| <= |s| {
      assert s[j..j + |pat|][..|pre|] == s[j..j + |pre|];
    }
  }

  /** The tag before the separator's second newline has none. */
  lemma Straddles(s: string, n: nat, j: nat)
    requires n < |s| && s[n] == '\n' && j < n < j + 17
    ensures !At(s, ResponseNext, j)
  {
    if j + |ResponseNext| <= |s| {
      assert s[j..j + |ResponseNext|][n - j] == s[n];
      TagHasNoLine(n - j);
    }
  }

  lemma TagHasNoLine(o: nat)
    requires 0 < o < 17
    ensures ResponseNext[o] != '\n'
  {
    assert ResponseNext == ResponseClose + ("\n" + ResponseOpen);
    assert |ResponseClose| == 17;
    var tag := "</tool_response>";
    assert ResponseClose == "\n" + tag;
    assert ResponseClose[o] == tag[o - 1];
    assert '\n' !in tag;
  }

  lemma GroupRead(texts: seq<string>)
    requires texts != [] && Separate(texts)
    ensures ReadPiece("user" + ResponsesText(texts) + ImEnd) == Responses(texts)
  {
    var body := ResponseOpen + Inner(texts) + ResponseClose;
    ResponsesAre(texts);
    Regroup("user", "\n", body);
    UserRead(body);
    ResponsesRead(texts);
    WrappedRead(Inner(texts));
  }

  lemma WrappedRead(inner: string)
    ensures ReadUser(ResponseOpen + inner + ResponseClose) == Responses(ReadResponses(inner))
  {
    StripOf(ResponseOpen, inner + ResponseClose);
    Regroup(ResponseOpen, inner, ResponseClose);
    Suffixed(inner, ResponseClose);
  }
}
