/** What a rendered conversation says (qwen35-forward/gdn/src/chat.rs): the reader of ChatReading
    recovers from the text every message of every request it can tell apart. */
module ChatConversation {
  import opened Options
  import opened Text
  import opened ChatParse
  import opened ChatTemplate
  import opened ChatRoundTrip
  import opened ChatReading

  // ------------------------------------------------------------------ the trimmed contents

  /** The trimmed contents of messages `i` on, images and videos counted along. */
  function Contents(ms: seq<Message>, i: nat, addVisionId: bool, images: nat, videos: nat): (r: Outcome<seq<string>>)
    requires i <= |ms|
    ensures r.Done? ==> |r.value| == |ms| - i
    decreases |ms| - i
  {
    if i == |ms| then Done([]) else
    var body := RenderContent(ms[i].content, true, false, addVisionId, images, videos);
    if body.Failed? then Failed(body.error) else
    var rest := Contents(ms, i + 1, addVisionId, body.value.images, body.value.videos);
    if rest.Failed? then rest else Done([JinjaTrim(body.value.text)] + rest.value)
  }

  /** What message `i` adds to the text, its trimmed content being `cs[i]`. */
  function Block(ms: seq<Message>, cs: seq<string>, i: nat, last: nat): string
    requires i < |ms| == |cs|
  {
    match ms[i].role
    case User => ImStart + "user\n" + cs[i] + ImEnd
    case Assistant => AssistantBlock(ms[i], cs[i], i > last)
    case Tool => ToolBlockText(ms, i, cs[i])
    case System => ""
    case Other(_) => ""
  }

  function Blocks(ms: seq<Message>, cs: seq<string>, i: nat, last: nat): string
    requires i <= |ms| == |cs|
    decreases |ms| - i
  {
    if i == |ms| then "" else Block(ms, cs, i, last) + Blocks(ms, cs, i + 1, last)
  }

  lemma BlockRendered(ms: seq<Message>, cs: seq<string>, i: nat, last: nat, addVisionId: bool, r: Rendered)
    requires i < |ms| == |cs| && AppendMessage(ms, i, last, addVisionId, r).Done?
    requires Contents(ms, i, addVisionId, r.images, r.videos) == Done(cs[i..])
    ensures var next := AppendMessage(ms, i, last, addVisionId, r).value;
            && next.text == r.text + Block(ms, cs, i, last)
            && Contents(ms, i + 1, addVisionId, next.images, next.videos) == Done(cs[i + 1..])
  {
    var body := RenderContent(ms[i].content, true, false, addVisionId, r.images, r.videos).value;
    var rest := Contents(ms, i + 1, addVisionId, body.images, body.videos);
    assert cs[i..] == [JinjaTrim(body.text)] + rest.value;
    assert cs[i..][0] == cs[i] && cs[i..][1..] == cs[i + 1..];
  }

  /** The messages' text is what was before and their blocks. */
  lemma {:induction false} BlocksRendered(ms: seq<Message>, cs: seq<string>, i: nat, last: nat, addVisionId: bool, r: Rendered)
    requires i <= |ms| == |cs| && Steps(|ms|, i, Appending(ms, last, addVisionId), r).Done?
    requires Contents(ms, i, addVisionId, r.images, r.videos) == Done(cs[i..])
    ensures Steps(|ms|, i, Appending(ms, last, addVisionId), r).value.text == r.text + Blocks(ms, cs, i, last)
    decreases |ms| - i
  {
    if i == |ms| {
      assert r.text + "" == r.text;
    } else {
      var next := AppendMessage(ms, i, last, addVisionId, r);
      BlockRendered(ms, cs, i, last, addVisionId, r);
      BlocksRendered(ms, cs, i + 1, last, addVisionId, next.value);
      Regroup(r.text, Block(ms, cs, i, last), Blocks(ms, cs, i + 1, last));
    }
  }

  /** Messages that render have contents. */
  lemma {:induction false} ContentsDone(ms: seq<Message>, i: nat, last: nat, addVisionId: bool, r: Rendered)
    requires i <= |ms| && Steps(|ms|, i, Appending(ms, last, addVisionId), r).Done?
    ensures Contents(ms, i, addVisionId, r.images, r.videos).Done?
    decreases |ms| - i
  {
    if i < |ms| {
      ContentsDone(ms, i + 1, last, addVisionId, AppendMessage(ms, i, last, addVisionId, r).value);
    }
  }

  // ------------------------------------------------------------------ the pieces

  /** Where the run of tool messages that `i` is in ends. */
  function RunEnd(ms: seq<Message>, i: nat): (n: nat)
    requires i < |ms|
    ensures i < n <= |ms| && (n < |ms| ==> ms[n].role != Tool)
    ensures forall j :: i < j < n ==> ms[j].role == Tool
    decreases |ms| - i
  {
    if i + 1 < |ms| && ms[i + 1].role == Tool then RunEnd(ms, i + 1) else i + 1
  }

  /** What an assistant message says behind its marker. */
  function AnswerBody(m: Message, content: string, afterQuery: bool): string {
    var (r, c) := SplitThinking(m.reasoning, content);
    if afterQuery then TurnText(r, c, Written(m.calls)) else c + CallsText(c, Written(m.calls))
  }

  function Piece(speaker: string, body: string): string {
    speaker + "\n" + body + ImEnd
  }

  function Group(texts: seq<string>): string {
    "user" + ResponsesText(texts) + ImEnd
  }

  /** The pieces of messages `i` on. */
  function Pieces(ms: seq<Message>, cs: seq<string>, i: nat, last: nat): seq<string>
    requires i <= |ms| == |cs|
    decreases |ms| - i
  {
    if i == |ms| then [] else
    match ms[i].role
    case User => [Piece("user", cs[i])] + Pieces(ms, cs, i + 1, last)
    case Assistant => [Piece("assistant", AnswerBody(ms[i], cs[i], i > last))] + Pieces(ms, cs, i + 1, last)
    case Tool => [Group(cs[i..RunEnd(ms, i)])] + Pieces(ms, cs, RunEnd(ms, i), last)
    case System => Pieces(ms, cs, i + 1, last)
    case Other(_) => Pieces(ms, cs, i + 1, last)
  }

  /** No run of tool messages begins before `i` and goes on at it. */
  predicate AtBoundary(ms: seq<Message>, i: nat) {
    i < |ms| && ms[i].role == Tool ==> i > 0 && ms[i - 1].role != Tool
  }

  lemma JoinedCons(piece: string, rest: seq<string>)
    ensures Joined([piece] + rest) == ImStart + piece + Joined(rest)
  {
    assert ([piece] + rest)[1..] == rest;
  }

  /** A run of tool messages is one group. */
  lemma {:induction false} RunText(ms: seq<Message>, cs: seq<string>, i: nat, n: nat, last: nat)
    requires 0 < i < n <= |ms| == |cs| && ms[i].role == Tool && n == RunEnd(ms, i)
    ensures Blocks(ms, cs, i, last)
         == (if ms[i - 1].role != Tool then ImStart + "user" else "") + ResponsesText(cs[i..n]) + ImEnd + Blocks(ms, cs, n, last)
    decreases n - i
  {
    var start := if ms[i - 1].role != Tool then ImStart + "user" else "";
    var text := "\n" + ResponseOpen + cs[i] + ResponseClose;
    ToolBlockIs(ms, cs, i, start, text);
    assert cs[i..n][0] == cs[i] && cs[i..n][1..] == cs[i + 1..n];
    if i + 1 < n {
      RunText(ms, cs, i + 1, n, last);
      RunOn(start, text, ResponsesText(cs[i + 1..n]), ImEnd, Blocks(ms, cs, n, last));
    } else {
      assert ResponsesText(cs[i + 1..n]) == "";
      RunStops(start, text, ImEnd, Blocks(ms, cs, n, last));
    }
  }

  lemma ToolBlockIs(ms: seq<Message>, cs: seq<string>, i: nat, start: string, text: string)
    requires 0 < i < |ms| == |cs| && ms[i].role == Tool
    requires start == (if ms[i - 1].role != Tool then ImStart + "user" else "")
    requires text == "\n" + ResponseOpen + cs[i] + ResponseClose
    ensures Block(ms, cs, i, 0) == ToolBlockText(ms, i, cs[i])
    ensures ToolBlockText(ms, i, cs[i]) == start + text + (if RunEnd(ms, i) == i + 1 then ImEnd else "")
  {
    assert "\n" + ResponseOpen == "\n<tool_response>\n";
    Regroup4(start, "\n<tool_response>\n", cs[i], ResponseClose);
  }

  lemma Regroup4(a: string, b: string, c: string, d: string)
    ensures a + b + c + d == a + (b + c + d)
  {
  }

  lemma RunOn(a: string, b: string, c: string, d: string, e: string)
    ensures (a + b + "") + ("" + c + d + e) == a + (b + c) + d + e
  {
  }

  lemma RunStops(a: string, b: string, c: string, d: string)
    ensures (a + b + c) + d == a + (b + "") + c + d
  {
  }

  /** The blocks are the pieces, each behind a start marker. */
  lemma {:induction false} BlocksJoined(ms: seq<Message>, cs: seq<string>, i: nat, last: nat)
    requires i <= |ms| == |cs| && AtBoundary(ms, i)
    ensures Blocks(ms, cs, i, last) == Joined(Pieces(ms, cs, i, last))
    decreases |ms| - i
  {
    if i < |ms| {
      if ms[i].role == Tool {
        var n := RunEnd(ms, i);
        RunText(ms, cs, i, n, last);
        BlocksJoined(ms, cs, n, last);
        JoinedCons(Group(cs[i..n]), Pieces(ms, cs, n, last));
        GroupIs(cs[i..n], Joined(Pieces(ms, cs, n, last)));
      } else {
        BlocksJoined(ms, cs, i + 1, last);
        OtherBlock(ms, cs, i, last);
      }
    }
  }

  lemma GroupIs(texts: seq<string>, rest: string)
    ensures ImStart + "user" + ResponsesText(texts) + ImEnd + rest == ImStart + Group(texts) + rest
  {
    Regroup4(ImStart, "user", ResponsesText(texts), ImEnd);
  }

  lemma OtherBlock(ms: seq<Message>, cs: seq<string>, i: nat, last: nat)
    requires i < |ms| == |cs| && ms[i].role != Tool
    requires Blocks(ms, cs, i + 1, last) == Joined(Pieces(ms, cs, i + 1, last))
    ensures Blocks(ms, cs, i, last) == Joined(Pieces(ms, cs, i, last))
  {
    var rest := Pieces(ms, cs, i + 1, last);
    match ms[i].role
    case User =>
      JoinedCons(Piece("user", cs[i]), rest);
      PieceIs("user", cs[i]);
      assert ImStart + "user\n" == ImStart + "user" + "\n";
    case Assistant =>
      var body := AnswerBody(ms[i], cs[i], i > last);
      JoinedCons(Piece("assistant", body), rest);
      PieceIs("assistant", body);
      assert ImStart + "assistant\n" == ImStart + "assistant" + "\n";
    case System =>
      assert "" + Blocks(ms, cs, i + 1, last) == Blocks(ms, cs, i + 1, last);
    case Other(_) =>
      assert "" + Blocks(ms, cs, i + 1, last) == Blocks(ms, cs, i + 1, last);
    case Tool =>
  }

  lemma PieceIs(speaker: string, body: string)
    ensures ImStart + speaker + "\n" + body + ImEnd == ImStart + Piece(speaker, body)
  {
    Regroup4(ImStart, speaker, "\n" + body, ImEnd);
    Regroup(ImStart + speaker, "\n", body);
    Regroup(speaker, "\n", body);
  }

  // ------------------------------------------------------------------ what they are read as

  /** What messages `i` on say: runs of tool messages as one, turns up to the last query without
      their reasoning. */
  function Meant(ms: seq<Message>, cs: seq<string>, i: nat, last: nat): seq<Said>
    requires i <= |ms| == |cs|
    decreases |ms| - i
  {
    if i == |ms| then [] else
    match ms[i].role
    case User => [UserText(cs[i])] + Meant(ms, cs, i + 1, last)
    case Assistant => [Answer(AnswerOf(ms[i], cs[i], i > last))] + Meant(ms, cs, i + 1, last)
    case Tool => [Responses(cs[i..RunEnd(ms, i)])] + Meant(ms, cs, RunEnd(ms, i), last)
    case System => Meant(ms, cs, i + 1, last)
    case Other(_) => Meant(ms, cs, i + 1, last)
  }

  function AnswerOf(m: Message, content: string, afterQuery: bool): Reply {
    var (r, c) := SplitThinking(m.reasoning, content);
    Reply(if afterQuery then Some(r) else None, c, Written(m.calls))
  }

  /** A message that can be told apart: no start marker in what it says, user text that does not
      look like responses, responses that do not seem to end early, answers the parser recovers. */
  ghost predicate Distinct(m: Message, content: string, afterQuery: bool) {
    match m.role
    case User => !Has(content, ImStart) && ReadUser(content).UserText?
    case Tool => !Has(content, ImStart) && !Has(content + "\n", "\n</tool_response>\n")
    case Assistant =>
      var (r, c) := SplitThinking(m.reasoning, content);
      && !Has(AnswerBody(m, content, afterQuery), ImStart)
      && if afterQuery then Sound(r, c, Written(m.calls))
         else Trimmed(c, IsSpace) && CleanContent(c, Written(m.calls)) && CleanCalls(Written(m.calls))
              && !Has(c + CallsText(c, Written(m.calls)), ThinkClose)
    case _ => true
  }

  ghost predicate AllDistinct(ms: seq<Message>, cs: seq<string>, last: nat)
    requires |ms| == |cs|
  {
    forall j: nat {:trigger DistinctAt(ms, cs, j, last)} :: j < |ms| ==> DistinctAt(ms, cs, j, last)
  }

  ghost predicate DistinctAt(ms: seq<Message>, cs: seq<string>, j: nat, last: nat)
    requires j < |ms| == |cs|
  {
    Distinct(ms[j], cs[j], j > last)
  }

  lemma AnswerParsed(m: Message, content: string, afterQuery: bool)
    requires m.role == Assistant && Distinct(m, content, afterQuery)
    ensures ParseAssistant(AnswerBody(m, content, afterQuery)) == AnswerOf(m, content, afterQuery)
  {
    var (r, c) := SplitThinking(m.reasoning, content);
    if afterQuery {
      SoundParses(r, c, Written(m.calls));
    } else {
      PlainRecovers(c, Written(m.calls));
    }
  }

  lemma ReadCons(piece: string, rest: seq<string>)
    ensures ReadPieces([piece] + rest) == [ReadPiece(piece)] + ReadPieces(rest)
  {
  }

  lemma {:induction false} PiecesRead(ms: seq<Message>, cs: seq<string>, i: nat, last: nat)
    requires i <= |ms| == |cs| && AllDistinct(ms, cs, last)
    ensures ReadPieces(Pieces(ms, cs, i, last)) == Meant(ms, cs, i, last)
    decreases |ms| - i
  {
    if i < |ms| {
      assert DistinctAt(ms, cs, i, last);
      if ms[i].role == Tool {
        var n := RunEnd(ms, i);
        PiecesRead(ms, cs, n, last);
        RunSeparate(ms, cs, i, n, last);
        GroupRead(cs[i..n]);
        ReadCons(Group(cs[i..n]), Pieces(ms, cs, n, last));
      } else {
        PiecesRead(ms, cs, i + 1, last);
        OtherRead(ms, cs, i, last);
      }
    }
  }

  lemma RunSeparate(ms: seq<Message>, cs: seq<string>, i: nat, n: nat, last: nat)
    requires i < |ms| == |cs| && ms[i].role == Tool && n == RunEnd(ms, i) && AllDistinct(ms, cs, last)
    ensures Separate(cs[i..n]) && forall j :: 0 <= j < n - i ==> !Has(cs[i..n][j], ImStart)
  {
    var texts := cs[i..n];
    forall j | 0 <= j < n - i ensures !Has(texts[j] + "\n", "\n</tool_response>\n") && !Has(texts[j], ImStart) {
      assert DistinctAt(ms, cs, i + j, last);
    }
  }

  lemma OtherRead(ms: seq<Message>, cs: seq<string>, i: nat, last: nat)
    requires i < |ms| == |cs| && ms[i].role != Tool && Distinct(ms[i], cs[i], i > last)
    requires ReadPieces(Pieces(ms, cs, i + 1, last)) == Meant(ms, cs, i + 1, last)
    ensures ReadPieces(Pieces(ms, cs, i, last)) == Meant(ms, cs, i, last)
  {
    var rest := Pieces(ms, cs, i + 1, last);
    match ms[i].role
    case User =>
      UserRead(cs[i]);
      ReadCons(Piece("user", cs[i]), rest);
    case Assistant =>
      AnswerRead(AnswerBody(ms[i], cs[i], i > last));
      AnswerParsed(ms[i], cs[i], i > last);
      ReadCons(Piece("assistant", AnswerBody(ms[i], cs[i], i > last)), rest);
    case _ =>
  }

  // ------------------------------------------------------------------ no marker inside a piece

  lemma LinesUnmarked(l: string, r: string)
    requires !Has(l, ImStart) && !Has(r, ImStart)
    ensures !Has(l + "\n" + r, ImStart)
  {
    HasAround(l, '\n', r, ImStart);
  }

  /** The end marker completes no start marker. */
  lemma EndUnmarked(body: string)
    requires !Has(body, ImStart)
    ensures !Has(body + ImEnd, ImStart)
  {
    var end := "<|im_end|>";
    var s := body + end;
    forall j: nat ensures !At(s, ImStart, j) {
      if At(s, ImStart, j) {
        if j + |ImStart| <= |body| {
          assert body[j..j + |ImStart|] == s[j..j + |ImStart|];
          assert At(body, ImStart, j);
        } else {
          CharInside(s, ImStart, j, |body|);
        }
      }
    }
    ShortHasNone("", ImStart);
    LinesUnmarked(s, "");
    assert s + "\n" + "" == body + ImEnd;
  }

  lemma PieceUnmarked(speaker: string, body: string)
    requires !Has(speaker, ImStart) && !Has(body, ImStart)
    ensures !Has(Piece(speaker, body), ImStart)
  {
    LinesUnmarked(speaker, body);
    EndUnmarked(speaker + "\n" + body);
  }

  lemma {:induction false} ResponsesUnmarked(head: string, texts: seq<string>)
    requires !Has(head, ImStart) && forall j :: 0 <= j < |texts| ==> !Has(texts[j], ImStart)
    ensures !Has(head + ResponsesText(texts), ImStart)
    decreases |texts|
  {
    if texts == [] {
      assert head + ResponsesText(texts) == head;
    } else {
      var open, close := "<tool_response>", "</tool_response>";
      TagsUnmarked();
      LinesUnmarked(head, open);
      LinesUnmarked(head + "\n" + open, texts[0]);
      LinesUnmarked(head + "\n" + open + "\n" + texts[0], close);
      ResponsesUnmarked(head + "\n" + open + "\n" + texts[0] + "\n" + close, texts[1..]);
      ResponseLines(head, texts[0], ResponsesText(texts[1..]));
    }
  }

  lemma TagsUnmarked()
    ensures !Has("<tool_response>", ImStart) && !Has("</tool_response>", ImStart)
  {
    NoBarUnmarked("<tool_response>");
    NoBarUnmarked("</tool_response>");
  }

  lemma NoBarUnmarked(s: string)
    requires '|' !in s
    ensures !Has(s, ImStart)
  {
    forall j: nat ensures !At(s, ImStart, j) {
      if At(s, ImStart, j) {
        CharInside(s, ImStart, j, j + 1);
      }
    }
  }

  lemma ResponseLines(head: string, text: string, rest: string)
    ensures head + "\n" + "<tool_response>" + "\n" + text + "\n" + "</tool_response>" + rest
         == head + ("\n" + ResponseOpen + text + ResponseClose + rest)
  {
    assert ResponseOpen == "<tool_response>" + "\n" && ResponseClose == "\n" + "</tool_response>";
    SevenParts(head, "\n", "<tool_response>", text, "</tool_response>", rest);
  }

  lemma SevenParts(a: string, n: string, b: string, c: string, d: string, e: string)
    ensures a + n + b + n + c + n + d + e == a + (n + (b + n) + c + (n + d) + e)
  {
    assert n + (b + n) + c + (n + d) + e == n + b + n + c + n + d + e;
  }

  lemma {:induction false} PiecesUnmarked(ms: seq<Message>, cs: seq<string>, i: nat, last: nat)
    requires i <= |ms| == |cs| && AllDistinct(ms, cs, last)
    ensures Unmarked(Pieces(ms, cs, i, last))
    decreases |ms| - i
  {
    if i < |ms| {
      assert DistinctAt(ms, cs, i, last);
      if ms[i].role == Tool {
        PiecesUnmarked(ms, cs, RunEnd(ms, i), last);
        GroupUnmarked(ms, cs, i, RunEnd(ms, i), last);
      } else {
        PiecesUnmarked(ms, cs, i + 1, last);
        NoBarUnmarked("user");
        NoBarUnmarked("assistant");
        if ms[i].role == User {
          PieceUnmarked("user", cs[i]);
        } else if ms[i].role == Assistant {
          PieceUnmarked("assistant", AnswerBody(ms[i], cs[i], i > last));
        }
      }
    }
  }

  lemma GroupUnmarked(ms: seq<Message>, cs: seq<string>, i: nat, n: nat, last: nat)
    requires i < |ms| == |cs| && ms[i].role == Tool && n == RunEnd(ms, i) && AllDistinct(ms, cs, last)
    ensures !Has(Group(cs[i..n]), ImStart)
  {
    RunSeparate(ms, cs, i, n, last);
    NoBarUnmarked("user");
    ResponsesUnmarked("user", cs[i..n]);
    EndUnmarked("user" + ResponsesText(cs[i..n]));
  }

  // ------------------------------------------------------------------ the whole text

  /** Whether there is a system block, and what it says. */
  predicate HasSystem(req: Request)
    requires req.messages != []
  {
    req.tools != [] || req.messages[0].role == System
  }

  function SystemBody(req: Request): string
    requires req.messages != []
  {
    var body := RenderContent(req.messages[0].content, false, true, req.addVisionId, 0, 0);
    var c := if req.messages[0].role == System && body.Done? then JinjaTrim(body.value.text) else "";
    if req.tools == [] then c
    else ToolsPrefix + ToolLines(req.tools) + "\n</tools>" + req.instructions + (if c != "" then "\n\n" + c else "")
  }

  function PromptPiece(req: Request): string {
    "assistant\n" + (if req.enableThinking then ThinkOpen + "\n" else ThinkOpen + "\n\n" + ThinkClose + "\n\n")
  }

  function Before(req: Request): seq<string>
    requires req.messages != []
  {
    if HasSystem(req) then [Piece("system", SystemBody(req))] else []
  }

  function Behind(req: Request): seq<string> {
    if req.addGenerationPrompt then [PromptPiece(req)] else []
  }

  lemma OnePiece(piece: string)
    ensures Joined([piece]) == ImStart + piece
  {
    assert Joined([piece][1..]) == "";
    assert ImStart + piece + "" == ImStart + piece;
  }

  lemma SystemIs(req: Request)
    requires req.messages != [] && SystemBlock(req).Done?
    ensures SystemBlock(req).value == Joined(Before(req))
  {
    if HasSystem(req) {
      OnePiece(Piece("system", SystemBody(req)));
      PieceIs("system", SystemBody(req));
      assert ImStart + "system\n" == ImStart + "system" + "\n";
      if req.tools != [] {
        ToolParts(req);
      }
    }
  }

  lemma ToolParts(req: Request)
    requires req.messages != [] && req.tools != [] && SystemBlock(req).Done?
    ensures SystemBlock(req).value == ImStart + "system" + "\n" + SystemBody(req) + ImEnd
  {
    var lines := ToolLines(req.tools);
    assert ImStart + "system\n" == ImStart + "system" + "\n";
    SixParts(ImStart + "system\n", ToolsPrefix, lines, "\n</tools>", req.instructions);
    var c := if req.messages[0].role == System
             then JinjaTrim(RenderContent(req.messages[0].content, false, true, req.addVisionId, 0, 0).value.text) else "";
    var tail := if c != "" then "\n\n" + c else "";
    Regroup(ImStart + "system\n", ToolsPrefix + lines + "\n</tools>" + req.instructions, tail);
    assert tail == "" ==> ToolBlock(req.tools, req.instructions) + tail == ToolBlock(req.tools, req.instructions);
  }

  lemma SixParts(a: string, b: string, c: string, d: string, e: string)
    ensures a + b + c + d + e == a + (b + c + d + e)
  {
  }

  lemma PromptIs(req: Request)
    ensures GenerationPrompt(req) == Joined(Behind(req))
  {
    if req.addGenerationPrompt {
      OnePiece(PromptPiece(req));
      Regroup(ImStart, "assistant\n", if req.enableThinking then ThinkOpen + "\n" else ThinkOpen + "\n\n" + ThinkClose + "\n\n");
    }
  }

  lemma PromptRead(req: Request)
    ensures ReadPiece(PromptPiece(req)) == Begun(PromptPiece(req)) && !Has(PromptPiece(req), ImStart)
  {
    NoBarUnmarked(PromptPiece(req));
    NoBarBegun(PromptPiece(req));
  }

  lemma NoBarBegun(s: string)
    requires '|' !in s
    ensures StripSuffix(s, ImEnd).None?
  {
    if |ImEnd| <= |s| {
      var n := |s| - |ImEnd|;
      assert s[n..][1] == s[n + 1] && ImEnd[1] == '|';
    }
  }

  /** All that is said: the system block, the messages, and the turn that is begun. */
  function AllMeant(req: Request, cs: seq<string>, last: nat): seq<Said>
    requires req.messages != [] && |cs| == |req.messages|
  {
    (if HasSystem(req) then [SystemText(SystemBody(req))] else [])
    + Meant(req.messages, cs, 0, last)
    + (if req.addGenerationPrompt then [Begun(PromptPiece(req))] else [])
  }

  function AllPieces(req: Request, cs: seq<string>, last: nat): seq<string>
    requires req.messages != [] && |cs| == |req.messages|
  {
    Before(req) + Pieces(req.messages, cs, 0, last) + Behind(req)
  }

  lemma AllRead(req: Request, cs: seq<string>, last: nat)
    requires req.messages != [] && |cs| == |req.messages| && AllDistinct(req.messages, cs, last)
    requires HasSystem(req) ==> !Has(SystemBody(req), ImStart)
    ensures ReadPieces(AllPieces(req, cs, last)) == AllMeant(req, cs, last) && Unmarked(AllPieces(req, cs, last))
  {
    PiecesRead(req.messages, cs, 0, last);
    PiecesUnmarked(req.messages, cs, 0, last);
    BeforeRead(req);
    BehindRead(req);
    ReadParts(Before(req), Pieces(req.messages, cs, 0, last), Behind(req));
  }

  lemma BeforeRead(req: Request)
    requires req.messages != [] && (HasSystem(req) ==> !Has(SystemBody(req), ImStart))
    ensures ReadPieces(Before(req)) == (if HasSystem(req) then [SystemText(SystemBody(req))] else [])
    ensures Unmarked(Before(req))
  {
    if HasSystem(req) {
      SystemRead(SystemBody(req));
      NoBarUnmarked("system");
      PieceUnmarked("system", SystemBody(req));
    }
  }

  lemma BehindRead(req: Request)
    ensures ReadPieces(Behind(req)) == (if req.addGenerationPrompt then [Begun(PromptPiece(req))] else [])
    ensures Unmarked(Behind(req))
  {
    PromptRead(req);
  }

  lemma ReadParts(a: seq<string>, b: seq<string>, c: seq<string>)
    ensures ReadPieces(a + b + c) == ReadPieces(a) + ReadPieces(b) + ReadPieces(c)
  {
  }

  /** The text of a request that renders, as marked pieces. */
  lemma RenderedPieces(req: Request) returns (cs: seq<string>)
    requires Render(req).Done? && req.messages[0].role != Tool
    ensures |cs| == |req.messages| && Contents(req.messages, 0, req.addVisionId, 0, 0) == Done(cs)
    ensures Render(req).value.text == Joined(AllPieces(req, cs, LastQuery(req.messages, req.addVisionId).value))
  {
    var ms, v := req.messages, req.addVisionId;
    var last := LastQuery(ms, v).value;
    var start := Rendered(SystemBlock(req).value, 0, 0);
    ContentsDone(ms, 0, last, v, start);
    cs := Contents(ms, 0, v, 0, 0).value;
    assert cs[0..] == cs;
    BlocksRendered(ms, cs, 0, last, v, start);
    BlocksJoined(ms, cs, 0, last);
    SystemIs(req);
    PromptIs(req);
    JoinedAppend(Before(req), Pieces(ms, cs, 0, last));
    JoinedAppend(Before(req) + Pieces(ms, cs, 0, last), Behind(req));
  }

  /** From the text of every request whose messages can be told apart the reader recovers who said
      what: the system block, the trimmed text of every user message, every answer's content and
      calls, its reasoning exactly if it comes after the last query, the responses of every run of
      tool messages, and the turn begun for the model. */
  lemma ConversationRead(req: Request, cs: seq<string>)
    requires Render(req).Done? && req.messages[0].role != Tool
    requires Contents(req.messages, 0, req.addVisionId, 0, 0) == Done(cs)
    requires AllDistinct(req.messages, cs, LastQuery(req.messages, req.addVisionId).value)
    requires HasSystem(req) ==> !Has(SystemBody(req), ImStart)
    ensures ReadConversation(Render(req).value.text)
         == Some(AllMeant(req, cs, LastQuery(req.messages, req.addVisionId).value))
  {
    var last := LastQuery(req.messages, req.addVisionId).value;
    var ds := RenderedPieces(req);
    AllRead(req, cs, last);
    ShortHasNone("", ImStart);
    CutJoined("", AllPieces(req, cs, last));
    assert "" + Joined(AllPieces(req, cs, last)) == Joined(AllPieces(req, cs, last));
    assert ([""] + AllPieces(req, cs, last))[1..] == AllPieces(req, cs, last);
  }
}
