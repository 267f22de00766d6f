/** What a server sends as event-stream text is what the consumer returns, whatever chunks the text comes in. */
module OpenAiDelivery {
  import opened Prelude
  import opened LineFraming
  import opened OpenAiStream
  import Calls = OpenAiToolCalls
  import Thinking = ThinkingStream
  import ThinkingTokens

  /** A line of the stream: JSON data, the closing mark, or anything that is no data (blank lines, comments). */
  datatype Frame = Data(json: string) | Done | Other(line: string)

  predicate Sendable(f: Frame)
  {
    match f
    case Data(json) =>
      '\n' !in json && json != "" && json[|json| - 1] != '\r' && !IsSpace(json[0]) && json != "[DONE]"
    case Done => true
    case Other(line) => '\n' !in line && (line != "" ==> line[|line| - 1] != '\r') && !("data:" <= line)
  }

  function LineOf(f: Frame, crlf: bool): string
  {
    (match f
     case Data(json) => "data: " + json
     case Done => "data: [DONE]"
     case Other(line) => line) + if crlf then "\r" else ""
  }

  function LinesOf(frames: seq<Frame>, crlf: bool): (lines: seq<string>)
    ensures |lines| == |frames|
  {
    if frames == [] then [] else [LineOf(frames[0], crlf)] + LinesOf(frames[1..], crlf)
  }

  /** The text of the stream; the very last line feed may be missing. */
  function Wire(frames: seq<Frame>, crlf: bool, last: Option<Frame>): string
  {
    Terminated(LinesOf(frames, crlf)) + if last.Some? then LineOf(last.value, crlf) else ""
  }

  function AllFrames(frames: seq<Frame>, last: Option<Frame>): seq<Frame>
  {
    frames + if last.Some? then [last.value] else []
  }

  /** The JSON texts sent, in order. */
  function Jsons(frames: seq<Frame>): seq<string>
  {
    if frames == [] then [] else (if frames[0].Data? then [frames[0].json] else []) + Jsons(frames[1..])
  }

  /** The first text that is no JSON. */
  function FirstBad(jsons: seq<string>, parse: Parser): Option<string>
  {
    if jsons == [] then None
    else if parse(jsons[0]).None? then Some(jsons[0])
    else FirstBad(jsons[1..], parse)
  }

  function ChunksOf(jsons: seq<string>, parse: Parser): seq<Chunk>
    requires FirstBad(jsons, parse).None?
  {
    if jsons == [] then [] else [parse(jsons[0]).value] + ChunksOf(jsons[1..], parse)
  }

  // ----- Lines are read as they were written -----

  lemma CarriageReturnIsDropped(line: string, crlf: bool)
    requires line != "" ==> line[|line| - 1] != '\r'
    ensures DropCarriageReturn(line + if crlf then "\r" else "") == line
  {
    if crlf {
      assert (line + "\r")[..|line|] == line;
    } else {
      assert line + "" == line;
    }
  }

  lemma NothingToTrimHere(json: string)
    requires json != "" && !IsSpace(json[0])
    ensures TrimStart(" " + json) == json
  {
    assert (" " + json)[1..] == json;
    assert (" " + json)[0] == ' ' && IsSpace(' ');
  }

  lemma LineIsRead(f: Frame, crlf: bool)
    requires Sendable(f)
    ensures Payload(LineOf(f, crlf)) == if f.Data? then Some(f.json) else None
  {
    hide DropCarriageReturn, TrimStart, IsSpace;
    match f
    case Data(json) =>
      var line := "data: " + json;
      assert line[|line| - 1] == json[|json| - 1];
      CarriageReturnIsDropped(line, crlf);
      assert line[..5] == "data:" && line[5..] == " " + json;
      NothingToTrimHere(json);
    case Done =>
      var line := "data: [DONE]";
      CarriageReturnIsDropped(line, crlf);
      assert line[..5] == "data:" && line[5..] == " " + "[DONE]";
      BracketIsNoSpace();
      NothingToTrimHere("[DONE]");
    case Other(line) => CarriageReturnIsDropped(line, crlf);
  }

  lemma BracketIsNoSpace()
    ensures !IsSpace("[DONE]"[0])
  {
  }

  lemma {:induction false} FramesAreRead(frames: seq<Frame>, crlf: bool, parse: Parser)
    requires forall f :: f in frames ==> Sendable(f)
    ensures ParseLines(LinesOf(frames, crlf), parse) ==
      var bad := FirstBad(Jsons(frames), parse);
      if bad.Some? then Broken(bad.value) else Chunks(ChunksOf(Jsons(frames), parse))
    decreases |frames|
  {
    hide Payload, LineOf, Sendable;
    if frames != [] {
      LineIsRead(frames[0], crlf);
      FramesAreRead(frames[1..], crlf, parse);
      var rest := Jsons(frames[1..]);
      if frames[0].Data? {
        assert Jsons(frames) == [frames[0].json] + rest && Jsons(frames)[1..] == rest;
      } else {
        assert Jsons(frames) == [] + rest == rest;
      }
    }
  }

  lemma {:induction false} WrittenLines(frames: seq<Frame>, crlf: bool)
    requires forall f :: f in frames ==> Sendable(f)
    ensures forall line :: line in LinesOf(frames, crlf) ==> '\n' !in line
    decreases |frames|
  {
    if frames != [] {
      assert Sendable(frames[0]);
      OneLineEach(frames[0], crlf);
      WrittenLines(frames[1..], crlf);
    }
  }

  lemma OneLineEach(f: Frame, crlf: bool)
    requires Sendable(f)
    ensures '\n' !in LineOf(f, crlf)
  {
    hide IsSpace;
    var body := match f case Data(json) => "data: " + json case Done => "data: [DONE]" case Other(line) => line;
    assert '\n' !in "data: " && '\n' !in "data: [DONE]" && '\n' !in "\r";
    assert '\n' !in body;
  }

  lemma {:induction false} LinesOfAppend(a: seq<Frame>, b: seq<Frame>, crlf: bool)
    ensures LinesOf(a + b, crlf) == LinesOf(a, crlf) + LinesOf(b, crlf)
    decreases |a|
  {
    hide LineOf;
    if a == [] {
      assert a + b == b;
    } else {
      AppendSlices(a, b, 1);
      LinesOfAppend(a[1..], b, crlf);
      Associate([LineOf(a[0], crlf)], LinesOf(a[1..], crlf), LinesOf(b, crlf));
    }
  }

  /** Lines of the text are the lines written; an empty line that is not terminated does not count. */
  lemma WireLines(frames: seq<Frame>, crlf: bool, last: Option<Frame>)
    requires (forall f :: f in frames ==> Sendable(f)) && (last.Some? ==> Sendable(last.value))
    ensures AllLines(Wire(frames, crlf, last)) ==
      LinesOf(frames, crlf) +
      if last.Some? && LineOf(last.value, crlf) != "" then [LineOf(last.value, crlf)] else []
  {
    hide LineOf, Sendable, Lines, Unfinished;
    var lines := LinesOf(frames, crlf);
    var tail := if last.Some? then LineOf(last.value, crlf) else "";
    WrittenLines(frames, crlf);
    TerminatedLines(lines);
    LinesAppend(Terminated(lines), tail);
    assert "" + tail == tail;
    if last.Some? {
      OneLineEach(last.value, crlf);
    }
    NoLineIn(tail);
    assert lines + [] == lines;
  }

  lemma WireIsRead(frames: seq<Frame>, crlf: bool, last: Option<Frame>, parse: Parser)
    requires forall f :: f in AllFrames(frames, last) ==> Sendable(f)
    ensures ParseLines(AllLines(Wire(frames, crlf, last)), parse) ==
      var jsons := Jsons(AllFrames(frames, last));
      var bad := FirstBad(jsons, parse);
      if bad.Some? then Broken(bad.value) else Chunks(ChunksOf(jsons, parse))
  {
    hide LineOf, Sendable, ParseLines, AllLines, Wire, Jsons, Payload;
    assert forall f :: f in frames ==> f in AllFrames(frames, last);
    WireLines(frames, crlf, last);
    FramesAreRead(AllFrames(frames, last), crlf, parse);
    var lines := LinesOf(frames, crlf);
    assert lines + [] == lines && frames + [] == frames;
    if last.Some? {
      var f := last.value;
      assert f in AllFrames(frames, last);
      OneFrame(f, crlf);
      LinesOfAppend(frames, [f], crlf);
      if LineOf(f, crlf) == "" {
        BlankAtEnd(lines, parse);
      }
    }
  }

  lemma BlankAtEnd(lines: seq<string>, parse: Parser)
    ensures ParseLines(lines + [""], parse) == ParseLines(lines, parse)
  {
    hide ParseLines;
    ParseLinesSnoc(lines, "", parse);
    NothingOnBlank(parse);
    KeepsChunks(ParseLines(lines, parse));
  }

  lemma OneFrame(f: Frame, crlf: bool)
    ensures LinesOf([f], crlf) == [LineOf(f, crlf)]
  {
    hide LineOf;
    assert [f][1..] == [];
  }

  lemma NothingOnBlank(parse: Parser)
    ensures ParseLines([""], parse) == Chunks([])
  {
    assert [""][1..] == [];
  }

  lemma KeepsChunks(p: Parsed)
    ensures p.Chunks? ==> Chunks(p.chunks + []) == p
  {
  }

  // ----- What arrives -----

  /** The parts of a reply, each told by what was sent. */
  ghost predicate Arrives(o: Options, sent: seq<Chunk>, m: Message)
  {
    var text, thought := Flatten(Contents(sent)), Flatten(Reasonings(sent));
    m.content == NonEmpty(
      if o.xmlTags then ThinkingTokens.PlainText(ThinkingTokens.Tokens(text, false)) else text) &&
    m.reasoning == NonEmpty(if |thought| > o.maxReasoning then thought[..o.maxReasoning] else thought) &&
    m.toolCalls == (if o.accumulateTools then Calls.Collected(ToolItems(sent), o.xmlTags) else []) &&
    m.usage == Newest(Usages(sent)) && m.finishReason == NonEmpty(Calls.LastNonEmpty(Reasons(sent)))
  }

  lemma {:induction false} ReasonIsNotEmpty(o: Options, chunks: seq<Chunk>)
    ensures Fold(o, START, chunks).finishReason != Some("")
    decreases |chunks|
  {
    hide WithChunk;
    if chunks != [] {
      var n := |chunks| - 1;
      ReasonIsNotEmpty(o, chunks[..n]);
      TakeOneMore(chunks, n);
      assert chunks[..n + 1] == chunks;
      FoldSnoc(o, chunks[..n], chunks[n]);
      FlagsOfChunk(o, Fold(o, START, chunks[..n]), chunks[n]);
    }
  }

  lemma SentArrives(o: Options, sent: seq<Chunk>)
    ensures
      var result := Finish(o, Fold(o, START, sent));
      if forall c :: c in sent ==> c.choice.None? then result == NoChoices
      else result.Ok? && Arrives(o, sent, result.message)
  {
    hide Fold, Newest, Usages, Reasons, Calls.LastNonEmpty, Calls.Collected, Calls.FinalCalls, Contents, Reasonings,
      ToolItems, FinalText;
    StreamMeans(o, sent);
    StreamEnds(o, sent);
    ReasonIsNotEmpty(o, sent);
    WholeText(o, Contents(sent));
  }

  lemma WholeText(o: Options, pieces: seq<string>)
    ensures FinalText(o, pieces) ==
      if o.xmlTags then ThinkingTokens.PlainText(ThinkingTokens.Tokens(Flatten(pieces), false)) else Flatten(pieces)
  {
    hide ThinkingTokens.PlainText, ThinkingTokens.Tokens;
    var text := Flatten(pieces);
    Thinking.TextIsChunkInvariant([text]);
    assert [text][1..] == [];
    assert Flatten([text]) == text + Flatten<char>([]) == text;
  }

  /**
    Main result. The consumer, given any chunks of a stream written with either line ending, with blank lines, comments
    and closing marks anywhere: the first data that is no JSON fails it with that data; a stream without a choice is
    refused; otherwise content, reasoning, calls, usage and finish reason are those of the chunks sent.
   */
  method StreamDelivers(
      o: Options, parse: Parser, chunks: seq<string>, ghost frames: seq<Frame>, ghost crlf: bool,
      ghost last: Option<Frame>)
    returns (r: Result)
    requires Flatten(chunks) == Wire(frames, crlf, last)
    requires forall f :: f in AllFrames(frames, last) ==> Sendable(f)
    ensures
      var jsons := Jsons(AllFrames(frames, last));
      var bad := FirstBad(jsons, parse);
      if bad.Some? then r == Malformed(bad.value)
      else
        var sent := ChunksOf(jsons, parse);
        if forall c :: c in sent ==> c.choice.None? then r == NoChoices
        else r.Ok? && Arrives(o, sent, r.message)
  {
    hide Wire, AllLines, ParseLines, Fold, Finish, Jsons, Arrives, Sendable;
    WireIsRead(frames, crlf, last, parse);
    if FirstBad(Jsons(AllFrames(frames, last)), parse).None? {
      SentArrives(o, ChunksOf(Jsons(AllFrames(frames, last)), parse));
    }
    r := ConsumeOpenAIChatCompletionStream(chunks, parse, o);
  }
}
