/** The OpenAI-compatible chat stream: its outcome depends on what was sent, not on how it was cut into pieces. */
module OpenAiStream {
  import opened Prelude
  import opened LineFraming
  import opened ChatMessages
  import opened OpenAiToolCalls
  import Normalizer = ThinkingNormalizer
  import Thinking = ThinkingStream
  import ThinkingTokens
  import Ordering

  /** What a consumer looks at in one parsed chunk; token usage is opaque. */
  datatype Chunk = Chunk(usage: Option<string>, choice: Option<Choice>)

  datatype Choice = Choice(finishReason: Option<string>, delta: Option<Piece>)

  datatype Piece = Piece(content: Option<string>, reasoning: Option<string>, toolCalls: Deltas)

  type Parser = string -> Option<Chunk>

  datatype Options = Options(xmlTags: bool, accumulateTools: bool, maxReasoning: nat)

  datatype Acc = Acc(
    sawChoice: bool, content: Option<string>, norm: Normalizer.Norm, reasoning: string,
    usage: Option<string>, finishReason: Option<string>, partials: Partials)

  datatype Message = Message(
    content: Option<string>, toolCalls: seq<ToolCall>, usage: Option<string>,
    reasoning: Option<string>, finishReason: Option<string>)

  datatype Result = Ok(message: Message) | Malformed(payload: string) | NoChoices

  const START := Acc(false, None, Normalizer.START, "", None, None, map[])

  // ----- One chunk -----

  function Grown(content: Option<string>, more: string): Option<string>
  {
    if more == "" then content else Some(OrEmpty(content) + more)
  }

  function WithContent(o: Options, acc: Acc, text: string): Acc
  {
    if o.xmlTags then
      var (norm, out) := Normalizer.Run(acc.norm, text);
      acc.(norm := norm, content := Grown(acc.content, out.text))
    else acc.(content := Grown(acc.content, text))
  }

  function WithReasoning(o: Options, acc: Acc, text: string): Acc
  {
    acc.(reasoning := Capped(acc.reasoning, [text], o.maxReasoning))
  }

  function WithPiece(o: Options, acc: Acc, p: Piece): Acc
  {
    var acc := if OrEmpty(p.content) != "" then WithContent(o, acc, p.content.value) else acc;
    var acc := if OrEmpty(p.reasoning) != "" then WithReasoning(o, acc, p.reasoning.value) else acc;
    if o.accumulateTools && p.toolCalls.Items? then acc.(partials := Apply(acc.partials, p.toolCalls.items)) else acc
  }

  function WithChunk(o: Options, acc: Acc, c: Chunk): Acc
  {
    var acc := if c.usage.Some? then acc.(usage := c.usage) else acc;
    if c.choice.None? then acc
    else
      var acc := acc.(sawChoice := true,
                      finishReason := if OrEmpty(c.choice.value.finishReason) != "" then c.choice.value.finishReason
                                      else acc.finishReason);
      if c.choice.value.delta.Some? then WithPiece(o, acc, c.choice.value.delta.value) else acc
  }

  /** A whole stream of parsed chunks. */
  function Fold(o: Options, acc: Acc, chunks: seq<Chunk>): Acc
    decreases |chunks|
  {
    if chunks == [] then acc else Fold(o, WithChunk(o, acc, chunks[0]), chunks[1..])
  }

  function Finish(o: Options, acc: Acc): Result
  {
    if !acc.sawChoice then NoChoices
    else
      Ok(Message(if o.xmlTags then Grown(acc.content, acc.norm.buffer) else acc.content,
                 if o.accumulateTools
                 then FinalCalls(acc.partials, Ordering.Sorted(acc.partials.Keys), o.xmlTags) else [],
                 acc.usage, NonEmpty(acc.reasoning), acc.finishReason))
  }

  // ----- Lines -----

  /** The payload of a line that has one. */
  function Payload(line: string): Option<string>
  {
    var trimmed := DropCarriageReturn(line);
    if !("data:" <= trimmed) then None
    else
      var payload := TrimStart(trimmed[5..]);
      if payload == "" || payload == "[DONE]" then None else Some(payload)
  }

  /** The chunks of these lines, or the first payload that is no JSON. */
  datatype Parsed = Chunks(chunks: seq<Chunk>) | Broken(payload: string)

  function ParseLines(lines: seq<string>, parse: Parser): Parsed
    decreases |lines|
  {
    if lines == [] then Chunks([])
    else
      match Payload(lines[0])
      case None => ParseLines(lines[1..], parse)
      case Some(payload) =>
        match parse(payload)
        case None => Broken(payload)
        case Some(c) =>
          var rest := ParseLines(lines[1..], parse);
          if rest.Broken? then rest else Chunks([c] + rest.chunks)
  }

  function Outcome(o: Options, parsed: Parsed): Result
  {
    match parsed
    case Broken(payload) => Malformed(payload)
    case Chunks(chunks) => Finish(o, Fold(o, START, chunks))
  }

  lemma {:induction false} ParseLinesSnoc(lines: seq<string>, line: string, parse: Parser)
    ensures ParseLines(lines + [line], parse) ==
      var front, back := ParseLines(lines, parse), ParseLines([line], parse);
      if front.Broken? then front else if back.Broken? then back else Chunks(front.chunks + back.chunks)
    decreases |lines|
  {
    hide Payload;
    if lines == [] {
      assert lines + [line] == [line];
      var back := ParseLines([line], parse);
      assert back.Chunks? ==> [] + back.chunks == back.chunks;
    } else {
      AppendSlices(lines, [line], 1);
      ParseLinesSnoc(lines[1..], line, parse);
      var front, back := ParseLines(lines[1..], parse), ParseLines([line], parse);
      if front.Chunks? && back.Chunks? && Payload(lines[0]).Some? && parse(Payload(lines[0]).value).Some? {
        var c := parse(Payload(lines[0]).value).value;
        assert ([c] + front.chunks) + back.chunks == [c] + (front.chunks + back.chunks);
      }
    }
  }

  /** A broken line spoils every longer list of lines in the same way. */
  lemma {:induction false} BrokenStays(lines: seq<string>, more: seq<string>, parse: Parser)
    requires ParseLines(lines, parse).Broken?
    ensures ParseLines(lines + more, parse) == ParseLines(lines, parse)
    decreases |lines|
  {
    hide Payload;
    AppendSlices(lines, more, 1);
    if ParseLines(lines[1..], parse).Broken? {
      BrokenStays(lines[1..], more, parse);
    }
  }

  lemma {:induction false} FoldAppend(o: Options, acc: Acc, a: seq<Chunk>, b: seq<Chunk>)
    ensures Fold(o, acc, a + b) == Fold(o, Fold(o, acc, a), b)
    decreases |a|
  {
    hide WithChunk;
    if a == [] {
      assert a + b == b;
    } else {
      AppendSlices(a, b, 1);
      FoldAppend(o, WithChunk(o, acc, a[0]), a[1..], b);
    }
  }

  lemma OneLine(o: Options, acc: Acc, line: string, parse: Parser)
    ensures ParseLines([line], parse) ==
      match Payload(line)
      case None => Chunks([])
      case Some(payload) => (match parse(payload) case None => Broken(payload) case Some(c) => Chunks([c]))
    ensures forall c :: Fold(o, acc, [c]) == WithChunk(o, acc, c)
  {
    hide Payload, WithChunk;
    assert [line][1..] == [];
    assert ParseLines([], parse) == Chunks([]);
    forall c ensures Fold(o, acc, [c]) == WithChunk(o, acc, c) {
      assert [c][1..] == [];
    }
    if Payload(line).Some? && parse(Payload(line).value).Some? {
      var c := parse(Payload(line).value).value;
      assert [c] + [] == [c];
    }
  }

  /** One line; `ok` is false when its payload is malformed. */
  method FlushLine(o: Options, acc: Acc, line: string, parse: Parser, ghost seen: seq<string>)
    returns (ok: bool, after: Acc, bad: string)
    requires ParseLines(seen, parse).Chunks? && acc == Fold(o, START, ParseLines(seen, parse).chunks)
    ensures ok ==> ParseLines(seen + [line], parse).Chunks? &&
                   after == Fold(o, START, ParseLines(seen + [line], parse).chunks)
    ensures !ok ==> ParseLines(seen + [line], parse) == Broken(bad)
  {
    hide Payload, WithChunk, Fold, ParseLines;
    ok, after, bad := true, acc, "";
    ghost var front := ParseLines(seen, parse).chunks;
    ParseLinesSnoc(seen, line, parse);
    OneLine(o, acc, line, parse);
    var payload := Payload(line);
    if payload.None? {
      assert front + [] == front;
      return;
    }
    var parsed := parse(payload.value);
    if parsed.None? {
      return false, acc, payload.value;
    }
    FoldAppend(o, START, front, [parsed.value]);
    after := WithChunk(o, acc, parsed.value);
  }

  method ConsumeOpenAIChatCompletionStream(chunks: seq<string>, parse: Parser, o: Options) returns (r: Result)
    ensures r == Outcome(o, ParseLines(AllLines(Flatten(chunks)), parse))
  {
    hide Fold, ParseLines, Lines, Unfinished, LineFeed, Flatten, Finish;
    var lineBuf, acc := "", START;
    ghost var seen: seq<string> := [];
    NothingRead(o, parse);
    for i := 0 to |chunks|
      invariant lineBuf == Unfinished(Flatten(chunks[..i])) && seen == Lines(Flatten(chunks[..i]))
      invariant LineFeed(lineBuf) == |lineBuf|
      invariant ParseLines(seen, parse).Chunks? && acc == Fold(o, START, ParseLines(seen, parse).chunks)
    {
      ghost var before := Flatten(chunks[..i]);
      assert chunks[..i + 1] == chunks[..i] + [chunks[i]];
      FlattenSnoc(chunks[..i], chunks[i]);
      LinesAppend(before, chunks[i]);
      ghost var start := seen;
      lineBuf := lineBuf + chunks[i];
      ghost var text := lineBuf;
      assert start + Lines(text) == Lines(before + chunks[i]);
      ghost var read: seq<string> := [];
      assert start + read == seen && read + Lines(lineBuf) == Lines(text);
      while LineFeed(lineBuf) < |lineBuf|
        invariant seen == start + read && read + Lines(lineBuf) == Lines(text) &&
          Unfinished(lineBuf) == Unfinished(text)
        invariant ParseLines(seen, parse).Chunks? && acc == Fold(o, START, ParseLines(seen, parse).chunks)
        decreases |lineBuf|
      {
        FirstLine(lineBuf);
        var nl := LineFeed(lineBuf);
        var line := lineBuf[..nl];
        lineBuf := lineBuf[nl + 1..];
        var ok, after, bad := FlushLine(o, acc, line, parse, seen);
        Regroup(start, read, line, Lines(lineBuf));
        read := read + [line];
        seen := seen + [line];
        if !ok {
          StopsHere(chunks, i, seen, Lines(lineBuf), bad, parse);
          return Malformed(bad);
        }
        acc := after;
      }
      NoMoreLines(lineBuf);
      assert read + [] == read;
    }
    assert chunks[..|chunks|] == chunks;
    if |lineBuf| > 0 {
      var ok, after, bad := FlushLine(o, acc, lineBuf, parse, seen);
      if !ok {
        return Malformed(bad);
      }
      acc := after;
    } else {
      assert seen + [] == seen;
    }
    r := Finish(o, acc);
  }

  lemma NothingRead(o: Options, parse: Parser)
    ensures ParseLines([], parse) == Chunks([]) && Fold(o, START, []) == START
    ensures Flatten<char>([]) == "" && Lines("") == [] && Unfinished("") == "" && LineFeed("") == 0
  {
  }

  lemma Regroup(start: seq<string>, read: seq<string>, line: string, rest: seq<string>)
    ensures (start + read) + [line] == start + (read + [line])
    ensures read + ([line] + rest) == (read + [line]) + rest
  {
  }

  /** A malformed payload decides the outcome, whatever chunks are still to come. */
  lemma StopsHere(chunks: seq<string>, i: nat, seen: seq<string>, rest: seq<string>, bad: string, parse: Parser)
    requires i < |chunks| && ParseLines(seen, parse) == Broken(bad)
    requires seen + rest == Lines(Flatten(chunks[..i + 1]))
    ensures ParseLines(AllLines(Flatten(chunks)), parse) == Broken(bad)
  {
    hide ParseLines, Lines, Unfinished, Flatten;
    var front, back := Flatten(chunks[..i + 1]), Flatten(chunks[i + 1..]);
    SplitAround(chunks, i + 1);
    FlattenAppend(chunks[..i + 1], chunks[i + 1..]);
    LinesAppend(front, back);
    var last := if Unfinished(front + back) == "" then [] else [Unfinished(front + back)];
    var more := rest + Lines(Unfinished(front) + back) + last;
    assert AllLines(front + back) == seen + more;
    BrokenStays(seen, more, parse);
  }

  // ----- What the outcome means -----

  function PieceOf(c: Chunk): Option<Piece>
  {
    if c.choice.Some? then c.choice.value.delta else None
  }

  /** All content of the stream, piece by piece. */
  function Contents(chunks: seq<Chunk>): seq<string>
    decreases |chunks|
  {
    if chunks == [] then []
    else [if PieceOf(chunks[0]).Some? then OrEmpty(PieceOf(chunks[0]).value.content) else ""] + Contents(chunks[1..])
  }

  function Reasonings(chunks: seq<Chunk>): seq<string>
    decreases |chunks|
  {
    if chunks == [] then []
    else
      [if PieceOf(chunks[0]).Some? then OrEmpty(PieceOf(chunks[0]).value.reasoning) else ""] +
      Reasonings(chunks[1..])
  }

  function ToolItems(chunks: seq<Chunk>): seq<Option<Delta>>
    decreases |chunks|
  {
    if chunks == [] then []
    else
      (if PieceOf(chunks[0]).Some? && PieceOf(chunks[0]).value.toolCalls.Items?
       then PieceOf(chunks[0]).value.toolCalls.items else [])
      + ToolItems(chunks[1..])
  }

  lemma GrownTwice(content: Option<string>, a: string, b: string)
    ensures Grown(Grown(content, a), b) == Grown(content, a + b)
  {
    if a != "" && b != "" {
      assert (OrEmpty(content) + a) + b == OrEmpty(content) + (a + b);
    } else {
      assert a + "" == a && "" + b == b;
    }
  }

  /** Content after a stream: without tags everything appended, with tags what the normalizer lets through. */
  lemma {:induction false} FoldContent(o: Options, acc: Acc, chunks: seq<Chunk>)
    ensures
      var after, text := Fold(o, acc, chunks), Flatten(Contents(chunks));
      if o.xmlTags then
        after.norm == Normalizer.Run(acc.norm, text).0 &&
        after.content == Grown(acc.content, Normalizer.Run(acc.norm, text).1.text)
      else after.content == Grown(acc.content, text)
    decreases |chunks|
  {
    hide Normalizer.Run, Grown, WithChunk;
    if chunks == [] {
      ThinkingTokens.RunNothing(acc.norm);
      NothingGrown(acc.content);
    } else {
      var first := Contents(chunks)[0];
      var next := WithChunk(o, acc, chunks[0]);
      ChunkContent(o, acc, chunks[0], first);
      FoldContent(o, next, chunks[1..]);
      var rest := Flatten(Contents(chunks[1..]));
      assert Contents(chunks)[1..] == Contents(chunks[1..]);
      Normalizer.RunAppend(acc.norm, first, rest);
      GrownTwice(acc.content, first, rest);
      GrownTwice(acc.content, Normalizer.Run(acc.norm, first).1.text, Normalizer.Run(next.norm, rest).1.text);
    }
  }

  lemma NothingGrown(content: Option<string>)
    ensures Grown(content, "") == content
  {
  }

  lemma ChunkContent(o: Options, acc: Acc, c: Chunk, text: string)
    requires text == if PieceOf(c).Some? then OrEmpty(PieceOf(c).value.content) else ""
    ensures
      var after := WithChunk(o, acc, c);
      if o.xmlTags then
        after.norm == Normalizer.Run(acc.norm, text).0 &&
        after.content == Grown(acc.content, Normalizer.Run(acc.norm, text).1.text)
      else after.content == Grown(acc.content, text)
  {
    hide Normalizer.Run, Apply, Capped;
    ThinkingTokens.RunNothing(acc.norm);
  }

  lemma {:induction false} FoldReasoning(o: Options, acc: Acc, chunks: seq<Chunk>)
    requires |acc.reasoning| <= o.maxReasoning
    ensures Fold(o, acc, chunks).reasoning == Capped(acc.reasoning, Reasonings(chunks), o.maxReasoning)
    decreases |chunks|
  {
    hide Normalizer.Run, Apply;
    if chunks != [] {
      var next := WithChunk(o, acc, chunks[0]);
      assert Reasonings(chunks)[1..] == Reasonings(chunks[1..]);
      OneCapped(acc.reasoning, Reasonings(chunks)[0], o.maxReasoning);
      assert acc.reasoning + "" == acc.reasoning;
      assert next.reasoning == Capped(acc.reasoning, [Reasonings(chunks)[0]], o.maxReasoning);
      FoldReasoning(o, next, chunks[1..]);
    }
  }

  lemma OneCapped(buffer: string, text: string, max: nat)
    requires |buffer| <= max
    ensures
      var grown := buffer + text;
      Capped(buffer, [text], max) == if |grown| > max then grown[..max] else grown
    ensures |Capped(buffer, [text], max)| <= max
  {
    assert [text][1..] == [];
  }

  lemma {:induction false} FoldTools(o: Options, acc: Acc, chunks: seq<Chunk>)
    requires o.accumulateTools
    ensures Fold(o, acc, chunks).partials == Apply(acc.partials, ToolItems(chunks))
    decreases |chunks|
  {
    hide Normalizer.Run, Apply, Capped;
    if chunks == [] {
      NothingApplied(acc.partials);
    } else {
      var next := WithChunk(o, acc, chunks[0]);
      NothingApplied(acc.partials);
      FoldTools(o, next, chunks[1..]);
      var first := if PieceOf(chunks[0]).Some? && PieceOf(chunks[0]).value.toolCalls.Items?
                   then PieceOf(chunks[0]).value.toolCalls.items else [];
      ApplyAppend(acc.partials, first, ToolItems(chunks[1..]));
    }
  }

  lemma NothingApplied(partials: Partials)
    ensures Apply(partials, []) == partials
  {
  }

  /** The text a consumer ends up with. */
  function FinalText(o: Options, pieces: seq<string>): string
  {
    if o.xmlTags then Thinking.StreamedText([Flatten(pieces)]) else Flatten(pieces)
  }

  /**
    Main result: content, reasoning and tool calls of a finished stream are functions of the whole content, the whole
    reasoning and the tool fragments in order. How content is spread over chunks makes no difference.
   */
  lemma StreamMeans(o: Options, chunks: seq<Chunk>)
    ensures
      var result := Finish(o, Fold(o, START, chunks));
      result.Ok? ==>
        result.message.content == NonEmpty(FinalText(o, Contents(chunks))) &&
        OrEmpty(result.message.reasoning) == (var whole := Flatten(Reasonings(chunks));
          if |whole| > o.maxReasoning then whole[..o.maxReasoning] else whole) &&
        result.message.toolCalls == if o.accumulateTools then Collected(ToolItems(chunks), o.xmlTags) else []
  {
    hide Fold, FinalCalls, Apply, Normalizer.Run, Capped;
    var acc := Fold(o, START, chunks);
    FoldContent(o, START, chunks);
    FoldReasoning(o, START, chunks);
    CappedIsPrefix("", Reasonings(chunks), o.maxReasoning);
    assert "" + Flatten(Reasonings(chunks)) == Flatten(Reasonings(chunks));
    if o.accumulateTools {
      FoldTools(o, START, chunks);
    }
    var text := Flatten(Contents(chunks));
    OneCall(text);
    GrownTwice(None, Normalizer.Run(Normalizer.START, text).1.text, acc.norm.buffer);
    GrownFromNothing(text);
    GrownFromNothing(Normalizer.Run(Normalizer.START, text).1.text + Normalizer.Run(Normalizer.START, text).0.buffer);
  }

  function Reasons(chunks: seq<Chunk>): seq<Option<string>>
  {
    seq(|chunks|, i requires 0 <= i < |chunks| =>
      if chunks[i].choice.Some? then chunks[i].choice.value.finishReason else None)
  }

  /** Reading from the end: the newest value that is set. */
  function Newest<T>(values: seq<Option<T>>): Option<T>
  {
    if values == [] then None
    else if values[|values| - 1].Some? then values[|values| - 1]
    else Newest(values[..|values| - 1])
  }

  function Usages(chunks: seq<Chunk>): seq<Option<string>>
  {
    seq(|chunks|, i requires 0 <= i < |chunks| => chunks[i].usage)
  }

  lemma FlagsOfChunk(o: Options, acc: Acc, c: Chunk)
    ensures
      var after := WithChunk(o, acc, c);
      after.sawChoice == (acc.sawChoice || c.choice.Some?) &&
      after.usage == (if c.usage.Some? then c.usage else acc.usage) &&
      after.finishReason == if c.choice.Some? && OrEmpty(c.choice.value.finishReason) != ""
                            then c.choice.value.finishReason else acc.finishReason
  {
    hide WithPiece, OrEmpty;
    if c.choice.Some? && c.choice.value.delta.Some? {
      PieceKeepsFlags(o,
        acc.(usage := if c.usage.Some? then c.usage else acc.usage, sawChoice := true,
             finishReason := if OrEmpty(c.choice.value.finishReason) != "" then c.choice.value.finishReason
                             else acc.finishReason),
        c.choice.value.delta.value);
    }
  }

  lemma PieceKeepsFlags(o: Options, acc: Acc, p: Piece)
    ensures
      var after := WithPiece(o, acc, p);
      after.sawChoice == acc.sawChoice && after.usage == acc.usage && after.finishReason == acc.finishReason
  {
    hide Normalizer.Run, Apply, Capped, Grown, OrEmpty;
  }

  /** The stream fails for want of choices iff no chunk had one; finish reason and usage are the newest ones sent. */
  lemma {:induction false} StreamEnds(o: Options, chunks: seq<Chunk>)
    ensures
      var acc := Fold(o, START, chunks);
      (Finish(o, acc).NoChoices? <==> forall c :: c in chunks ==> c.choice.None?) &&
      OrEmpty(acc.finishReason) == LastNonEmpty(Reasons(chunks)) && acc.usage == Newest(Usages(chunks))
    decreases |chunks|
  {
    hide WithChunk, FinalCalls, Grown, Fold, LastNonEmpty, Newest, Reasons, Usages;
    if chunks == [] {
      NoStream(o);
    } else {
      var n := |chunks| - 1;
      var front, last := chunks[..n], chunks[n];
      StreamEnds(o, front);
      assert chunks == front + [last];
      FoldSnoc(o, front, last);
      FlagsOfChunk(o, Fold(o, START, front), last);
      LastOfStream(front, last);
    }
  }

  lemma NoStream(o: Options)
    ensures Fold(o, START, []) == START && LastNonEmpty(Reasons([])) == "" && Newest(Usages([])) == None
  {
  }

  lemma FoldSnoc(o: Options, front: seq<Chunk>, last: Chunk)
    ensures Fold(o, START, front + [last]) == WithChunk(o, Fold(o, START, front), last)
  {
    hide WithChunk;
    FoldAppend(o, START, front, [last]);
    assert [last][1..] == [];
  }

  lemma LastOfStream(front: seq<Chunk>, last: Chunk)
    ensures
      var reason := if last.choice.Some? then OrEmpty(last.choice.value.finishReason) else "";
      LastNonEmpty(Reasons(front + [last])) == if reason != "" then reason else LastNonEmpty(Reasons(front))
    ensures Newest(Usages(front + [last])) == if last.usage.Some? then last.usage else Newest(Usages(front))
  {
    var n := |front|;
    assert Reasons(front + [last])[..n] == Reasons(front);
    assert Usages(front + [last])[..n] == Usages(front);
  }

  lemma GrownFromNothing(text: string)
    ensures Grown(None, text) == NonEmpty(text)
  {
    assert "" + text == text;
  }

  lemma OneCall(text: string)
    ensures Thinking.StreamedText([text])
         == Normalizer.Run(Normalizer.START, text).1.text + Normalizer.Run(Normalizer.START, text).0.buffer
  {
    hide Normalizer.Run;
    Thinking.CallsAreOneRun(Normalizer.START, [text]);
    assert [text][1..] == [] && Flatten([text]) == text + Flatten([text][1..]);
    assert text + "" == text;
  }
}
