/** From chunks of decoded text to the message: chunking, framing and interleaving together. */
module AnthropicDelivery {
  import opened Prelude
  import opened LineFraming
  import opened Ordering
  import opened AnthropicBlocks
  import opened AnthropicMessage
  import opened AnthropicContent
  import opened AnthropicTags
  import opened AnthropicUsage
  import opened AnthropicStream
  import opened AnthropicWire
  import TextOrder

  /** Sort and join what the accumulator holds. */
  method BuildMessage(a: MessageAccumulator) returns (message: Message)
    ensures message == Assemble(a.Model())
  {
    hide TextOf, ThinkingParts, StableSort, Values;
    var sortedIndices := Sorted(a.blocks.Keys);
    var text, thinking := "", [];
    for i := 0 to |sortedIndices|
      invariant TextOf(a.blocks, sortedIndices) == text + TextOf(a.blocks, sortedIndices[i..])
      invariant ThinkingParts(a.blocks, sortedIndices) == thinking + ThinkingParts(a.blocks, sortedIndices[i..])
    {
      PartsCons(a.blocks, sortedIndices, i);
      var st := a.blocks[sortedIndices[i]];
      if st.TextBlock? && st.text != "" {
        text := text + st.text;
      } else if st.ThinkingBlock? && st.text != "" {
        thinking := thinking + [st.text];
      }
    }
    assert sortedIndices[|sortedIndices|..] == [];
    NoParts(a.blocks);
    assert text + "" == text && thinking + [] == thinking;
    message := Message(NonEmpty(text), Values(StableSort(a.toolCallsByIndex)),
      if thinking == [] then None else Some(Join(thinking, "\n\n")));
  }

  lemma PartsCons(blocks: map<int, Block>, keys: seq<int>, i: nat)
    requires i < |keys| && keys[i] in blocks
    ensures var st := blocks[keys[i]];
            && TextOf(blocks, keys[i..]) == (if st.TextBlock? then st.text else "") + TextOf(blocks, keys[i + 1..])
            && ThinkingParts(blocks, keys[i..]) ==
                 (if st.ThinkingBlock? && st.text != "" then [st.text] else []) + ThinkingParts(blocks, keys[i + 1..])
  {
    assert keys[i..][1..] == keys[i + 1..];
  }

  lemma NoParts(blocks: map<int, Block>)
    ensures TextOf(blocks, []) == "" && ThinkingParts(blocks, []) == []
  {
  }

  /** The read loop: take complete lines off the buffer as chunks arrive. */
  method ReadChunk(a: MessageAccumulator, pending: string) returns (error: Option<Error>, lineBuf: string)
    requires a.Valid()
    modifies a, a.thinkNorm
    ensures a.Valid()
    ensures match ReadLines(a.o, a.parse, old(a.State()), Lines(pending))
            case Fail(e) => error == Some(e)
            case Ok(r) => error == None && a.State() == r && lineBuf == Unfinished(pending)
  {
    hide ReadLine, LineFeed;
    lineBuf, error := pending, None;
    var nl := LineFeed(lineBuf);
    while nl < |lineBuf|
      invariant nl == LineFeed(lineBuf) && nl <= |lineBuf| && error == None && a.Valid()
      invariant ReadLines(a.o, a.parse, old(a.State()), Lines(pending)) ==
                ReadLines(a.o, a.parse, a.State(), Lines(lineBuf))
      invariant Unfinished(lineBuf) == Unfinished(pending)
      decreases |lineBuf|
    {
      var line := lineBuf[..nl];
      assert Lines(lineBuf)[1..] == Lines(lineBuf[nl + 1..]);
      lineBuf := lineBuf[nl + 1..];
      error := a.FlushLine(line);
      if error.Some? {
        return;
      }
      nl := LineFeed(lineBuf);
    }
  }

  /** Main result: the outcome depends on the decoded text only, not on its chunks. */
  method ConsumeAnthropicMessagesStream(o: Options, parse: Parser, chunks: seq<string>)
      returns (result: Result<Reply>)
    ensures result == Consume(o, parse, Flatten(chunks))
  {
    hide ReadLine, LineFeed, HandleFrame, Replied;
    var a := new MessageAccumulator(o, parse);
    var lineBuf := "";
    var error: Option<Error>;
    ghost var start := Reader(NO_PROGRESS, []);
    NoText(o, parse);
    for i := 0 to |chunks|
      invariant fresh(a) && (a.thinkNorm == null || fresh(a.thinkNorm)) && a.Valid() && a.o == o && a.parse == parse
      invariant lineBuf == Unfinished(Flatten(chunks[..i]))
      invariant ReadLines(o, parse, start, Lines(Flatten(chunks[..i]))) == Ok(a.State())
    {
      assert chunks[..i + 1] == chunks[..i] + [chunks[i]];
      FlattenSnoc(chunks[..i], chunks[i]);
      LinesAppend(Flatten(chunks[..i]), chunks[i]);
      ReadLinesAppend(o, parse, start, Lines(Flatten(chunks[..i])), Lines(lineBuf + chunks[i]));
      error, lineBuf := ReadChunk(a, lineBuf + chunks[i]);
      if error.Some? {
        FailsInPrefix(o, parse, chunks, i + 1, error.value);
        return Fail(error.value);
      }
    }
    assert chunks[..|chunks|] == chunks;
    ghost var text := Flatten(chunks);
    if lineBuf != "" {
      ReadLinesAppend(o, parse, start, Lines(text), [lineBuf]);
      ReadLinesOne(o, parse, a.State(), lineBuf);
      error := a.FlushLine(lineBuf);
      if error.Some? {
        return Fail(error.value);
      }
    } else {
      assert Lines(text) + [] == Lines(text);
    }
    error := a.FlushSseEvent();
    if error.Some? {
      return Fail(error.value);
    }
    result := FinishReply(a);
  }

  /** What follows the read loop: the markers, unfinished blocks, held back text, and the message. */
  method FinishReply(a: MessageAccumulator) returns (result: Result<Reply>)
    requires a.Valid()
    modifies a, a.thinkNorm
    ensures result == Replied(a.o, old(a.Made()))
  {
    hide FinalizeKeys, Assemble, Sorted, Flushed;
    if !a.sawMessageStart {
      return Fail(NoMessageStart);
    }
    if !a.sawMessageStop {
      return Fail(NoMessageStop);
    }
    if a.forbiddenToolUse {
      return Fail(UnexpectedToolUse);
    }
    ghost var tags := a.Tags();
    FinalizeKeysCells(a.o, tags.acc, Sorted(a.blocks.Keys));
    var error := a.FinishBlocks();
    if error.Some? {
      return Fail(error.value);
    }
    ghost var finished := a.Model();
    a.FlushThinking();
    FlushedAlike(
      FinalizeKeys(a.o, tags.acc, Sorted(tags.acc.blocks.Keys)).value, finished, tags.order, tags.norm.buffer);
    var message := BuildMessage(a);
    return Ok(Reply(message, ToModelUsage(a.usageFields), a.stopReason));
  }

  /** Blocks finished in another order are flushed to the same message. */
  lemma FlushedAlike(a: Acc, b: Acc, order: seq<int>, buffer: string)
    requires SameCells(a, b)
    ensures Assemble(Flushed(a, order, buffer)) == Assemble(Flushed(b, order, buffer))
  {
    hide Assemble, LastText;
    SameCellsSameBlocks(a, b);
    var x, y := Flushed(a, order, buffer), Flushed(b, order, buffer);
    assert x.calls == a.calls && y.calls == b.calls && x.blocks == y.blocks;
    forall k ensures CellOf(x, k) == CellOf(y, k) {
      assert CellOf(a, k) == CellOf(b, k);
    }
    SameCellsSameMessage(x, y);
  }

  lemma NoText(o: Options, parse: Parser)
    ensures Flatten<char>([]) == "" && Unfinished("") == "" && Lines("") == []
    ensures ReadLines(o, parse, Reader(NO_PROGRESS, []), []) == Ok(Reader(NO_PROGRESS, []))
  {
  }

  /** A failure in the first chunks is the failure of the stream. */
  lemma FailsInPrefix(o: Options, parse: Parser, chunks: seq<string>, n: nat, error: Error)
    requires n <= |chunks|
    requires ReadLines(o, parse, Reader(NO_PROGRESS, []), Lines(Flatten(chunks[..n]))) == Fail(error)
    ensures Consume(o, parse, Flatten(chunks)) == Fail(error)
  {
    hide ReadLine;
    var text, more := Flatten(chunks[..n]), Flatten(chunks[n..]);
    assert chunks == chunks[..n] + chunks[n..];
    FlattenAppend(chunks[..n], chunks[n..]);
    LinesAppend(text, more);
    var rest := Lines(Unfinished(text) + more) +
      if Unfinished(text + more) == "" then [] else [Unfinished(text + more)];
    ReadLinesAppend(o, parse, Reader(NO_PROGRESS, []), Lines(text), rest);
    assert AllLines(text + more) == Lines(text) + rest;
  }

  // ----- What arrives -----

  function TextKeys(contents: map<int, Content>): set<int>
  {
    set k | k in contents && contents[k].TextContent?
  }

  lemma {:induction false} InProjection(events: seq<WireEvent>, e: WireEvent)
    requires e in events && HasIndex(e)
    ensures e in Project(e.index, events)
    decreases |events|
  {
    if e != events[0] {
      InProjection(events[1..], e);
    }
  }

  lemma {:induction false} OwnEventKinds(index: int, c: Content, fragments: seq<string>)
    ensures forall e :: e in Deltas(index, c, fragments) ==> !IsText(e) || c.TextContent?
    ensures forall e :: e in Deltas(index, c, fragments) ==> c.TextContent? ==> e.DeltaText?
    decreases |fragments|
  {
    if fragments != [] {
      OwnEventKinds(index, c, fragments[1..]);
    }
  }

  /** In a stream of well-formed blocks text blocks hold text only. */
  lemma CarriedTextIsSeparate(events: seq<WireEvent>, contents: map<int, Content>)
    requires Carries(events, contents)
    ensures Separate(events, TextKeys(contents))
  {
    hide Project, Deltas;
    forall e | e in events && HasIndex(e)
      ensures if e.index in TextKeys(contents) then e.StartText? || e.DeltaText? || e.StopBlock? else !IsText(e)
    {
      InProjection(events, e);
      assert e.index in contents;
      OwnEventKinds(e.index, contents[e.index], contents[e.index].fragments);
    }
  }

  /** The text of the reply: as it was sent, and in tags mode read as a whole if it came in the order of the blocks. */
  ghost predicate Arrives(o: Options, events: seq<WireEvent>, contents: map<int, Content>, m: Message)
  {
    if o.thinking.XmlTags? then TextOrder.Orderly(Pieces(events)) ==> m == Read(SentMessage(o, contents))
    else m == SentMessage(o, contents)
  }

  lemma CarriedArrives(o: Options, events: seq<WireEvent>, contents: map<int, Content>)
    requires Carries(events, contents)
    ensures OutcomeTagged(o, events).Ok? <==> AllAcceptable(o, contents)
    ensures OutcomeTagged(o, events).Ok? ==> Arrives(o, events, contents, OutcomeTagged(o, events).value)
  {
    hide Outcome, OutcomeTagged, Carries, AllAcceptable, SentMessage, Read, Pieces, TextOrder.Orderly, Separate;
    WellFormedStream(o, events, contents);
    if o.thinking.XmlTags? {
      CarriedTextIsSeparate(events, contents);
      ReadsWholeInMessage(o, events, TextKeys(contents));
      if TextOrder.Orderly(Pieces(events)) {
        OrderlyTextReadsAsWhole(o, events, TextKeys(contents));
      }
    } else {
      PlainOutcome(o, events);
    }
  }

  /**
    Main result. Send content blocks in any interleaving, as SSE frames cut into any chunks, a payload over one data
    line or several: the consumer accepts them exactly when every block is acceptable, and returns the message that was
    sent with the newest usage and reason. A frame that is no JSON fails the stream.
   */
  method StreamDelivers(
    o: Options, parse: Parser, chunks: seq<string>,
    ghost frames: seq<Frame>, ghost last: Frame, ghost crlf: bool, ghost lf: bool, ghost contents: map<int, Content>)
    returns (result: Result<Reply>)
    requires Flatten(chunks) == Wire(frames, last, crlf, lf)
    requires forall f :: f in frames + [last] ==> Sendable(parse, f)
    ensures
      var (payloads, bad) := Sent(parse, frames + [last]);
      if bad then result.Fail?
      else Carries(Events(payloads), contents) ==>
        (result.Ok? <==> AllAcceptable(o, contents)) &&
        (result.Ok? ==>
          var meter := MeasuredAll(UNMEASURED, payloads);
          Arrives(o, Events(payloads), contents, result.value.message) &&
          result.value.usage == ToModelUsage(meter.usage) && result.value.finishReason == meter.stopReason)
  {
    hide Consume, Wire, Flatten, Sent, Sendable, Carries, AllAcceptable, Arrives, OutcomeTagged, MeasuredAll;
    ConsumeWire(o, parse, frames, last, crlf, lf);
    var (payloads, bad) := Sent(parse, frames + [last]);
    if !bad && Carries(Events(payloads), contents) {
      CarriedArrives(o, Events(payloads), contents);
    }
    result := ConsumeAnthropicMessagesStream(o, parse, chunks);
  }
}
