/**
  The Anthropic stream consumer: text chunks to lines, lines to frames, frames to block events, events to a message.
 */
module AnthropicStream {
  import opened Prelude
  import opened LineFraming
  import opened Ordering
  import opened AnthropicBlocks
  import opened AnthropicMessage
  import opened AnthropicTags
  import opened AnthropicUsage
  import opened ThinkingNormalizer

  // ----- One payload, one frame, one line -----

  /** What is collected while the stream is read. */
  datatype Progress = Progress(tagged: Tagged, meter: Meter)

  const NO_PROGRESS := Progress(NONE, UNMEASURED)

  /** `parse` is the JSON parser together with the reading of the event's shape; `None` is malformed JSON. */
  type Parser = string -> Option<Payload>

  function HandlePayload(o: Options, s: Progress, p: Payload): Result<Progress>
  {
    match HandleTagged(o, s.tagged, p.event)
    case Fail(error) => Fail(error)
    case Ok(next) => Ok(Progress(next, Measured(s.meter, p)))
  }

  function HandleRaw(o: Options, parse: Parser, s: Progress, raw: string): Result<Progress>
  {
    match parse(raw)
    case None => Fail(MalformedJson)
    case Some(p) => HandlePayload(o, s, p)
  }

  function HandleParts(o: Options, parse: Parser, s: Progress, parts: seq<string>): Result<Progress>
    decreases |parts|
  {
    if parts == [] then Ok(s)
    else if Trim(parts[0]) == "" then HandleParts(o, parse, s, parts[1..])
    else match HandleRaw(o, parse, s, parts[0])
      case Fail(error) => Fail(error)
      case Ok(next) => HandleParts(o, parse, next, parts[1..])
  }

  function DataParts(lines: seq<string>): seq<string>
  {
    if lines == [] then []
    else var line := DropCarriageReturn(lines[0]);
         (if "data:" <= line then [TrimStart(line[5..])] else []) + DataParts(lines[1..])
  }

  /** Several data lines are one payload when that parses and is accepted, and one payload each otherwise. */
  function HandleFrame(o: Options, parse: Parser, s: Progress, lines: seq<string>): Result<Progress>
  {
    var parts := DataParts(lines);
    if |parts| <= 1 then HandleParts(o, parse, s, parts)
    else if Trim(Join(parts, "\n")) == "" then Ok(s)
    else match HandleRaw(o, parse, s, Join(parts, "\n"))
      case Ok(next) => Ok(next)
      case Fail(_) => HandleParts(o, parse, s, parts)
  }

  datatype Reader = Reader(progress: Progress, eventLines: seq<string>)

  function ReadLine(o: Options, parse: Parser, r: Reader, line: string): Result<Reader>
  {
    var trimmed := DropCarriageReturn(line);
    if trimmed == "" then
      (match HandleFrame(o, parse, r.progress, r.eventLines)
       case Fail(error) => Fail(error)
       case Ok(next) => Ok(Reader(next, [])))
    else if ":" <= trimmed then Ok(r)
    else Ok(r.(eventLines := r.eventLines + [trimmed]))
  }

  function ReadLines(o: Options, parse: Parser, r: Reader, lines: seq<string>): Result<Reader>
    decreases |lines|
  {
    if lines == [] then Ok(r)
    else match ReadLine(o, parse, r, lines[0])
      case Fail(error) => Fail(error)
      case Ok(next) => ReadLines(o, parse, next, lines[1..])
  }

  /** What the caller gets. */
  datatype Reply = Reply(message: Message, usage: Option<ModelUsage>, finishReason: Option<string>)

  function Replied(o: Options, s: Progress): Result<Reply>
  {
    match FinishTagged(o, s.tagged)
    case Fail(error) => Fail(error)
    case Ok(message) => Ok(Reply(message, ToModelUsage(s.meter.usage), s.meter.stopReason))
  }

  /** The reply of a whole decoded stream. */
  function Consume(o: Options, parse: Parser, text: string): Result<Reply>
  {
    match ReadLines(o, parse, Reader(NO_PROGRESS, []), AllLines(text))
    case Fail(error) => Fail(error)
    case Ok(r) =>
      match HandleFrame(o, parse, r.progress, r.eventLines)
      case Fail(error) => Fail(error)
      case Ok(s) => Replied(o, s)
  }

  // ----- The imperative consumer -----

  class MessageAccumulator {
    const o: Options
    const parse: Parser
    const thinkNorm: ThinkingStreamNormalizer?
    var blocks: map<int, Block>
    var blockOrder: seq<int>
    var toolCallsByIndex: seq<Keyed<ToolCall>>
    var sawMessageStart: bool
    var sawMessageStop: bool
    var forbiddenToolUse: bool
    var usageFields: Option<Usage>
    var stopReason: Option<string>
    var eventLines: seq<string>

    /** There is a normalizer exactly when thinking comes as tags in the text. */
    ghost predicate Valid()
      reads this, thinkNorm
    {
      (thinkNorm != null <==> o.thinking.XmlTags?) && (thinkNorm != null ==> thinkNorm.Valid())
    }

    ghost function Model(): Acc
      reads this
    {
      Acc(blocks, toolCallsByIndex, sawMessageStart, sawMessageStop, forbiddenToolUse)
    }

    ghost function Tags(): Tagged
      reads this, thinkNorm
    {
      Tagged(Model(), if thinkNorm == null then START else thinkNorm.Model(), blockOrder)
    }

    ghost function Made(): Progress
      reads this, thinkNorm
    {
      Progress(Tags(), Meter(usageFields, stopReason))
    }

    ghost function State(): Reader
      reads this, thinkNorm
    {
      Reader(Made(), eventLines)
    }

    constructor (o: Options, parse: Parser)
      ensures Valid() && this.o == o && this.parse == parse && State() == Reader(NO_PROGRESS, [])
      ensures thinkNorm == null || fresh(thinkNorm)
    {
      this.o, this.parse := o, parse;
      blocks, blockOrder, toolCallsByIndex, eventLines := map[], [], [], [];
      sawMessageStart, sawMessageStop, forbiddenToolUse := false, false, false;
      usageFields, stopReason := None, None;
      if o.thinking.XmlTags? {
        thinkNorm := new ThinkingStreamNormalizer();
      } else {
        thinkNorm := null;
      }
    }

    /** `blocks.set`: a new key goes to the end of the map. */
    method SetBlock(index: int, block: Block)
      modifies this`blocks, this`blockOrder
      ensures blocks == old(blocks)[index := block]
      ensures blockOrder == if index in old(blocks) then old(blockOrder) else old(blockOrder) + [index]
    {
      if index !in blocks {
        blockOrder := blockOrder + [index];
      }
      blocks := blocks[index := block];
    }

    method FinalizeToolBlock(index: int) returns (error: Option<Error>)
      requires index in blocks && blocks[index].ToolBlock?
      modifies this`blocks, this`toolCallsByIndex
      ensures Finalize(o, old(CellOf(Model(), index))).Fail? ==>
        error == Some(InvalidToolInput) && Model() == old(Model())
      ensures Finalize(o, old(CellOf(Model(), index))).Ok? ==>
                error == None &&
                Model() == Store(old(Model()), index, old(CellOf(Model(), index)),
                                 Finalize(o, old(CellOf(Model(), index))).value)
    {
      var st := blocks[index];
      if st.finalized {
        assert blocks[index := st] == blocks;
        return None;
      }
      var arguments := ArgumentsOf(o, st.inputJson);
      if arguments.None? {
        return Some(InvalidToolInput);
      }
      if st.id != "" && st.name != "" {
        toolCallsByIndex := toolCallsByIndex + [(index, ToolCall(st.id, o.toolName(st.name), arguments.value))];
      }
      blocks := blocks[index := st.(finalized := true)];
      return None;
    }

    /** Text is added to its block as it is, or as far as the normalizer lets it through. */
    method HandleText(index: int, text: string)
      requires Valid() && text != ""
      modifies this`blocks, this`blockOrder, thinkNorm
      ensures Valid() && HandleTagged(o, old(Tags()), DeltaText(index, text)) == Ok(Tags())
    {
      hide Run, Handle;
      if !(index in blocks && blocks[index].TextBlock?) {
        SetBlock(index, TextBlock(""));
      }
      ghost var was := TextAt(old(blocks), index);
      assert blocks[index] == TextBlock(was);
      if thinkNorm != null {
        var _, more := thinkNorm.ProcessChunk(text);
        if more.Some? {
          blocks := blocks[index := TextBlock(blocks[index].text + more.value)];
        }
        assert was + "" == was;
        assert blocks == old(blocks)[index := blocks[index]];
      } else {
        blocks := blocks[index := TextBlock(blocks[index].text + text)];
        assert blocks == old(blocks)[index := blocks[index]];
        PlainText(o, old(Model()), index, text);
      }
    }

    method HandleDelta(e: WireEvent)
      requires Valid() && (e.DeltaThinking? || e.DeltaText? || e.DeltaJson?)
      modifies this`blocks, this`blockOrder, thinkNorm
      ensures Valid() && HandleTagged(o, old(Tags()), e) == Ok(Tags())
    {
      hide ItemsOf, Run;
      assert toolCallsByIndex + [] == toolCallsByIndex;
      match e {
        case DeltaThinking(index, thinking) =>
          if index in blocks && blocks[index].ThinkingBlock? {
            blocks := blocks[index := ThinkingBlock(blocks[index].text + thinking)];
          } else {
            StoreSame(Model(), index);
          }
        case DeltaText(index, text) =>
          if text != "" {
            HandleText(index, text);
          } else {
            StoreSame(Model(), index);
          }
        case DeltaJson(index, partial) =>
          if o.accumulateTools {
            if !(index in blocks && blocks[index].ToolBlock?) {
              SetBlock(index, ToolBlock("", "", "", false));
              assert "" + partial == partial;
            }
            var st := blocks[index];
            blocks := blocks[index := st.(inputJson := st.inputJson + partial)];
            assert blocks == old(blocks)[index := blocks[index]];
          } else {
            StoreSame(Model(), index);
          }
      }
    }

    method HandleStart(e: WireEvent)
      requires e.StartText? || e.StartThinking? || e.StartTool?
      modifies this`blocks, this`blockOrder, this`forbiddenToolUse
      ensures HandleTagged(o, old(Tags()), e) == Ok(Tags())
    {
      hide ItemsOf, Run;
      assert toolCallsByIndex + [] == toolCallsByIndex;
      match e {
        case StartText(index) => SetBlock(index, TextBlock(""));
        case StartThinking(index) =>
          if o.thinking.NativeBlocks? {
            SetBlock(index, ThinkingBlock(""));
          } else {
            StoreSame(Model(), index);
          }
        case StartTool(index, id, name) =>
          if !o.accumulateTools {
            forbiddenToolUse := true;
            StoreSame(Model(), index);
          } else {
            SetBlock(index, ToolBlock(id, name, "", false));
          }
      }
    }

    method HandleEvent(e: WireEvent) returns (error: Option<Error>)
      requires Valid()
      modifies this`blocks, this`blockOrder, this`toolCallsByIndex, this`sawMessageStart, this`sawMessageStop,
        this`forbiddenToolUse, thinkNorm
      ensures Valid()
      ensures match HandleTagged(o, old(Tags()), e)
              case Fail(e) => error == Some(e) && Tags() == old(Tags())
              case Ok(next) => error == None && Tags() == next
    {
      hide ItemsOf;
      error := None;
      match e {
        case MessageStart => sawMessageStart := true;
        case Ignored =>
        case StreamError => error := Some(ErrorEvent);
        case MessageStop => sawMessageStop := true;
        case StartText(_) => HandleStart(e);
        case StartThinking(_) => HandleStart(e);
        case StartTool(_, _, _) => HandleStart(e);
        case DeltaThinking(_, _) => HandleDelta(e);
        case DeltaText(_, _) => HandleDelta(e);
        case DeltaJson(_, _) => HandleDelta(e);
        case StopBlock(index) =>
          StoreSame(Model(), index);
          if index in blocks && blocks[index].ToolBlock? && o.accumulateTools {
            error := FinalizeToolBlock(index);
          }
      }
    }

    method HandleDataPayload(raw: string) returns (error: Option<Error>)
      requires Valid()
      modifies this, thinkNorm
      ensures Valid() && eventLines == old(eventLines)
      ensures match HandleRaw(o, parse, old(Made()), raw)
              case Fail(e) => error == Some(e) && Made() == old(Made())
              case Ok(s) => error == None && Made() == s
    {
      hide HandleTagged;
      var payload := parse(raw);
      if payload.None? {
        return Some(MalformedJson);
      }
      var p := payload.value;
      error := HandleEvent(p.event);
      if error.Some? {
        return;
      }
      if p.event.MessageStart? && p.usage.Some? && p.usage.value.input.Count? {
        usageFields := p.usage;
      }
      if p.event.Ignored? {
        if p.usage.Some? && p.usage.value.output.Count? {
          usageFields := Some(Spread(if usageFields.Some? then usageFields.value else NO_FIELDS, p.usage.value));
        }
        if p.stopReason != "" {
          stopReason := Some(p.stopReason);
        }
      }
    }

    method HandleEach(parts: seq<string>) returns (error: Option<Error>)
      requires Valid()
      modifies this, thinkNorm
      ensures Valid() && eventLines == old(eventLines)
      ensures match HandleParts(o, parse, old(Made()), parts)
              case Fail(e) => error == Some(e)
              case Ok(s) => error == None && Made() == s
    {
      hide HandleRaw;
      error := None;
      for i := 0 to |parts|
        invariant Valid() && eventLines == old(eventLines)
        invariant HandleParts(o, parse, old(Made()), parts) == HandleParts(o, parse, Made(), parts[i..])
      {
        assert parts[i..][1..] == parts[i + 1..];
        if Trim(parts[i]) != "" {
          error := HandleDataPayload(parts[i]);
          if error.Some? {
            return;
          }
        }
      }
      error := None;
    }

    method FlushSseEvent() returns (error: Option<Error>)
      requires Valid()
      modifies this, thinkNorm
      ensures Valid()
      ensures match HandleFrame(o, parse, old(Made()), old(eventLines))
              case Fail(e) => error == Some(e)
              case Ok(s) => error == None && State() == Reader(s, [])
    {
      hide HandleRaw, HandleParts, DataParts;
      if eventLines == [] {
        NoFrame(o, parse, Made());
        return None;
      }
      var dataParts := CollectDataParts(eventLines);
      eventLines := [];
      if |dataParts| <= 1 {
        error := HandleEach(dataParts);
        return;
      }
      var joined := Join(dataParts, "\n");
      if Trim(joined) == "" {
        return None;
      }
      error := HandleDataPayload(joined);
      if error.Some? {
        error := HandleEach(dataParts);
      }
    }

    method FlushLine(line: string) returns (error: Option<Error>)
      requires Valid()
      modifies this, thinkNorm
      ensures Valid()
      ensures match ReadLine(o, parse, old(State()), line)
              case Fail(e) => error == Some(e)
              case Ok(r) => error == None && State() == r
    {
      var trimmed := DropCarriageReturn(line);
      if trimmed == "" {
        error := FlushSseEvent();
        return;
      }
      if ":" <= trimmed {
        return None;
      }
      eventLines := eventLines + [trimmed];
      return None;
    }

    method FinishOne(index: int) returns (error: Option<Error>)
      requires index in blocks
      modifies this`blocks, this`toolCallsByIndex
      ensures match FinalCell(o, old(CellOf(Model(), index)))
              case Fail(e) => error == Some(e)
              case Ok(cell) => error == None && Model() == Store(old(Model()), index, old(CellOf(Model(), index)), cell)
      ensures error == None ==> blocks.Keys == old(blocks).Keys
    {
      error := None;
      if blocks[index].ToolBlock? && o.accumulateTools && !blocks[index].finalized {
        error := FinalizeToolBlock(index);
      } else {
        StoreSame(Model(), index);
      }
    }

    /** Unfinished tool blocks are finished in whatever order the block map lists them. */
    method FinishBlocks() returns (error: Option<Error>)
      modifies this`blocks, this`toolCallsByIndex
      ensures (error == None) <==> FinalizeKeys(o, old(Model()), Sorted(old(blocks).Keys)).Ok?
      ensures error == None ==> SameCells(FinalizeKeys(o, old(Model()), Sorted(old(blocks).Keys)).value, Model())
      ensures error.Some? ==> error == Some(InvalidToolInput)
    {
      hide FinalCell, Store, CellOf, Assemble, FinalizeKeys, Sorted;
      error := None;
      ghost var order: seq<int>, start := [], Model();
      NoKeys(o, start);
      var todo := blocks.Keys;
      while todo != {}
        invariant todo <= blocks.Keys && blocks.Keys == old(blocks).Keys
        invariant forall k :: k in old(blocks).Keys <==> k in todo || k in order
        invariant NoRepeats(order) && (forall k :: k in order ==> k !in todo)
        invariant FinalizeKeys(o, start, order) == Ok(Model()) && error == None
        decreases |todo|
      {
        assert (forall k :: k !in todo) ==> todo == {};
        var index :| index in todo;
        todo := todo - {index};
        FinalizeKeysSnoc(o, start, order, index);
        order := order + [index];
        FinalizeErrors(o, CellOf(Model(), index));
        error := FinishOne(index);
        if error.Some? {
          FailsEarly(o, start, order, Sorted(old(blocks).Keys));
          return;
        }
      }
      SameAsItself(start);
      FinishByCells(o, start, start, order);
    }

    /** What the normalizer still holds goes to the text block that the map received last. */
    method FlushThinking()
      requires Valid()
      modifies this`blocks, thinkNorm
      ensures Model() == Flushed(old(Model()), blockOrder, old(Tags()).norm.buffer)
    {
      hide LastText;
      if thinkNorm == null {
        return;
      }
      var _, rest := thinkNorm.Flush();
      if rest.None? {
        return;
      }
      var i := |blockOrder|;
      assert blockOrder[..i] == blockOrder;
      while i > 0 && !(blockOrder[i - 1] in blocks && blocks[blockOrder[i - 1]].TextBlock?)
        invariant 0 <= i <= |blockOrder| && blocks == old(blocks)
        invariant LastText(blocks, blockOrder) == LastText(blocks, blockOrder[..i])
      {
        LastTextBack(blocks, blockOrder, i);
        i := i - 1;
      }
      LastTextBack(blocks, blockOrder, i);
      if i > 0 {
        var index := blockOrder[i - 1];
        blocks := blocks[index := TextBlock(blocks[index].text + rest.value)];
      }
    }
  }

  lemma LastTextBack(blocks: map<int, Block>, order: seq<int>, i: nat)
    requires i <= |order|
    ensures LastText(blocks, order[..i]) ==
      if i == 0 then None
      else if order[i - 1] in blocks && blocks[order[i - 1]].TextBlock? then Some(order[i - 1])
      else LastText(blocks, order[..i - 1])
  {
    if i > 0 {
      assert order[..i][..i - 1] == order[..i - 1];
    }
  }

  method CollectDataParts(eventLines: seq<string>) returns (dataParts: seq<string>)
    ensures dataParts == DataParts(eventLines)
  {
    hide TrimStart, DropCarriageReturn;
    dataParts := [];
    for i := 0 to |eventLines|
      invariant DataParts(eventLines) == dataParts + DataParts(eventLines[i..])
    {
      DataPartsCons(eventLines, i);
      var line := DropCarriageReturn(eventLines[i]);
      if "data:" <= line {
        dataParts := dataParts + [TrimStart(line[5..])];
      }
    }
    assert eventLines[|eventLines|..] == [];
  }

  lemma DataPartsCons(lines: seq<string>, i: nat)
    requires i < |lines|
    ensures var line := DropCarriageReturn(lines[i]);
            DataParts(lines[i..])
              == (if "data:" <= line then [TrimStart(line[5..])] else []) + DataParts(lines[i + 1..])
  {
    hide TrimStart, DropCarriageReturn;
    assert lines[i..][1..] == lines[i + 1..];
  }

  lemma NoFrame(o: Options, parse: Parser, s: Progress)
    ensures HandleFrame(o, parse, s, []) == Ok(s)
  {
  }

  lemma NoKeys(o: Options, acc: Acc)
    ensures FinalizeKeys(o, acc, []) == Ok(acc)
  {
  }

  lemma SameAsItself(acc: Acc)
    ensures SameCells(acc, acc)
  {
  }

  lemma {:induction false} FinalizeKeysSnoc(o: Options, acc: Acc, keys: seq<int>, k: int)
    ensures FinalizeKeys(o, acc, keys + [k]) ==
            match FinalizeKeys(o, acc, keys)
            case Fail(error) => Fail(error)
            case Ok(mid) =>
              match FinalCell(o, CellOf(mid, k))
              case Fail(error) => Fail(error)
              case Ok(cell) => Ok(Store(mid, k, CellOf(mid, k), cell))
    decreases |keys|
  {
    hide Finalize, Store, CellOf;
    if keys == [] {
      assert ([] + [k])[1..] == [];
    } else {
      assert (keys + [k])[1..] == keys[1..] + [k];
      if FinalCell(o, CellOf(acc, keys[0])).Ok? {
        FinalizeKeysSnoc(o, Store(acc, keys[0], CellOf(acc, keys[0]), FinalCell(o, CellOf(acc, keys[0])).value),
          keys[1..], k);
      }
    }
  }

  /** A block that cannot be finished fails the whole, in any order. */
  lemma FailsEarly(o: Options, acc: Acc, some: seq<int>, all: seq<int>)
    requires NoRepeats(some) && NoRepeats(all) && (forall k :: k in some ==> k in all)
    requires FinalizeKeys(o, acc, some).Fail?
    ensures FinalizeKeys(o, acc, all).Fail?
  {
    hide FinalCell, FinalizeKeys;
    FinalizeKeysCells(o, acc, some);
    FinalizeKeysCells(o, acc, all);
  }

  lemma {:induction false} ReadLinesAppend(o: Options, parse: Parser, r: Reader, a: seq<string>, b: seq<string>)
    ensures ReadLines(o, parse, r, a + b) ==
            match ReadLines(o, parse, r, a) case Fail(error) => Fail(error) case Ok(mid) => ReadLines(o, parse, mid, b)
    decreases |a|
  {
    hide ReadLine;
    if a == [] {
      assert a + b == b;
    } else {
      assert (a + b)[1..] == a[1..] + b;
      if ReadLine(o, parse, r, a[0]).Ok? {
        ReadLinesAppend(o, parse, ReadLine(o, parse, r, a[0]).value, a[1..], b);
      }
    }
  }

  lemma ReadLinesOne(o: Options, parse: Parser, r: Reader, line: string)
    ensures ReadLines(o, parse, r, [line]) == ReadLine(o, parse, r, line)
  {
    hide ReadLine;
    assert [line][1..] == [];
  }
}
