/**
  Content blocks of an Anthropic message stream: what one event does, and why only the events of a block's own
  index matter for that block.
 */
module AnthropicBlocks {
  import opened Prelude
  import opened Ordering
  import ThinkingDocuments

  /** A parsed `data:` payload. `Ignored` stands for pings, message deltas, unknown types and malformed deltas. */
  datatype WireEvent =
    | MessageStart
    | MessageStop
    | StreamError
    | Ignored
    | StartText(index: int)
    | StartThinking(index: int)
    | StartTool(index: int, id: string, name: string)
    | DeltaText(index: int, text: string)
    | DeltaThinking(index: int, thinking: string)
    | DeltaJson(index: int, partial: string)
    | StopBlock(index: int)

  datatype Block =
    | TextBlock(text: string)
    | ThinkingBlock(text: string)
    | ToolBlock(id: string, name: string, inputJson: string, finalized: bool)

  datatype ToolCall = ToolCall(id: string, name: string, arguments: string)

  /** The stream fails as a whole with one of these. */
  datatype Error = MalformedJson | ErrorEvent | InvalidToolInput | NoMessageStart | NoMessageStop | UnexpectedToolUse

  datatype Result<+T> = Ok(value: T) | Fail(error: Error)

  /**
    Consumer options. `toolInput` re-serialises accumulated tool input (`None` when it is not JSON, and the empty
    object when it is blank); `toolName` maps a wire tool name back to the caller's name.
   */
  datatype Options = Options(
    accumulateTools: bool, thinking: ThinkingFormat, toolInput: string -> Option<string>, toolName: string -> string)

  datatype ThinkingFormat = NativeBlocks | XmlTags | NoThinking

  /** The arguments of a call: with tags in the text, tags are stripped from arguments as well. */
  function ArgumentsOf(o: Options, inputJson: string): Option<string>
  {
    match o.toolInput(inputJson)
    case None => None
    case Some(arguments) =>
      Some(if o.thinking.XmlTags? then ThinkingDocuments.StripXmlThinkingTags(arguments) else arguments)
  }

  // ----- One block and the calls it produced -----

  datatype Cell = Cell(block: Option<Block>, calls: seq<ToolCall>)

  const EMPTY_CELL: Cell := Cell(None, [])

  /** Emit the tool call of an unfinished tool block; blocks without id or name emit nothing. */
  function Finalize(o: Options, c: Cell): Result<Cell>
  {
    match c.block
    case Some(ToolBlock(id, name, inputJson, finalized)) =>
      if finalized then Ok(c)
      else (match ArgumentsOf(o, inputJson)
        case None => Fail(InvalidToolInput)
        case Some(arguments) =>
          Ok(Cell(Some(ToolBlock(id, name, inputJson, true)),
            c.calls + if id != "" && name != "" then [ToolCall(id, o.toolName(name), arguments)] else [])))
    case _ => Ok(c)
  }

  predicate HasIndex(e: WireEvent)
  {
    !e.MessageStart? && !e.MessageStop? && !e.StreamError? && !e.Ignored?
  }

  /** What an event does to the block with its own index. */
  function Touch(o: Options, c: Cell, e: WireEvent): Result<Cell>
    requires HasIndex(e)
  {
    match e
    case StartText(_) => Ok(c.(block := Some(TextBlock(""))))
    case StartThinking(_) => if o.thinking.NativeBlocks? then Ok(c.(block := Some(ThinkingBlock("")))) else Ok(c)
    case StartTool(_, id, name) =>
      if o.accumulateTools then Ok(c.(block := Some(ToolBlock(id, name, "", false)))) else Ok(c)
    case DeltaText(_, text) =>
      if text == "" then Ok(c)
      else (match c.block
        case Some(TextBlock(t)) => Ok(c.(block := Some(TextBlock(t + text))))
        case _ => Ok(c.(block := Some(TextBlock(text)))))
    case DeltaThinking(_, thinking) =>
      (match c.block
       case Some(ThinkingBlock(t)) => Ok(c.(block := Some(ThinkingBlock(t + thinking))))
       case _ => Ok(c))
    case DeltaJson(_, partial) =>
      if !o.accumulateTools then Ok(c)
      else (match c.block
        case Some(ToolBlock(id, name, json, finalized)) =>
          Ok(c.(block := Some(ToolBlock(id, name, json + partial, finalized))))
        case _ => Ok(c.(block := Some(ToolBlock("", "", partial, false)))))
    case StopBlock(_) => if o.accumulateTools then Finalize(o, c) else Ok(c)
  }

  function TouchAll(o: Options, c: Cell, events: seq<WireEvent>): Result<Cell>
    requires forall e :: e in events ==> HasIndex(e)
    decreases |events|
  {
    if events == [] then Ok(c)
    else match Touch(o, c, events[0])
      case Fail(error) => Fail(error)
      case Ok(next) => TouchAll(o, next, events[1..])
  }

  // ----- The whole accumulator -----

  datatype Acc = Acc(blocks: map<int, Block>, calls: seq<Keyed<ToolCall>>, started: bool, stopped: bool,
    forbidden: bool)

  const EMPTY: Acc := Acc(map[], [], false, false, false)

  function CellOf(acc: Acc, index: int): Cell
  {
    Cell(if index in acc.blocks then Some(acc.blocks[index]) else None, ItemsOf(index, acc.calls))
  }

  /** Put a cell back: its block, and the calls it gained. */
  function Store(acc: Acc, index: int, before: Cell, after: Cell): Acc
  {
    acc.(blocks := if after.block.Some? then acc.blocks[index := after.block.value] else acc.blocks,
         calls := acc.calls + (if |before.calls| < |after.calls| then [(index, after.calls[|before.calls|])] else []))
  }

  function Handle(o: Options, acc: Acc, e: WireEvent): Result<Acc>
  {
    match e
    case MessageStart => Ok(acc.(started := true))
    case MessageStop => Ok(acc.(stopped := true))
    case StreamError => Fail(ErrorEvent)
    case Ignored => Ok(acc)
    case _ =>
      var marked := if e.StartTool? && !o.accumulateTools then acc.(forbidden := true) else acc;
      match Touch(o, CellOf(acc, e.index), e)
      case Fail(error) => Fail(error)
      case Ok(cell) => Ok(Store(marked, e.index, CellOf(acc, e.index), cell))
  }

  function HandleAll(o: Options, acc: Acc, events: seq<WireEvent>): Result<Acc>
    decreases |events|
  {
    if events == [] then Ok(acc)
    else match Handle(o, acc, events[0])
      case Fail(error) => Fail(error)
      case Ok(next) => HandleAll(o, next, events[1..])
  }

  // ----- Independence of indices -----

  /** The events of one block. */
  function Project(index: int, events: seq<WireEvent>): (own: seq<WireEvent>)
    ensures forall e :: e in own ==> HasIndex(e)
  {
    if events == [] then []
    else (if HasIndex(events[0]) && events[0].index == index then [events[0]] else []) + Project(index, events[1..])
  }

  /** A finished step adds at most one call to a cell, behind the others, and never removes the block. */
  lemma TouchGrows(o: Options, c: Cell, e: WireEvent)
    requires HasIndex(e) && Touch(o, c, e).Ok?
    ensures var d := Touch(o, c, e).value;
            && (c.block.Some? ==> d.block.Some?)
            && (d.calls == c.calls || (|d.calls| == |c.calls| + 1 && d.calls[..|c.calls|] == c.calls))
  {
  }

  lemma TouchFails(o: Options, c: Cell, e: WireEvent)
    requires HasIndex(e)
    ensures Touch(o, c, e).Fail? ==> Touch(o, c, e).error == InvalidToolInput
  {
  }

  /** An event changes the cell of its own index as `Touch` says, and no other cell. */
  lemma HandleIsLocal(o: Options, acc: Acc, e: WireEvent, index: int)
    requires HasIndex(e)
    ensures Handle(o, acc, e).Ok? <==> Touch(o, CellOf(acc, e.index), e).Ok?
    ensures Handle(o, acc, e).Ok? ==>
              CellOf(Handle(o, acc, e).value, index) ==
              if index == e.index then Touch(o, CellOf(acc, e.index), e).value else CellOf(acc, index)
    ensures Handle(o, acc, e).Fail? ==> Handle(o, acc, e).error == InvalidToolInput
  {
    hide Touch, ItemsOf, Store;
    TouchFails(o, CellOf(acc, e.index), e);
    if Handle(o, acc, e).Ok? {
      var before := CellOf(acc, e.index);
      var after := Touch(o, before, e).value;
      TouchGrows(o, before, e);
      StoreIsLocal(acc, e.index, after, index);
      StoreIsLocal(acc.(forbidden := true), e.index, after, index);
    }
  }

  /** A cell that grew by at most one call is put back where it came from. */
  lemma StoreIsLocal(acc: Acc, k: int, after: Cell, index: int)
    requires
      var before := CellOf(acc, k);
      (before.block.Some? ==> after.block.Some?) &&
      (after.calls == before.calls ||
       (|after.calls| == |before.calls| + 1 && after.calls[..|before.calls|] == before.calls))
    ensures CellOf(Store(acc, k, CellOf(acc, k), after), index) == if index == k then after else CellOf(acc, index)
  {
    hide ItemsOf;
    var before := CellOf(acc, k);
    var added := if |before.calls| < |after.calls| then [(k, after.calls[|before.calls|])] else [];
    ItemsOfAppend(index, acc.calls, added);
    ItemsOfOne(index, k, added);
  }

  lemma ItemsOfOne(k: int, index: int, added: seq<Keyed<ToolCall>>)
    requires |added| <= 1 && (added != [] ==> added[0].0 == index)
    ensures ItemsOf(k, added) == if added != [] && k == index then [added[0].1] else []
  {
    if added != [] {
      assert added[1..] == [];
    }
  }
}
