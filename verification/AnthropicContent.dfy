/** Well-formed streams: what the assembled message is, in terms of the content blocks the server meant to send. */
module AnthropicContent {
  import opened Prelude
  import opened Ordering
  import opened AnthropicBlocks
  import opened AnthropicMessage
  import ThinkingDocuments

  /** A content block and the fragments it is sent in. */
  datatype Content =
    | TextContent(fragments: seq<string>)
    | ThinkingContent(fragments: seq<string>)
    | ToolContent(id: string, name: string, fragments: seq<string>)

  function Deltas(index: int, c: Content, fragments: seq<string>): (es: seq<WireEvent>)
    ensures forall e :: e in es ==> HasIndex(e)
  {
    if fragments == [] then []
    else [Delta(index, c, fragments[0])] + Deltas(index, c, fragments[1..])
  }

  function Delta(index: int, c: Content, fragment: string): (e: WireEvent)
    ensures HasIndex(e)
  {
    match c
    case TextContent(_) => DeltaText(index, fragment)
    case ThinkingContent(_) => DeltaThinking(index, fragment)
    case ToolContent(_, _, _) => DeltaJson(index, fragment)
  }

  function Start(index: int, c: Content): (e: WireEvent)
    ensures HasIndex(e)
  {
    match c
    case TextContent(_) => StartText(index)
    case ThinkingContent(_) => StartThinking(index)
    case ToolContent(id, name, _) => StartTool(index, id, name)
  }

  /** The events of one block: start, deltas in order, stop. */
  function EventsFor(index: int, c: Content, begun: bool, stopped: bool): (es: seq<WireEvent>)
    ensures forall e :: e in es ==> HasIndex(e)
  {
    (if begun then [Start(index, c)] else []) +
    (Deltas(index, c, c.fragments) + if stopped then [StopBlock(index)] else [])
  }

  /** The stop may be missing, and the start of a text block that is not empty. */
  ghost predicate SentAs(index: int, c: Content, es: seq<WireEvent>)
  {
    exists begun, stopped ::
      es == EventsFor(index, c, begun, stopped) && (begun || (c.TextContent? && Flatten(c.fragments) != ""))
  }

  /** `events` interleaves the blocks of `contents`, within one complete message and without an error event. */
  ghost predicate Carries(events: seq<WireEvent>, contents: map<int, Content>)
  {
    && (forall index ::
          if index in contents then SentAs(index, contents[index], Project(index, events))
          else Project(index, events) == [])
    && MessageStart in events && MessageStop in events && StreamError !in events
  }

  // ----- One block -----

  /** The block a consumer keeps, if it keeps this kind at all. */
  function KeptBlock(o: Options, c: Content): Option<Block>
  {
    match c
    case TextContent(fragments) => Some(TextBlock(Flatten(fragments)))
    case ThinkingContent(fragments) =>
      if o.thinking.NativeBlocks? then Some(ThinkingBlock(Flatten(fragments))) else None
    case ToolContent(id, name, fragments) =>
      if o.accumulateTools then Some(ToolBlock(id, name, Flatten(fragments), true)) else None
  }

  /** The tool call of a block: one for a tool block with an id and a name, built from its own fragments. */
  function CallsFor(o: Options, c: Content): seq<ToolCall>
  {
    if c.ToolContent? && o.accumulateTools && c.id != "" && c.name != "" && o.toolInput(Flatten(c.fragments)).Some? then
      var arguments := o.toolInput(Flatten(c.fragments)).value;
      [ToolCall(c.id, o.toolName(c.name),
        if o.thinking == XmlTags then ThinkingDocuments.StripXmlThinkingTags(arguments) else arguments)]
    else []
  }

  /** The consumer can take this block. */
  predicate Acceptable(o: Options, c: Content)
  {
    c.ToolContent? ==> o.accumulateTools && o.toolInput(Flatten(c.fragments)).Some?
  }

  lemma {:induction false} TouchAllAppend(o: Options, c: Cell, a: seq<WireEvent>, b: seq<WireEvent>)
    requires forall e :: e in a || e in b ==> HasIndex(e)
    ensures TouchAll(o, c, a + b) ==
            match TouchAll(o, c, a) case Fail(error) => Fail(error) case Ok(d) => TouchAll(o, d, b)
    decreases |a|
  {
    hide Touch;
    if a == [] {
      assert a + b == b;
    } else {
      assert (a + b)[1..] == a[1..] + b;
      assert forall e :: e in a[1..] ==> e in a;
      if Touch(o, c, a[0]).Ok? {
        TouchAllAppend(o, Touch(o, c, a[0]).value, a[1..], b);
      }
    }
  }

  /** The block of a content while its text is coming in. */
  function Partly(c: Content, text: string): Cell
  {
    Cell(Some(match c
              case TextContent(_) => TextBlock(text)
              case ThinkingContent(_) => ThinkingBlock(text)
              case ToolContent(id, name, _) => ToolBlock(id, name, text, false)), [])
  }

  /** A delta of the matching kind appends its fragment; without its block, a delta other than text is dropped. */
  lemma DeltaAppends(o: Options, index: int, c: Content, fragment: string, text: string)
    ensures (c.ToolContent? ==> o.accumulateTools) ==>
              Touch(o, Partly(c, text), Delta(index, c, fragment)) == Ok(Partly(c, text + fragment))
    ensures !c.TextContent? && (c.ToolContent? ==> !o.accumulateTools) ==>
              Touch(o, EMPTY_CELL, Delta(index, c, fragment)) == Ok(EMPTY_CELL)
  {
    if fragment == "" {
      assert text + fragment == text;
    }
  }

  lemma {:induction false} DeltasAppend(o: Options, index: int, c: Content, fragments: seq<string>, text: string)
    ensures (c.ToolContent? ==> o.accumulateTools) ==>
              TouchAll(o, Partly(c, text), Deltas(index, c, fragments)) == Ok(Partly(c, text + Flatten(fragments)))
    ensures !c.TextContent? && (c.ToolContent? ==> !o.accumulateTools) ==>
              TouchAll(o, EMPTY_CELL, Deltas(index, c, fragments)) == Ok(EMPTY_CELL)
    decreases |fragments|
  {
    hide Touch, Delta, Partly;
    if fragments == [] {
      assert text + Flatten(fragments) == text;
    } else {
      var rest := Deltas(index, c, fragments[1..]);
      assert Deltas(index, c, fragments)[1..] == rest;
      assert text + Flatten(fragments) == (text + fragments[0]) + Flatten(fragments[1..]);
      DeltaAppends(o, index, c, fragments[0], text);
      DeltasAppend(o, index, c, fragments[1..], text + fragments[0]);
    }
  }

  /** Text that is not empty needs no start. */
  lemma {:induction false} TextNeedsNoStart(o: Options, index: int, c: Content, fragments: seq<string>)
    requires c.TextContent?
    ensures TouchAll(o, EMPTY_CELL, Deltas(index, c, fragments)) ==
      Ok(if Flatten(fragments) == "" then EMPTY_CELL else Partly(c, Flatten(fragments)))
    decreases |fragments|
  {
    hide Partly;
    if fragments != [] {
      var rest := Deltas(index, c, fragments[1..]);
      assert Deltas(index, c, fragments)[1..] == rest;
      if fragments[0] == "" {
        TextNeedsNoStart(o, index, c, fragments[1..]);
        assert Flatten(fragments) == Flatten(fragments[1..]);
      } else {
        FirstTextBegins(o, index, c, fragments[0]);
        DeltasAppend(o, index, c, fragments[1..], fragments[0]);
      }
    }
  }

  /** Fragments of a tool call that never began are collected, but make no call. */
  lemma FragmentsWithoutStart(o: Options, index: int, fragments: seq<string>)
    requires o.accumulateTools && fragments != []
    ensures
      var c := ToolContent("", "", fragments);
      var r := TouchAll(o, EMPTY_CELL, Deltas(index, c, fragments));
      r == Ok(Partly(c, Flatten(fragments))) &&
      if o.toolInput(Flatten(fragments)).None? then FinalCell(o, r.value).Fail?
      else FinalCell(o, r.value).Ok? && FinalCell(o, r.value).value.calls == []
  {
    hide Partly;
    var c := ToolContent("", "", fragments);
    assert Deltas(index, c, fragments)[1..] == Deltas(index, c, fragments[1..]);
    assert Touch(o, EMPTY_CELL, Delta(index, c, fragments[0])) == Ok(Partly(c, fragments[0])) by {
      NamelessBegins(o, index, c, fragments[0]);
    }
    DeltasAppend(o, index, c, fragments[1..], fragments[0]);
    NamelessMakesNoCall(o, c, Flatten(fragments));
  }

  lemma NamelessBegins(o: Options, index: int, c: Content, fragment: string)
    requires o.accumulateTools && c.ToolContent? && c.id == "" && c.name == ""
    ensures Touch(o, EMPTY_CELL, Delta(index, c, fragment)) == Ok(Partly(c, fragment))
  {
  }

  lemma NamelessMakesNoCall(o: Options, c: Content, text: string)
    requires o.accumulateTools && c.ToolContent? && c.id == "" && c.name == ""
    ensures
      var end := FinalCell(o, Partly(c, text));
      if o.toolInput(text).None? then end.Fail? else end.Ok? && end.value.calls == []
  {
  }

  lemma FirstTextBegins(o: Options, index: int, c: Content, fragment: string)
    requires c.TextContent? && fragment != ""
    ensures Touch(o, EMPTY_CELL, Delta(index, c, fragment)) == Ok(Partly(c, fragment))
  {
  }

  /** What the events of one block leave, before it is stopped. */
  function Opened(o: Options, c: Content): Cell
  {
    if KeptBlock(o, c).Some? then Partly(c, Flatten(c.fragments)) else EMPTY_CELL
  }

  lemma CellOpened(o: Options, index: int, c: Content, begun: bool)
    requires begun || (c.TextContent? && Flatten(c.fragments) != "")
    ensures TouchAll(o, EMPTY_CELL, EventsFor(index, c, begun, false)) == Ok(Opened(o, c))
  {
    hide Deltas, TouchAll;
    var deltas := Deltas(index, c, c.fragments);
    assert deltas + [] == deltas;
    if begun {
      TouchOne(o, EMPTY_CELL, Start(index, c));
      TouchAllAppend(o, EMPTY_CELL, [Start(index, c)], deltas);
      DeltasAppend(o, index, c, c.fragments, "");
      assert "" + Flatten(c.fragments) == Flatten(c.fragments);
    } else {
      TextNeedsNoStart(o, index, c, c.fragments);
      assert [] + deltas == deltas;
    }
  }

  lemma CellStopped(o: Options, index: int, c: Content, begun: bool)
    requires begun || (c.TextContent? && Flatten(c.fragments) != "")
    ensures TouchAll(o, EMPTY_CELL, EventsFor(index, c, begun, true)) == FinalCell(o, Opened(o, c))
  {
    hide Deltas, TouchAll, Start, FinalCell, Opened;
    CellOpened(o, index, c, begun);
    var all := EventsFor(index, c, begun, false);
    var begin, deltas := if begun then [Start(index, c)] else [], Deltas(index, c, c.fragments);
    assert EventsFor(index, c, begun, true) == all + [StopBlock(index)] by {
      assert begin + (deltas + [StopBlock(index)]) == begin + (deltas + []) + [StopBlock(index)];
    }
    TouchAllAppend(o, EMPTY_CELL, all, [StopBlock(index)]);
    TouchOne(o, Opened(o, c), StopBlock(index));
    StopFinishes(o, Opened(o, c), index);
  }

  lemma StopFinishes(o: Options, c: Cell, index: int)
    ensures Touch(o, c, StopBlock(index)) == FinalCell(o, c)
  {
  }

  /** With or without its stop, a block ends as one that was finished once. */
  lemma CellFinished(o: Options, c: Content)
    ensures
      var end := FinalCell(o, Opened(o, c));
      (Acceptable(o, c) ==> end == Ok(Cell(KeptBlock(o, c), CallsFor(o, c)))) &&
      (!Acceptable(o, c) && o.accumulateTools ==> end.Fail?) && (!o.accumulateTools ==> end == Ok(Opened(o, c))) &&
      (end.Ok? ==> FinalCell(o, end.value) == end)
  {
    assert [] + CallsFor(o, c) == CallsFor(o, c);
  }

  lemma CellFor(o: Options, index: int, c: Content, es: seq<WireEvent>)
    requires SentAs(index, c, es) && forall e :: e in es ==> HasIndex(e)
    ensures
      var r := TouchAll(o, EMPTY_CELL, es);
      (r.Fail? ==> o.accumulateTools && !Acceptable(o, c)) &&
      (r.Ok? && Acceptable(o, c) ==> FinalCell(o, r.value) == Ok(Cell(KeptBlock(o, c), CallsFor(o, c)))) &&
      (r.Ok? && !Acceptable(o, c) && o.accumulateTools ==> FinalCell(o, r.value).Fail? && r.value.block.Some?)
  {
    hide EventsFor, FinalCell, Acceptable, KeptBlock, CallsFor, Opened;
    var begun, stopped :|
      es == EventsFor(index, c, begun, stopped) && (begun || (c.TextContent? && Flatten(c.fragments) != ""));
    CellOpened(o, index, c, begun);
    CellStopped(o, index, c, begun);
    CellFinished(o, c);
    if !Acceptable(o, c) && o.accumulateTools {
      RefusedIsThere(o, c);
    }
  }

  lemma RefusedIsThere(o: Options, c: Content)
    requires !Acceptable(o, c) && o.accumulateTools
    ensures Opened(o, c).block.Some?
  {
  }

  // ----- A block on top of another -----

  lemma {:induction false} CallsAreCarried(o: Options, block: Option<Block>, calls: seq<ToolCall>, es: seq<WireEvent>)
    requires forall e :: e in es ==> HasIndex(e) && !e.StopBlock?
    ensures TouchAll(o, Cell(block, calls), es) ==
      match TouchAll(o, Cell(block, []), es) case Fail(error) => Fail(error) case Ok(d) => Ok(Cell(d.block, calls))
    decreases |es|
  {
    if es != [] {
      var e := es[0];
      assert e in es;
      var next := Touch(o, Cell(block, []), e).value;
      assert next.calls == [] && Touch(o, Cell(block, calls), e) == Ok(Cell(next.block, calls));
      CallsAreCarried(o, next.block, calls, es[1..]);
      CallsAreCarried(o, next.block, [], es[1..]);
    }
  }

  lemma {:induction false} DeltasStopNothing(index: int, c: Content, fragments: seq<string>)
    ensures forall e :: e in Deltas(index, c, fragments) ==> !e.StopBlock?
    decreases |fragments|
  {
    if fragments != [] {
      DeltasStopNothing(index, c, fragments[1..]);
    }
  }

  /** A block that begins at an index in use takes the place of what was there; calls made before stay. */
  lemma BlocksBeginAnew(o: Options, index: int, c: Content, before: Cell)
    requires KeptBlock(o, c).Some?
    ensures TouchAll(o, before, EventsFor(index, c, true, false)) == Ok(Cell(Opened(o, c).block, before.calls))
  {
    hide Deltas, TouchAll;
    var deltas := Deltas(index, c, c.fragments);
    assert deltas + [] == deltas;
    TouchOne(o, before, Start(index, c));
    TouchAllAppend(o, before, [Start(index, c)], deltas);
    DeltasStopNothing(index, c, c.fragments);
    CallsAreCarried(o, Partly(c, "").block, before.calls, deltas);
    DeltasAppend(o, index, c, c.fragments, "");
    assert "" + Flatten(c.fragments) == Flatten(c.fragments);
  }

  /** Text that is not empty takes the place of another kind of block, thinking is lost there. */
  lemma {:induction false} OtherKindsAreReplaced(o: Options, index: int, before: Cell, fragments: seq<string>)
    requires before.block.Some? ==> before.block.value.ToolBlock?
    ensures TouchAll(o, before, Deltas(index, TextContent(fragments), fragments)) ==
      Ok(if Flatten(fragments) == "" then before else Cell(Some(TextBlock(Flatten(fragments))), before.calls))
    ensures TouchAll(o, before, Deltas(index, ThinkingContent(fragments), fragments)) == Ok(before)
    decreases |fragments|
  {
    hide TouchAll;
    NothingTouched(o, before);
    if fragments != [] {
      var text, thinking, rest := TextContent(fragments), ThinkingContent(fragments), fragments[1..];
      OtherKindsAreReplaced(o, index, before, rest);
      SameDeltas(index, text, TextContent(rest), rest);
      SameDeltas(index, thinking, ThinkingContent(rest), rest);
      FirstDelta(o, index, before, text, fragments);
      FirstDelta(o, index, before, thinking, fragments);
      if fragments[0] != "" {
        DeltasStopNothing(index, text, rest);
        CallsAreCarried(o, Some(TextBlock(fragments[0])), before.calls, Deltas(index, text, rest));
        DeltasAppend(o, index, text, rest, fragments[0]);
      } else {
        assert Flatten(fragments) == Flatten(rest);
      }
    }
  }

  lemma NothingTouched(o: Options, c: Cell)
    ensures TouchAll(o, c, []) == Ok(c)
  {
  }

  lemma FirstDelta(o: Options, index: int, before: Cell, c: Content, fragments: seq<string>)
    requires fragments != [] && Touch(o, before, Delta(index, c, fragments[0])).Ok?
    ensures TouchAll(o, before, Deltas(index, c, fragments)) ==
      TouchAll(o, Touch(o, before, Delta(index, c, fragments[0])).value, Deltas(index, c, fragments[1..]))
  {
    hide Touch, Delta;
    assert Deltas(index, c, fragments)[1..] == Deltas(index, c, fragments[1..]);
  }

  lemma {:induction false} SameDeltas(index: int, a: Content, b: Content, fragments: seq<string>)
    requires (a.TextContent? && b.TextContent?) || (a.ThinkingContent? && b.ThinkingContent?)
    ensures Deltas(index, a, fragments) == Deltas(index, b, fragments)
    decreases |fragments|
  {
    if fragments != [] {
      SameDeltas(index, a, b, fragments[1..]);
    }
  }

  lemma TouchOne(o: Options, c: Cell, e: WireEvent)
    requires HasIndex(e)
    ensures TouchAll(o, c, [e]) == Touch(o, c, e)
  {
    hide Touch;
    assert [e][1..] == [];
  }

  // ----- The message -----

  /** Indices of the blocks a consumer keeps. */
  function KeptKeys(o: Options, contents: map<int, Content>): set<int>
  {
    set index | index in contents && KeptBlock(o, contents[index]).Some?
  }

  function SentText(contents: map<int, Content>, keys: seq<int>): string
  {
    if keys == [] then ""
    else (if keys[0] in contents && contents[keys[0]].TextContent? then Flatten(contents[keys[0]].fragments) else "")
         + SentText(contents, keys[1..])
  }

  function SentThinking(contents: map<int, Content>, keys: seq<int>): seq<string>
  {
    if keys == [] then []
    else (if keys[0] in contents && contents[keys[0]].ThinkingContent? && Flatten(contents[keys[0]].fragments) != ""
          then [Flatten(contents[keys[0]].fragments)] else []) + SentThinking(contents, keys[1..])
  }

  function SentCalls(o: Options, contents: map<int, Content>, keys: seq<int>): seq<ToolCall>
  {
    if keys == [] then []
    else (if keys[0] in contents then CallsFor(o, contents[keys[0]]) else []) + SentCalls(o, contents, keys[1..])
  }

  /** Text joined, calls listed and thinking collected in ascending index order. */
  function SentMessage(o: Options, contents: map<int, Content>): Message
  {
    var keys := Sorted(KeptKeys(o, contents));
    var thinking := SentThinking(contents, keys);
    Message(NonEmpty(SentText(contents, keys)), SentCalls(o, contents, keys),
      if thinking == [] then None else Some(Join(thinking, "\n\n")))
  }

  /** Cell by cell, the accumulator holds what was sent. */
  ghost predicate Holds(o: Options, acc: Acc, contents: map<int, Content>)
  {
    forall index :: CellOf(acc, index) ==
      if index in contents then Cell(KeptBlock(o, contents[index]), CallsFor(o, contents[index])) else EMPTY_CELL
  }

  lemma HoldsBlocks(o: Options, acc: Acc, contents: map<int, Content>)
    requires Holds(o, acc, contents)
    ensures acc.blocks.Keys == KeptKeys(o, contents)
    ensures forall k :: k in acc.blocks ==> Some(acc.blocks[k]) == KeptBlock(o, contents[k])
  {
    hide KeptBlock, CallsFor;
    forall k | k in acc.blocks ensures k in KeptKeys(o, contents) && Some(acc.blocks[k]) == KeptBlock(o, contents[k]) {
      assert CellOf(acc, k).block == Some(acc.blocks[k]);
    }
    forall k | k in KeptKeys(o, contents) ensures k in acc.blocks {
      assert CellOf(acc, k).block == KeptBlock(o, contents[k]);
    }
  }

  lemma {:induction false} HoldsText(o: Options, acc: Acc, contents: map<int, Content>, keys: seq<int>)
    requires forall i :: 0 <= i < |keys| ==>
      keys[i] in acc.blocks && keys[i] in contents && Some(acc.blocks[keys[i]]) == KeptBlock(o, contents[keys[i]])
    ensures TextOf(acc.blocks, keys) == SentText(contents, keys)
    ensures ThinkingParts(acc.blocks, keys) == SentThinking(contents, keys)
    decreases |keys|
  {
    if keys != [] {
      HoldsText(o, acc, contents, keys[1..]);
    }
  }

  lemma {:induction false} GroupedIsSent(o: Options, acc: Acc, contents: map<int, Content>, keys: seq<int>)
    requires Holds(o, acc, contents)
    ensures Grouped(keys, acc.calls) == SentCalls(o, contents, keys)
    decreases |keys|
  {
    if keys != [] {
      assert CellOf(acc, keys[0]).calls == ItemsOf(keys[0], acc.calls);
      GroupedIsSent(o, acc, contents, keys[1..]);
    }
  }

  lemma {:induction false} OwnItem(calls: seq<Keyed<ToolCall>>, i: nat)
    requires i < |calls|
    ensures ItemsOf(calls[i].0, calls) != []
    decreases i
  {
    if i > 0 {
      OwnItem(calls[1..], i - 1);
    }
  }

  lemma HoldsCalls(o: Options, acc: Acc, contents: map<int, Content>)
    requires Holds(o, acc, contents)
    ensures Values(StableSort(acc.calls)) == SentCalls(o, contents, Sorted(KeptKeys(o, contents)))
  {
    hide StableSort, Sorted;
    var keys := Sorted(KeptKeys(o, contents));
    forall i | 0 <= i < |acc.calls| ensures acc.calls[i].0 in keys {
      OwnItem(acc.calls, i);
      var k := acc.calls[i].0;
      assert CellOf(acc, k).calls != [];
      assert k in contents && KeptBlock(o, contents[k]).Some?;
      assert k in KeptKeys(o, contents);
    }
    StableSortGroups(keys, acc.calls);
    GroupedIsSent(o, acc, contents, keys);
  }

  lemma HoldsMessage(o: Options, acc: Acc, contents: map<int, Content>)
    requires Holds(o, acc, contents)
    ensures Assemble(acc) == SentMessage(o, contents)
  {
    hide StableSort, KeptBlock, CallsFor, ItemsOf;
    HoldsBlocks(o, acc, contents);
    HoldsCalls(o, acc, contents);
    HoldsText(o, acc, contents, Sorted(KeptKeys(o, contents)));
  }

  // ----- Main result -----

  ghost predicate AllAcceptable(o: Options, contents: map<int, Content>)
  {
    forall index :: index in contents ==> Acceptable(o, contents[index])
  }

  lemma {:induction false} DeltasStartNothing(index: int, c: Content, fragments: seq<string>)
    ensures forall e :: e in Deltas(index, c, fragments) ==> !e.StartTool?
    decreases |fragments|
  {
    if fragments != [] {
      DeltasStartNothing(index, c, fragments[1..]);
    }
  }

  /** The events of a block start a tool iff it is a tool block. */
  lemma StartsToolIff(index: int, c: Content, es: seq<WireEvent>)
    requires SentAs(index, c, es)
    ensures StartsTool(es) <==> c.ToolContent?
  {
    hide Deltas, StartsTool;
    var begun, stopped :|
      es == EventsFor(index, c, begun, stopped) && (begun || (c.TextContent? && Flatten(c.fragments) != ""));
    var rest := Deltas(index, c, c.fragments) + if stopped then [StopBlock(index)] else [];
    DeltasStartNothing(index, c, c.fragments);
    assert !StartsTool(rest) by {
      NoToolStarted(rest);
    }
    if begun {
      StartsToolCons(Start(index, c), rest);
    } else {
      assert [] + rest == rest;
    }
  }

  lemma NoToolStarted(es: seq<WireEvent>)
    requires forall e :: e in es ==> !e.StartTool?
    ensures !StartsTool(es)
  {
  }

  lemma CarriesTools(events: seq<WireEvent>, contents: map<int, Content>)
    requires Carries(events, contents)
    ensures StartsTool(events) <==> exists index :: index in contents && contents[index].ToolContent?
  {
    hide StartsTool, SentAs, Project;
    StartsToolByIndex(events);
    forall index ensures StartsToolAt(index, events) <==> index in contents && contents[index].ToolContent? {
      if index in contents {
        StartsToolIff(index, contents[index], Project(index, events));
      } else {
        NoToolStarted([]);
      }
    }
  }

  lemma AcceptableWithoutTools(o: Options, c: Content)
    ensures !o.accumulateTools ==> (Acceptable(o, c) <==> !c.ToolContent?)
  {
  }

  /** Every block ends as what was sent, or some block is refused by itself. */
  lemma EachBlock(o: Options, acc: Acc, events: seq<WireEvent>, contents: map<int, Content>, index: int)
    requires Carries(events, contents) && HandleAll(o, EMPTY, events) == Ok(acc)
    ensures
      var end := FinalCell(o, CellOf(acc, index));
      if index !in contents then end == Ok(EMPTY_CELL)
      else if Acceptable(o, contents[index]) then
        end == Ok(Cell(KeptBlock(o, contents[index]), CallsFor(o, contents[index])))
      else o.accumulateTools ==> end.Fail? && index in acc.blocks
  {
    hide HandleAll, Touch, KeptBlock, CallsFor, Acceptable, SentAs, Project, ItemsOf;
    CellsAfter(o, EMPTY, events, index);
    EmptyCells(index);
    if index in contents {
      CellFor(o, index, contents[index], Project(index, events));
    }
  }

  lemma EmptyCells(index: int)
    ensures CellOf(EMPTY, index) == EMPTY_CELL
  {
  }

  /**
    Every interleaving of well-formed blocks yields the message that was sent, exactly when each block is acceptable.
   */
  lemma WellFormedStream(o: Options, events: seq<WireEvent>, contents: map<int, Content>)
    requires Carries(events, contents)
    ensures Outcome(o, events).Ok? <==> AllAcceptable(o, contents)
    ensures AllAcceptable(o, contents) ==> Outcome(o, events) == Ok(SentMessage(o, contents))
  {
    hide Touch, Handle, HandleAll, Assemble, SentMessage, KeptBlock, CallsFor, Acceptable, Project, Sorted, FinalCell,
      SentAs, FinalizeKeys, StartsTool, CellOf;
    FailsWhen(o, EMPTY, events);
    if HandleAll(o, EMPTY, events).Fail? {
      var index :| TouchAll(o, CellOf(EMPTY, index), Project(index, events)).Fail?;
      EmptyCells(index);
      assert index in contents;
      CellFor(o, index, contents[index], Project(index, events));
    } else {
      var acc := HandleAll(o, EMPTY, events).value;
      FlagsAfter(o, EMPTY, events);
      CarriesTools(events, contents);
      if !o.accumulateTools {
        forall index | index in contents ensures Acceptable(o, contents[index]) <==> !contents[index].ToolContent? {
          AcceptableWithoutTools(o, contents[index]);
        }
      }
      forall index ensures !acc.forbidden ==> (FinalCell(o, CellOf(acc, index)).Ok? <==>
        index in contents ==> Acceptable(o, contents[index]))
      {
        EachBlock(o, acc, events, contents, index);
      }
      FinalizeKeysCells(o, acc, Sorted(acc.blocks.Keys));
      if !AllAcceptable(o, contents) && !acc.forbidden {
        var index :| index in contents && !Acceptable(o, contents[index]);
        EachBlock(o, acc, events, contents, index);
      }
      if AllAcceptable(o, contents) {
        CompleteStream(o, acc, events, contents);
      }
    }
  }

  lemma CompleteStream(o: Options, acc: Acc, events: seq<WireEvent>, contents: map<int, Content>)
    requires Carries(events, contents) && AllAcceptable(o, contents) && HandleAll(o, EMPTY, events) == Ok(acc)
    ensures
      var end := FinalizeKeys(o, acc, Sorted(acc.blocks.Keys));
      end.Ok? && Assemble(end.value) == SentMessage(o, contents)
  {
    hide Touch, Handle, HandleAll, Assemble, SentMessage, KeptBlock, CallsFor, Acceptable, Project, FinalizeKeys,
      SentAs, Sorted, FinalCell;
    var keys := Sorted(acc.blocks.Keys);
    forall index ensures FinalCell(o, CellOf(acc, index)) ==
      Ok(if index in contents then Cell(KeptBlock(o, contents[index]), CallsFor(o, contents[index])) else EMPTY_CELL)
    {
      EachBlock(o, acc, events, contents, index);
    }
    FinalizeKeysCells(o, acc, keys);
    var end := FinalizeKeys(o, acc, keys).value;
    forall index | index !in keys ensures FinalCell(o, CellOf(acc, index)) == Ok(CellOf(acc, index)) {
      NoBlockNoChange(o, CellOf(acc, index));
    }
    assert Holds(o, end, contents);
    HoldsMessage(o, end, contents);
  }

  lemma NoBlockNoChange(o: Options, c: Cell)
    requires c.block.None?
    ensures FinalCell(o, c) == Ok(c)
  {
  }
}
