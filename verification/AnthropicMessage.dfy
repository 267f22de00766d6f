/** The message assembled from a stream of block events, whatever the interleaving of the blocks. */
module AnthropicMessage {
  import opened Prelude
  import opened Ordering
  import opened AnthropicBlocks

  // ----- From events to cells -----

  /** Handling a stream leaves in each cell what that cell's own events leave there; flags record what was seen. */
  lemma {:induction false} CellsAfter(o: Options, acc: Acc, events: seq<WireEvent>, index: int)
    requires HandleAll(o, acc, events).Ok?
    ensures TouchAll(o, CellOf(acc, index), Project(index, events))
      == Ok(CellOf(HandleAll(o, acc, events).value, index))
    decreases |events|
  {
    hide Touch;
    if events != [] {
      var e := events[0];
      var next := Handle(o, acc, e).value;
      CellsAfter(o, next, events[1..], index);
      var own := Project(index, events[1..]);
      if HasIndex(e) {
        HandleIsLocal(o, acc, e, index);
        if e.index == index {
          assert ([e] + own)[1..] == own;
        } else {
          assert [] + own == own;
        }
      } else {
        assert [] + own == own;
      }
    }
  }

  predicate StartsTool(events: seq<WireEvent>)
  {
    exists i :: 0 <= i < |events| && events[i].StartTool?
  }

  lemma {:induction false} FlagsAfter(o: Options, acc: Acc, events: seq<WireEvent>)
    requires HandleAll(o, acc, events).Ok?
    ensures var end := HandleAll(o, acc, events).value;
            && (end.started <==> acc.started || MessageStart in events)
            && (end.stopped <==> acc.stopped || MessageStop in events)
            && (end.forbidden <==> acc.forbidden || (!o.accumulateTools && StartsTool(events)))
    decreases |events|
  {
    hide Touch;
    if events != [] {
      var e, rest := events[0], events[1..];
      FlagsAfter(o, Handle(o, acc, e).value, rest);
      assert events == [e] + rest;
      assert StartsTool(events) <==> e.StartTool? || StartsTool(rest) by {
        if i :| 0 <= i < |rest| && rest[i].StartTool? {
          assert events[i + 1].StartTool?;
        }
        if i :| 0 <= i < |events| && events[i].StartTool? {
          assert i == 0 || rest[i - 1].StartTool?;
        }
      }
    }
  }

  /** Some block's own events fail. */
  ghost predicate SomeCellFails(o: Options, acc: Acc, events: seq<WireEvent>)
  {
    exists index :: TouchAll(o, CellOf(acc, index), Project(index, events)).Fail?
  }

  /** A stream fails exactly when it carries an error event or some block fails by itself. */
  lemma {:induction false} FailsWhen(o: Options, acc: Acc, events: seq<WireEvent>)
    ensures HandleAll(o, acc, events).Fail? <==> StreamError in events || SomeCellFails(o, acc, events)
    decreases |events|
  {
    hide Touch;
    if events == [] {
    } else {
      var e, rest := events[0], events[1..];
      assert events == [e] + rest;
      if HasIndex(e) {
        HandleIsLocal(o, acc, e, e.index);
        OwnEventFirst(o, acc, e, rest);
        if Handle(o, acc, e).Ok? {
          FailsWhen(o, Handle(o, acc, e).value, rest);
        }
      } else if e != StreamError {
        var next := Handle(o, acc, e).value;
        FailsWhen(o, next, rest);
        forall index
          ensures CellOf(next, index) == CellOf(acc, index) && Project(index, events) == Project(index, rest)
        {
          assert [] + Project(index, rest) == Project(index, rest);
        }
        SameCellsFail(o, acc, events, next, rest);
      }
    }
  }

  lemma SameCellsFail(o: Options, a: Acc, es: seq<WireEvent>, b: Acc, fs: seq<WireEvent>)
    requires forall index :: CellOf(a, index) == CellOf(b, index)
    requires forall index :: Project(index, es) == Project(index, fs)
    ensures SomeCellFails(o, a, es) <==> SomeCellFails(o, b, fs)
  {
    if index :| TouchAll(o, CellOf(a, index), Project(index, es)).Fail? {
      assert TouchAll(o, CellOf(b, index), Project(index, fs)).Fail?;
    }
    if index :| TouchAll(o, CellOf(b, index), Project(index, fs)).Fail? {
      assert TouchAll(o, CellOf(a, index), Project(index, es)).Fail?;
    }
  }

  lemma OwnEventFirst(o: Options, acc: Acc, e: WireEvent, rest: seq<WireEvent>)
    requires HasIndex(e)
    ensures Handle(o, acc, e).Fail? ==> SomeCellFails(o, acc, [e] + rest)
    ensures Handle(o, acc, e).Ok? ==>
              (SomeCellFails(o, acc, [e] + rest) <==> SomeCellFails(o, Handle(o, acc, e).value, rest))
  {
    hide Touch;
    var events := [e] + rest;
    assert events[1..] == rest;
    HandleIsLocal(o, acc, e, e.index);
    forall index
      ensures Project(index, events) == if index == e.index then [e] + Project(index, rest) else Project(index, rest)
    {
      assert [] + Project(index, rest) == Project(index, rest);
    }
    assert ([e] + Project(e.index, rest))[1..] == Project(e.index, rest);
    if Handle(o, acc, e).Fail? {
      assert TouchAll(o, CellOf(acc, e.index), Project(e.index, events)).Fail?;
    } else {
      var next := Handle(o, acc, e).value;
      forall index
        ensures TouchAll(o, CellOf(acc, index), Project(index, events)).Fail?
           <==> TouchAll(o, CellOf(next, index), Project(index, rest)).Fail?
      {
        HandleIsLocal(o, acc, e, index);
      }
      if index :| TouchAll(o, CellOf(acc, index), Project(index, events)).Fail? {
        assert TouchAll(o, CellOf(next, index), Project(index, rest)).Fail?;
      }
      if index :| TouchAll(o, CellOf(next, index), Project(index, rest)).Fail? {
        assert TouchAll(o, CellOf(acc, index), Project(index, events)).Fail?;
      }
    }
  }

  // ----- The final message -----

  datatype Message = Message(content: Option<string>, toolCalls: seq<ToolCall>, reasoning: Option<string>)

  /** At the end of the stream, a tool block that was never stopped is finished. */
  function FinalCell(o: Options, c: Cell): Result<Cell>
  {
    if o.accumulateTools then Finalize(o, c) else Ok(c)
  }

  function FinalizeKeys(o: Options, acc: Acc, keys: seq<int>): Result<Acc>
    decreases |keys|
  {
    if keys == [] then Ok(acc)
    else match FinalCell(o, CellOf(acc, keys[0]))
      case Fail(error) => Fail(error)
      case Ok(cell) => FinalizeKeys(o, Store(acc, keys[0], CellOf(acc, keys[0]), cell), keys[1..])
  }

  function TextOf(blocks: map<int, Block>, keys: seq<int>): string
  {
    if keys == [] then ""
    else
      (if keys[0] in blocks && blocks[keys[0]].TextBlock? then blocks[keys[0]].text else "") +
      TextOf(blocks, keys[1..])
  }

  /** The non-empty thinking texts, separated by blank lines. */
  function ThinkingParts(blocks: map<int, Block>, keys: seq<int>): seq<string>
  {
    if keys == [] then []
    else (if keys[0] in blocks && blocks[keys[0]].ThinkingBlock? && blocks[keys[0]].text != ""
          then [blocks[keys[0]].text] else []) + ThinkingParts(blocks, keys[1..])
  }

  /** Text joined in index order, tool calls stably sorted by index. */
  function Assemble(acc: Acc): Message
  {
    var keys := Sorted(acc.blocks.Keys);
    var thinking := ThinkingParts(acc.blocks, keys);
    Message(NonEmpty(TextOf(acc.blocks, keys)), Values(StableSort(acc.calls)),
      if thinking == [] then None else Some(Join(thinking, "\n\n")))
  }

  function Finish(o: Options, acc: Acc): Result<Message>
  {
    if !acc.started then Fail(NoMessageStart)
    else if !acc.stopped then Fail(NoMessageStop)
    else if acc.forbidden then Fail(UnexpectedToolUse)
    else match FinalizeKeys(o, acc, Sorted(acc.blocks.Keys))
      case Fail(error) => Fail(error)
      case Ok(end) => Ok(Assemble(end))
  }

  function Outcome(o: Options, events: seq<WireEvent>): Result<Message>
  {
    match HandleAll(o, EMPTY, events)
    case Fail(error) => Fail(error)
    case Ok(acc) => Finish(o, acc)
  }

  // ----- Equal cells, equal messages -----

  ghost predicate SameCells(a: Acc, b: Acc)
  {
    forall index :: CellOf(a, index) == CellOf(b, index)
  }

  lemma SameCellsSameBlocks(a: Acc, b: Acc)
    requires SameCells(a, b)
    ensures a.blocks == b.blocks
    ensures forall k :: ItemsOf(k, a.calls) == ItemsOf(k, b.calls)
  {
    forall k ensures ItemsOf(k, a.calls) == ItemsOf(k, b.calls) {
      assert CellOf(a, k) == CellOf(b, k);
    }
    forall k | k in a.blocks ensures k in b.blocks && a.blocks[k] == b.blocks[k] {
      assert CellOf(a, k) == CellOf(b, k);
    }
    forall k | k in b.blocks ensures k in a.blocks {
      assert CellOf(a, k) == CellOf(b, k);
    }
  }

  function CallKeys(calls: seq<Keyed<ToolCall>>): set<int>
  {
    set i | 0 <= i < |calls| :: calls[i].0
  }

  lemma SameCellsSameMessage(a: Acc, b: Acc)
    requires SameCells(a, b)
    ensures Assemble(a) == Assemble(b)
  {
    hide Sorted, StableSort;
    SameCellsSameBlocks(a, b);
    var keys := Sorted(CallKeys(a.calls) + CallKeys(b.calls));
    StableSortGroups(keys, a.calls);
    StableSortGroups(keys, b.calls);
    GroupedAgree(keys, a.calls, b.calls);
  }

  predicate NoRepeats(keys: seq<int>)
  {
    forall i, j :: 0 <= i < j < |keys| ==> keys[i] != keys[j]
  }

  /** Finishing the blocks in any order finishes each cell once. */
  lemma {:induction false} FinalizeKeysCells(o: Options, acc: Acc, keys: seq<int>)
    requires NoRepeats(keys)
    ensures FinalizeKeys(o, acc, keys).Fail? <==> exists k :: k in keys && FinalCell(o, CellOf(acc, k)).Fail?
    ensures FinalizeKeys(o, acc, keys).Fail? ==> FinalizeKeys(o, acc, keys).error == InvalidToolInput
    ensures FinalizeKeys(o, acc, keys).Ok? ==> forall index ::
              CellOf(FinalizeKeys(o, acc, keys).value, index) ==
              if index in keys then FinalCell(o, CellOf(acc, index)).value else CellOf(acc, index)
    decreases |keys|
  {
    hide Finalize, Store;
    if keys != [] {
      var k, rest := keys[0], keys[1..];
      assert forall index :: index in keys <==> index == k || index in rest;
      FinalizeErrors(o, CellOf(acc, k));
      if FinalCell(o, CellOf(acc, k)).Ok? {
        var cell := FinalCell(o, CellOf(acc, k)).value;
        var next := Store(acc, k, CellOf(acc, k), cell);
        forall index ensures CellOf(next, index) == if index == k then cell else CellOf(acc, index) {
          FinalCellGrows(o, CellOf(acc, k));
          StoreIsLocal(acc, k, cell, index);
        }
        FinalizeKeysCells(o, next, rest);
        assert k !in rest;
        forall index | index in rest ensures CellOf(next, index) == CellOf(acc, index) {
        }
      }
    }
  }

  lemma FinalCellGrows(o: Options, c: Cell)
    requires FinalCell(o, c).Ok?
    ensures var d := FinalCell(o, c).value;
            && (c.block.Some? ==> d.block.Some?)
            && (d.calls == c.calls || (|d.calls| == |c.calls| + 1 && d.calls[..|c.calls|] == c.calls))
  {
  }

  lemma FinalizeErrors(o: Options, c: Cell)
    ensures FinalCell(o, c).Fail? ==> FinalCell(o, c).error == InvalidToolInput
  {
  }

  /** Streams with equal cells finish alike, in whatever order their blocks are finished. */
  lemma FinishByCells(o: Options, a: Acc, b: Acc, keys: seq<int>)
    requires SameCells(a, b) && NoRepeats(keys) && (forall k :: k in keys <==> k in b.blocks.Keys)
    ensures FinalizeKeys(o, a, Sorted(a.blocks.Keys)).Ok? <==> FinalizeKeys(o, b, keys).Ok?
    ensures FinalizeKeys(o, b, keys).Ok? ==>
              SameCells(FinalizeKeys(o, a, Sorted(a.blocks.Keys)).value, FinalizeKeys(o, b, keys).value)
    ensures FinalizeKeys(o, b, keys).Ok? ==>
              Assemble(FinalizeKeys(o, a, Sorted(a.blocks.Keys)).value) == Assemble(FinalizeKeys(o, b, keys).value)
  {
    hide Finalize, Assemble, Store, FinalCell, FinalizeKeys, Sorted, ItemsOf;
    SameCellsSameBlocks(a, b);
    var mine := Sorted(a.blocks.Keys);
    FinalizeKeysCells(o, a, mine);
    FinalizeKeysCells(o, b, keys);
    forall k ensures CellOf(a, k) == CellOf(b, k) && (k in mine <==> k in keys) {
    }
    if FinalizeKeys(o, b, keys).Ok? {
      var x, y := FinalizeKeys(o, a, mine).value, FinalizeKeys(o, b, keys).value;
      forall index ensures CellOf(x, index) == CellOf(y, index) {
        assert CellOf(a, index) == CellOf(b, index);
      }
      SameCellsSameMessage(x, y);
    }
  }

  // ----- How a stream fails -----

  lemma {:induction false} HandleAllAppend(o: Options, acc: Acc, es: seq<WireEvent>, fs: seq<WireEvent>)
    ensures HandleAll(o, acc, es + fs) ==
            match HandleAll(o, acc, es) case Fail(error) => Fail(error) case Ok(mid) => HandleAll(o, mid, fs)
    decreases |es|
  {
    hide Handle;
    if es == [] {
      assert es + fs == fs;
    } else {
      assert (es + fs)[1..] == es[1..] + fs;
      if Handle(o, acc, es[0]).Ok? {
        HandleAllAppend(o, Handle(o, acc, es[0]).value, es[1..], fs);
      }
    }
  }

  lemma {:induction false} HandleErrors(o: Options, acc: Acc, events: seq<WireEvent>)
    requires StreamError !in events && HandleAll(o, acc, events).Fail?
    ensures HandleAll(o, acc, events).error == InvalidToolInput
    decreases |events|
  {
    hide Handle;
    var e := events[0];
    assert e in events;
    if HasIndex(e) {
      HandleIsLocal(o, acc, e, e.index);
    } else {
      MarkersAreHandled(o, acc, e);
    }
    if Handle(o, acc, e).Ok? {
      HandleErrors(o, Handle(o, acc, e).value, events[1..]);
    }
  }

  lemma MarkersAreHandled(o: Options, acc: Acc, e: WireEvent)
    requires !HasIndex(e)
    ensures Handle(o, acc, e).Fail? <==> e == StreamError
    ensures e == StreamError ==> Handle(o, acc, e) == Fail(ErrorEvent)
  {
  }

  /** An error event fails the stream as such, and nothing behind it matters. */
  lemma ErrorEventFails(o: Options, before: seq<WireEvent>, behind: seq<WireEvent>)
    requires HandleAll(o, EMPTY, before).Ok?
    ensures Outcome(o, before + ([StreamError] + behind)) == Fail(ErrorEvent)
  {
    hide Handle, Finish;
    HandleAllAppend(o, EMPTY, before, [StreamError] + behind);
    MarkersAreHandled(o, HandleAll(o, EMPTY, before).value, StreamError);
  }

  /** Without one, the failure names what is wrong: tool input first, then markers, then tools not asked for. */
  lemma FailureIsNamed(o: Options, events: seq<WireEvent>)
    requires StreamError !in events && Outcome(o, events).Fail?
    ensures Outcome(o, events).error ==
      if HandleAll(o, EMPTY, events).Fail? then InvalidToolInput
      else if MessageStart !in events then NoMessageStart
      else if MessageStop !in events then NoMessageStop
      else if !o.accumulateTools && StartsTool(events) then UnexpectedToolUse
      else InvalidToolInput
    ensures HandleAll(o, EMPTY, events).Fail? <==> SomeCellFails(o, EMPTY, events)
  {
    hide Handle, HandleAll, Assemble, StartsTool, FinalizeKeys, Sorted, CellOf, SomeCellFails;
    FailsWhen(o, EMPTY, events);
    if HandleAll(o, EMPTY, events).Fail? {
      HandleErrors(o, EMPTY, events);
    } else {
      var acc := HandleAll(o, EMPTY, events).value;
      FlagsAfter(o, EMPTY, events);
      FinalizeKeysCells(o, acc, Sorted(acc.blocks.Keys));
    }
  }

  // ----- Interleavings -----

  /** The same events block by block, and the same markers, in any interleaving. */
  ghost predicate Interleavings(es: seq<WireEvent>, fs: seq<WireEvent>)
  {
    && (forall index :: Project(index, es) == Project(index, fs))
    && (MessageStart in es <==> MessageStart in fs)
    && (MessageStop in es <==> MessageStop in fs)
    && (StreamError in es <==> StreamError in fs)
  }

  predicate StartsToolAt(index: int, events: seq<WireEvent>)
  {
    StartsTool(Project(index, events))
  }

  lemma {:induction false} StartsToolByIndex(events: seq<WireEvent>)
    ensures StartsTool(events) <==> exists index :: StartsToolAt(index, events)
    decreases |events|
  {
    hide Project, StartsTool;
    if events == [] {
      NoStarts();
    } else {
      var e, rest := events[0], events[1..];
      StartsToolByIndex(rest);
      forall index ensures StartsToolAt(index, events) <==>
        (e.StartTool? && e.index == index) || StartsToolAt(index, rest)
      {
        var own := Project(index, rest);
        StartsToolCons(e, own);
        ProjectFirst(index, events);
      }
      StartsToolCons(e, rest);
      HeadAndTail(events);
      if e.StartTool? {
        assert StartsToolAt(e.index, events);
      }
    }
  }

  lemma NoStarts()
    ensures !StartsTool([]) && forall index :: !StartsToolAt(index, [])
  {
  }

  lemma ProjectFirst(index: int, events: seq<WireEvent>)
    requires events != []
    ensures
      var e, own := events[0], Project(index, events[1..]);
      Project(index, events) == if HasIndex(e) && e.index == index then [e] + own else own
  {
    var own := Project(index, events[1..]);
    assert [] + own == own;
  }

  lemma StartsToolCons(e: WireEvent, rest: seq<WireEvent>)
    ensures StartsTool([e] + rest) <==> e.StartTool? || StartsTool(rest)
  {
    var events := [e] + rest;
    if i :| 0 <= i < |rest| && rest[i].StartTool? {
      assert events[i + 1].StartTool?;
    }
    if i :| 0 <= i < |events| && events[i].StartTool? {
      assert i == 0 || rest[i - 1].StartTool?;
    }
    if e.StartTool? {
      assert events[0].StartTool?;
    }
  }

  /** Main result: how the blocks' events interleave does not change the message. */
  lemma InterleavingDoesNotMatter(o: Options, es: seq<WireEvent>, fs: seq<WireEvent>)
    requires Interleavings(es, fs)
    ensures Outcome(o, es).Ok? <==> Outcome(o, fs).Ok?
    ensures Outcome(o, es).Ok? ==> Outcome(o, es) == Outcome(o, fs)
  {
    hide Handle, Touch, Assemble, FinalizeKeys, Project, Sorted;
    FailsWhen(o, EMPTY, es);
    FailsWhen(o, EMPTY, fs);
    SameCellsFail(o, EMPTY, es, EMPTY, fs);
    if HandleAll(o, EMPTY, es).Ok? {
      var a, b := HandleAll(o, EMPTY, es).value, HandleAll(o, EMPTY, fs).value;
      FlagsAfter(o, EMPTY, es);
      FlagsAfter(o, EMPTY, fs);
      StartsToolByIndex(es);
      StartsToolByIndex(fs);
      forall index ensures CellOf(a, index) == CellOf(b, index) {
        CellsAfter(o, EMPTY, es, index);
        CellsAfter(o, EMPTY, fs, index);
        assert Project(index, es) == Project(index, fs);
      }
      SameStarts(es, fs);
      FinishByCells(o, a, b, Sorted(b.blocks.Keys));
    }
  }

  lemma SameStarts(es: seq<WireEvent>, fs: seq<WireEvent>)
    requires forall index :: Project(index, es) == Project(index, fs)
    ensures forall index :: StartsToolAt(index, es) <==> StartsToolAt(index, fs)
  {
  }
}
