/**
  The consumer's state beside its blocks. With thinking tags in the text one normalizer reads the text of all blocks in
  the order it arrives, and what it still holds at the end goes to the text block that was inserted last.
 */
module AnthropicTags {
  import opened Prelude
  import opened Ordering
  import opened AnthropicBlocks
  import opened AnthropicMessage
  import opened TextOrder
  import Machine = ThinkingNormalizer
  import ThinkingDocuments

  /** The accumulator, the normalizer, and the indices in the order in which the block map received them. */
  datatype Tagged = Tagged(acc: Acc, norm: Machine.Norm, order: seq<int>)

  const NONE := Tagged(EMPTY, Machine.START, [])

  function TextAt(blocks: map<int, Block>, index: int): string
  {
    if index in blocks && blocks[index].TextBlock? then blocks[index].text else ""
  }

  function Noted(order: seq<int>, before: Acc, after: Acc, index: int): seq<int>
  {
    if index !in before.blocks && index in after.blocks then order + [index] else order
  }

  /** Some text is sent: a start of a text block, or text that is not empty. */
  predicate IsText(e: WireEvent)
  {
    e.StartText? || (e.DeltaText? && e.text != "")
  }

  /** With tags in the text, text goes through the normalizer; its block is created even when nothing comes out. */
  function HandleTagged(o: Options, s: Tagged, e: WireEvent): Result<Tagged>
  {
    if o.thinking.XmlTags? && e.DeltaText? && e.text != "" then
      var (norm, out) := Machine.Run(s.norm, e.text);
      var acc := s.acc.(blocks := s.acc.blocks[e.index := TextBlock(TextAt(s.acc.blocks, e.index) + out.text)]);
      Ok(Tagged(acc, norm, Noted(s.order, s.acc, acc, e.index)))
    else
      match Handle(o, s.acc, e)
      case Fail(error) => Fail(error)
      case Ok(acc) => Ok(Tagged(acc, s.norm, if HasIndex(e) then Noted(s.order, s.acc, acc, e.index) else s.order))
  }

  function HandleAllTagged(o: Options, s: Tagged, events: seq<WireEvent>): Result<Tagged>
    decreases |events|
  {
    if events == [] then Ok(s)
    else match HandleTagged(o, s, events[0])
      case Fail(error) => Fail(error)
      case Ok(next) => HandleAllTagged(o, next, events[1..])
  }

  /** The text block inserted last. */
  function LastText(blocks: map<int, Block>, order: seq<int>): Option<int>
  {
    if order == [] then None
    else
      var index := order[|order| - 1];
      if index in blocks && blocks[index].TextBlock? then Some(index) else LastText(blocks, order[..|order| - 1])
  }

  /** What the normalizer holds is appended to that block, or lost when there is none. */
  function Flushed(acc: Acc, order: seq<int>, buffer: string): Acc
  {
    var last := LastText(acc.blocks, order);
    if buffer == "" || last.None? then acc
    else acc.(blocks := acc.blocks[last.value := TextBlock(TextAt(acc.blocks, last.value) + buffer)])
  }

  function FinishTagged(o: Options, s: Tagged): Result<Message>
  {
    if !s.acc.started then Fail(NoMessageStart)
    else if !s.acc.stopped then Fail(NoMessageStop)
    else if s.acc.forbidden then Fail(UnexpectedToolUse)
    else match FinalizeKeys(o, s.acc, Sorted(s.acc.blocks.Keys))
      case Fail(error) => Fail(error)
      case Ok(end) => Ok(Assemble(Flushed(end, s.order, s.norm.buffer)))
  }

  function OutcomeTagged(o: Options, events: seq<WireEvent>): Result<Message>
  {
    match HandleAllTagged(o, NONE, events)
    case Fail(error) => Fail(error)
    case Ok(s) => FinishTagged(o, s)
  }

  // ----- Without tags -----

  lemma {:induction false} HandledPlain(o: Options, s: Tagged, events: seq<WireEvent>)
    requires !o.thinking.XmlTags?
    ensures HandleAll(o, s.acc, events).Fail? ==>
      HandleAllTagged(o, s, events) == Fail(HandleAll(o, s.acc, events).error)
    ensures HandleAll(o, s.acc, events).Ok? ==>
      HandleAllTagged(o, s, events).Ok? &&
      HandleAllTagged(o, s, events).value.acc == HandleAll(o, s.acc, events).value &&
      HandleAllTagged(o, s, events).value.norm == s.norm
    decreases |events|
  {
    hide Handle;
    if events != [] && Handle(o, s.acc, events[0]).Ok? {
      HandledPlain(o, HandleTagged(o, s, events[0]).value, events[1..]);
    }
  }

  /** Without tags in the text the normalizer plays no part. */
  lemma PlainOutcome(o: Options, events: seq<WireEvent>)
    requires !o.thinking.XmlTags?
    ensures OutcomeTagged(o, events) == Outcome(o, events)
  {
    hide HandleAll, HandleAllTagged, FinalizeKeys, Assemble, LastText;
    HandledPlain(o, NONE, events);
  }

  // ----- The text that is sent -----

  function Pieces(events: seq<WireEvent>): seq<Piece>
  {
    if events == [] then []
    else (match events[0]
          case StartText(k) => [Begin(k)]
          case DeltaText(k, text) => if text == "" then [] else [Say(k, text)]
          case _ => []) + Pieces(events[1..])
  }

  /** The blocks with these indices hold text and nothing else, and no other block holds text. */
  ghost predicate Separate(events: seq<WireEvent>, texts: set<int>)
  {
    forall e :: e in events && HasIndex(e) ==>
      if e.index in texts then e.StartText? || e.DeltaText? || e.StopBlock? else !IsText(e)
  }

  function TextsOf(blocks: map<int, Block>): Texts
  {
    map k | k in blocks && blocks[k].TextBlock? :: blocks[k].text
  }

  /** Exactly these blocks are text. */
  ghost predicate TextAre(blocks: map<int, Block>, texts: set<int>)
  {
    forall k :: k in blocks ==> (blocks[k].TextBlock? <==> k in texts)
  }

  /** Two accumulators that differ in the text of text blocks at most. */
  ghost predicate Alike(a: Acc, b: Acc)
  {
    a.calls == b.calls && a.started == b.started && a.stopped == b.stopped && a.forbidden == b.forbidden &&
    a.blocks.Keys == b.blocks.Keys &&
    forall k :: k in a.blocks ==>
      (a.blocks[k].TextBlock? <==> b.blocks[k].TextBlock?) && (!a.blocks[k].TextBlock? ==> a.blocks[k] == b.blocks[k])
  }

  lemma AlikeKinds(a: Acc, b: Acc, texts: set<int>)
    requires Alike(a, b) && TextAre(a.blocks, texts)
    ensures TextAre(b.blocks, texts)
  {
  }

  // ----- Events of other blocks, and events without text -----

  lemma StoreAlike(a: Acc, b: Acc, texts: set<int>, index: int, before: Cell, after: Cell)
    requires Alike(a, b) && TextAre(a.blocks, texts) && index !in texts
    requires after.block.Some? ==> !after.block.value.TextBlock?
    ensures
      var x, y := Store(a, index, before, after), Store(b, index, before, after);
      Alike(x, y) && TextAre(x.blocks, texts) &&
      TextsOf(x.blocks) == TextsOf(a.blocks) && TextsOf(y.blocks) == TextsOf(b.blocks) &&
      a.blocks.Keys <= x.blocks.Keys
  {
    SameTexts(a.blocks, Store(a, index, before, after).blocks, texts, index);
    AlikeKinds(a, b, texts);
    SameTexts(b.blocks, Store(b, index, before, after).blocks, texts, index);
  }

  lemma SameTexts(a: map<int, Block>, x: map<int, Block>, texts: set<int>, index: int)
    requires TextAre(a, texts) && TextAre(x, texts) && index !in texts
    requires forall k :: k != index ==> (k in a <==> k in x) && (k in a ==> a[k] == x[k])
    ensures TextsOf(x) == TextsOf(a)
  {
    var t, u := TextsOf(a), TextsOf(x);
    forall k | k in t.Keys ensures k in u && t[k] == u[k] {
    }
    forall k | k in u.Keys ensures k in t && t[k] == u[k] {
    }
    assert t.Keys == u.Keys;
  }

  lemma TouchMakesNoText(o: Options, c: Cell, e: WireEvent)
    requires HasIndex(e) && !IsText(e) && Touch(o, c, e).Ok?
    requires c.block.Some? ==> !c.block.value.TextBlock?
    ensures Touch(o, c, e).value.block.Some? ==> !Touch(o, c, e).value.block.value.TextBlock?
  {
  }

  lemma SameCell(a: Acc, b: Acc, texts: set<int>, index: int)
    requires Alike(a, b) && TextAre(a.blocks, texts) && index !in texts
    ensures CellOf(a, index) == CellOf(b, index)
    ensures CellOf(a, index).block.Some? ==> !CellOf(a, index).block.value.TextBlock?
  {
  }

  lemma StoreSame(acc: Acc, index: int)
    ensures Store(acc, index, CellOf(acc, index), CellOf(acc, index)) == acc
  {
    if index in acc.blocks {
      assert acc.blocks[index := acc.blocks[index]] == acc.blocks;
    }
    assert acc.calls + [] == acc.calls;
  }

  /** An empty text and the end of a text block change nothing. */
  lemma NothingHappens(o: Options, acc: Acc, e: WireEvent)
    requires HasIndex(e) && (e.DeltaText? || e.StopBlock?) && !IsText(e)
    requires e.index in acc.blocks ==> acc.blocks[e.index].TextBlock?
    ensures Handle(o, acc, e) == Ok(acc)
  {
    StoreSame(acc, e.index);
  }

  /** An event without text does the same to both, and nothing to their text. */
  lemma OtherEvent(o: Options, a: Acc, b: Acc, texts: set<int>, e: WireEvent)
    requires Alike(a, b) && TextAre(a.blocks, texts) && Separate([e], texts) && !IsText(e)
    ensures Handle(o, a, e).Fail? ==> Handle(o, b, e) == Fail(Handle(o, a, e).error)
    ensures Handle(o, a, e).Ok? ==>
      Handle(o, b, e).Ok? &&
      var x, y := Handle(o, a, e).value, Handle(o, b, e).value;
      Alike(x, y) && TextAre(x.blocks, texts) &&
      TextsOf(x.blocks) == TextsOf(a.blocks) && TextsOf(y.blocks) == TextsOf(b.blocks)
  {
    hide Touch, CellOf, Store, TextsOf, Alike, TextAre;
    assert e in [e];
    AlikeKinds(a, b, texts);
    if !HasIndex(e) {
      MarkerAlike(o, a, b, e);
    } else if e.index in texts {
      KindAt(a, texts, e.index);
      KindAt(b, texts, e.index);
      NothingHappens(o, a, e);
      NothingHappens(o, b, e);
    } else {
      var x, y := a, b;
      if e.StartTool? && !o.accumulateTools {
        x, y := a.(forbidden := true), b.(forbidden := true);
        ForbiddenAlike(a, b);
      }
      SameCell(a, b, texts, e.index);
      SameCell(x, y, texts, e.index);
      var before := CellOf(a, e.index);
      if Touch(o, before, e).Ok? {
        TouchMakesNoText(o, before, e);
        StoreAlike(x, y, texts, e.index, before, Touch(o, before, e).value);
      }
    }
  }

  lemma KindAt(acc: Acc, texts: set<int>, k: int)
    requires TextAre(acc.blocks, texts) && k in texts
    ensures k in acc.blocks ==> acc.blocks[k].TextBlock?
  {
  }

  lemma MarkerAlike(o: Options, a: Acc, b: Acc, e: WireEvent)
    requires Alike(a, b) && !HasIndex(e)
    ensures Handle(o, a, e).Fail? ==> Handle(o, b, e) == Fail(Handle(o, a, e).error)
    ensures Handle(o, a, e).Ok? ==>
      Handle(o, b, e).Ok? &&
      var x, y := Handle(o, a, e).value, Handle(o, b, e).value;
      Alike(x, y) && x.blocks == a.blocks && y.blocks == b.blocks
  {
    hide Touch;
  }

  lemma ForbiddenAlike(a: Acc, b: Acc)
    requires Alike(a, b)
    ensures Alike(a.(forbidden := true), b.(forbidden := true))
  {
  }

  // ----- Text -----

  lemma PlainText(o: Options, acc: Acc, k: int, text: string)
    requires text != ""
    ensures Handle(o, acc, DeltaText(k, text)) ==
      Ok(acc.(blocks := acc.blocks[k := TextBlock(TextAt(acc.blocks, k) + text)]))
  {
    hide ItemsOf;
    assert "" + text == text;
    assert acc.calls + [] == acc.calls;
    var before := CellOf(acc, k);
    assert Touch(o, before, DeltaText(k, text)) == Ok(before.(block := Some(TextBlock(TextAt(acc.blocks, k) + text))));
  }

  lemma PlainStart(o: Options, acc: Acc, k: int)
    ensures Handle(o, acc, StartText(k)) == Ok(acc.(blocks := acc.blocks[k := TextBlock("")]))
  {
    assert acc.calls + [] == acc.calls;
  }

  /** A text event puts its piece into the block; `out` is what comes in for the text sent. */
  lemma TextStored(acc: Acc, texts: set<int>, k: int, p: Piece)
    requires TextAre(acc.blocks, texts) && k in texts && p.k == k
    ensures
      var x := acc.(blocks := acc.blocks[k := TextBlock(if p.Begin? then "" else TextAt(acc.blocks, k) + p.text)]);
      TextsOf(x.blocks) == Put(TextsOf(acc.blocks), p) && TextAre(x.blocks, texts)
  {
    var x := acc.(blocks := acc.blocks[k := TextBlock(if p.Begin? then "" else TextAt(acc.blocks, k) + p.text)]);
    var t, u := Put(TextsOf(acc.blocks), p), TextsOf(x.blocks);
    forall j | j in t.Keys ensures j in u && t[j] == u[j] {
    }
    forall j | j in u.Keys ensures j in t && t[j] == u[j] {
    }
    assert t.Keys == u.Keys;
  }

  // ----- The block inserted last -----

  /** A new text block is the last one; any other insertion changes nothing. */
  lemma {:induction false} LastTextNoted(
      before: map<int, Block>, after: map<int, Block>, order: seq<int>, k: int)
    requires forall j :: j != k ==>
      ((j in before && before[j].TextBlock?) <==> (j in after && after[j].TextBlock?))
    requires forall j :: j in order ==> j in before
    requires k in before ==> (before[k].TextBlock? <==> k in after && after[k].TextBlock?)
    ensures
      LastText(after, if k !in before && k in after then order + [k] else order)
      == if k !in before && k in after && after[k].TextBlock? then Some(k) else LastText(before, order)
  {
    var grown := order + [k];
    assert grown[..|grown| - 1] == order;
    LastTextOver(before, after, order);
  }

  lemma {:induction false} LastTextOver(before: map<int, Block>, after: map<int, Block>, order: seq<int>)
    requires forall j :: j in order ==> (j in before && before[j].TextBlock? <==> j in after && after[j].TextBlock?)
    ensures LastText(after, order) == LastText(before, order)
    decreases |order|
  {
    if order != [] {
      assert order[|order| - 1] in order;
      LastTextOver(before, after, order[..|order| - 1]);
    }
  }

  // ----- The whole stream -----

  lemma {:induction false} PrefixesAgree(ps: seq<Piece>, p: Piece, m: nat)
    requires m <= |ps|
    ensures Written(ps + [p], m) == Written(ps, m) && Heard(ps + [p], m) == Heard(ps, m)
    decreases m
  {
    hide Machine.Run;
    if m > 0 {
      PrefixesAgree(ps, p, m - 1);
    }
  }

  lemma OnePieceMore(ps: seq<Piece>, p: Piece)
    ensures Written(ps + [p], |ps| + 1) == Put(Written(ps, |ps|), p)
    ensures Heard(ps + [p], |ps| + 1) == Hear(Heard(ps, |ps|), p)
  {
    PrefixesAgree(ps, p, |ps|);
  }

  /** The blocks of both modes after some pieces: what was written, and what was heard. */
  ghost predicate Follows(s: Tagged, acc: Acc, ps: seq<Piece>, texts: set<int>)
  {
    var heard := Heard(ps, |ps|);
    Alike(acc, s.acc) && TextAre(acc.blocks, texts) &&
    TextsOf(acc.blocks) == Written(ps, |ps|) && TextsOf(s.acc.blocks) == heard.texts &&
    s.norm == heard.norm && LastText(s.acc.blocks, s.order) == heard.last &&
    forall j :: j in s.order ==> j in s.acc.blocks
  }

  lemma OtherFollows(o: Options, s: Tagged, acc: Acc, ps: seq<Piece>, texts: set<int>, e: WireEvent)
    requires o.thinking.XmlTags? && Follows(s, acc, ps, texts) && Separate([e], texts) && !IsText(e)
    ensures Handle(o, acc, e).Fail? ==> HandleTagged(o, s, e) == Fail(Handle(o, acc, e).error)
    ensures Handle(o, acc, e).Ok? ==>
      HandleTagged(o, s, e).Ok? && Follows(HandleTagged(o, s, e).value, Handle(o, acc, e).value, ps, texts)
  {
    hide Handle, Written, Heard, Alike, TextsOf, LastText;
    OtherEvent(o, acc, s.acc, texts, e);
    if Handle(o, acc, e).Ok? {
      var after := Handle(o, s.acc, e).value;
      KeysGrow(o, s.acc, e);
      SameTextKeys(s.acc.blocks, after.blocks);
      if HasIndex(e) {
        LastTextNoted(s.acc.blocks, after.blocks, s.order, e.index);
        assert e in [e];
        NewIsNoText(s.acc.blocks, after.blocks, e.index);
      } else {
        LastTextOver(s.acc.blocks, after.blocks, s.order);
      }
    }
  }

  lemma SameTextKeys(a: map<int, Block>, x: map<int, Block>)
    requires TextsOf(a) == TextsOf(x)
    ensures forall k :: (k in a && a[k].TextBlock?) <==> (k in x && x[k].TextBlock?)
  {
    assert forall k :: (k in a && a[k].TextBlock?) <==> k in TextsOf(a);
    assert forall k :: (k in x && x[k].TextBlock?) <==> k in TextsOf(x);
  }

  lemma NewIsNoText(a: map<int, Block>, x: map<int, Block>, k: int)
    requires forall k :: (k in a && a[k].TextBlock?) <==> (k in x && x[k].TextBlock?)
    ensures k !in a && k in x ==> !x[k].TextBlock?
  {
  }

  lemma KeysGrow(o: Options, acc: Acc, e: WireEvent)
    requires Handle(o, acc, e).Ok?
    ensures acc.blocks.Keys <= Handle(o, acc, e).value.blocks.Keys
  {
    hide Touch;
  }

  lemma StartFollows(o: Options, s: Tagged, acc: Acc, ps: seq<Piece>, texts: set<int>, k: int)
    requires Follows(s, acc, ps, texts) && k in texts
    ensures
      var e := StartText(k);
      Handle(o, acc, e).Ok? && HandleTagged(o, s, e).Ok? &&
      Follows(HandleTagged(o, s, e).value, Handle(o, acc, e).value, ps + [Begin(k)], texts)
  {
    hide Machine.Run, Handle, Written, Heard, LastText, TextsOf;
    OnePieceMore(ps, Begin(k));
    AlikeKinds(acc, s.acc, texts);
    TextStored(acc, texts, k, Begin(k));
    TextStored(s.acc, texts, k, Begin(k));
    PlainStart(o, acc, k);
    PlainStart(o, s.acc, k);
    KnownText(s.acc.blocks, texts, k);
    LastTextNoted(s.acc.blocks, HandleTagged(o, s, StartText(k)).value.acc.blocks, s.order, k);
  }

  lemma KnownText(blocks: map<int, Block>, texts: set<int>, k: int)
    requires TextAre(blocks, texts) && k in texts
    ensures k in blocks <==> k in TextsOf(blocks)
    ensures k in blocks ==> blocks[k].TextBlock?
    ensures TextAt(blocks, k) == Get(TextsOf(blocks), k)
  {
  }

  lemma SayFollows(o: Options, s: Tagged, acc: Acc, ps: seq<Piece>, texts: set<int>, k: int, text: string)
    requires o.thinking.XmlTags? && Follows(s, acc, ps, texts) && k in texts && text != ""
    ensures
      var e := DeltaText(k, text);
      Handle(o, acc, e).Ok? && HandleTagged(o, s, e).Ok? &&
      Follows(HandleTagged(o, s, e).value, Handle(o, acc, e).value, ps + [Say(k, text)], texts)
  {
    hide Machine.Run, Handle, Written, Heard, LastText, TextsOf;
    OnePieceMore(ps, Say(k, text));
    AlikeKinds(acc, s.acc, texts);
    TextStored(acc, texts, k, Say(k, text));
    TextStored(s.acc, texts, k, Say(k, Machine.Run(s.norm, text).1.text));
    KnownText(acc.blocks, texts, k);
    KnownText(s.acc.blocks, texts, k);
    PlainText(o, acc, k, text);
    LastTextNoted(s.acc.blocks, HandleTagged(o, s, DeltaText(k, text)).value.acc.blocks, s.order, k);
  }

  lemma TextFollows(o: Options, s: Tagged, acc: Acc, ps: seq<Piece>, texts: set<int>, e: WireEvent)
    requires o.thinking.XmlTags? && Follows(s, acc, ps, texts) && Separate([e], texts) && IsText(e)
    ensures Handle(o, acc, e).Ok? && HandleTagged(o, s, e).Ok?
    ensures Pieces([e]) != [] && Follows(HandleTagged(o, s, e).value, Handle(o, acc, e).value, ps + Pieces([e]), texts)
  {
    hide Handle, HandleTagged, Follows;
    assert e in [e];
    if e.StartText? {
      PieceOf(e, Begin(e.index));
      StartFollows(o, s, acc, ps, texts, e.index);
    } else {
      PieceOf(e, Say(e.index, e.text));
      SayFollows(o, s, acc, ps, texts, e.index, e.text);
    }
  }

  lemma PieceOf(e: WireEvent, p: Piece)
    requires IsText(e) && p == if e.StartText? then Begin(e.index) else Say(e.index, e.text)
    ensures Pieces([e]) == [p]
  {
    assert [e][1..] == [];
    assert Pieces([]) == [];
    assert [p] + [] == [p];
  }

  lemma {:induction false} StreamFollows(
      o: Options, s: Tagged, acc: Acc, ps: seq<Piece>, texts: set<int>, events: seq<WireEvent>)
    requires o.thinking.XmlTags? && Follows(s, acc, ps, texts) && Separate(events, texts)
    ensures HandleAll(o, acc, events).Fail? ==>
      HandleAllTagged(o, s, events) == Fail(HandleAll(o, acc, events).error)
    ensures HandleAll(o, acc, events).Ok? ==>
      HandleAllTagged(o, s, events).Ok? &&
      Follows(HandleAllTagged(o, s, events).value, HandleAll(o, acc, events).value, ps + Pieces(events), texts)
    decreases |events|
  {
    hide Handle, HandleTagged, Follows;
    if events == [] {
      assert ps + [] == ps;
    } else {
      var e, rest := events[0], events[1..];
      assert Separate([e], texts) && Separate(rest, texts);
      PiecesCons(e, rest);
      Associate(ps, Pieces([e]), Pieces(rest));
      HeadAndTail(events);
      if IsText(e) {
        TextFollows(o, s, acc, ps, texts, e);
        StreamFollows(o, HandleTagged(o, s, e).value, Handle(o, acc, e).value, ps + Pieces([e]), texts, rest);
      } else {
        OtherFollows(o, s, acc, ps, texts, e);
        assert ps + [] == ps;
        if Handle(o, acc, e).Ok? {
          StreamFollows(o, HandleTagged(o, s, e).value, Handle(o, acc, e).value, ps, texts, rest);
        }
      }
    }
  }

  lemma PiecesCons(e: WireEvent, rest: seq<WireEvent>)
    ensures Pieces([e] + rest) == Pieces([e]) + Pieces(rest)
    ensures !IsText(e) ==> Pieces([e]) == []
  {
    assert ([e] + rest)[1..] == rest && [e][1..] == [];
    assert Pieces([]) == [];
  }

  // ----- The end of the stream -----

  lemma FinalCellMakesNoText(o: Options, c: Cell)
    requires FinalCell(o, c).Ok?
    ensures c.block.Some? && c.block.value.TextBlock? ==> FinalCell(o, c).value == c
    ensures (c.block.Some? ==> !c.block.value.TextBlock?) ==>
      FinalCell(o, c).value.block.Some? ==> !FinalCell(o, c).value.block.value.TextBlock?
  {
  }

  lemma TextIsFinal(o: Options, acc: Acc, texts: set<int>, k: int)
    requires TextAre(acc.blocks, texts) && k in texts && k in acc.blocks
    ensures FinalCell(o, CellOf(acc, k)) == Ok(CellOf(acc, k))
  {
  }

  lemma {:induction false} FinalAlike(o: Options, a: Acc, b: Acc, texts: set<int>, keys: seq<int>)
    requires Alike(a, b) && TextAre(a.blocks, texts) && forall k :: k in keys ==> k in a.blocks
    ensures FinalizeKeys(o, a, keys).Fail? ==> FinalizeKeys(o, b, keys) == Fail(FinalizeKeys(o, a, keys).error)
    ensures FinalizeKeys(o, a, keys).Ok? ==>
      FinalizeKeys(o, b, keys).Ok? &&
      var x, y := FinalizeKeys(o, a, keys).value, FinalizeKeys(o, b, keys).value;
      Alike(x, y) && TextAre(x.blocks, texts) &&
      TextsOf(x.blocks) == TextsOf(a.blocks) && TextsOf(y.blocks) == TextsOf(b.blocks)
    decreases |keys|
  {
    hide FinalCell, CellOf, Store, TextsOf, Alike, TextAre;
    if keys != [] {
      var k := keys[0];
      AlikeKinds(a, b, texts);
      assert k in keys;
      if k in texts {
        SameKeys(a, b);
        TextIsFinal(o, a, texts, k);
        TextIsFinal(o, b, texts, k);
        StoreSame(a, k);
        StoreSame(b, k);
        FinalAlike(o, a, b, texts, keys[1..]);
      } else {
        SameCell(a, b, texts, k);
        var c := CellOf(a, k);
        if FinalCell(o, c).Ok? {
          FinalCellMakesNoText(o, c);
          var after := FinalCell(o, c).value;
          StoreAlike(a, b, texts, k, c, after);
          FinalAlike(o, Store(a, k, c, after), Store(b, k, c, after), texts, keys[1..]);
        }
      }
    }
  }

  lemma SameKeys(a: Acc, b: Acc)
    requires Alike(a, b)
    ensures a.blocks.Keys == b.blocks.Keys && a.calls == b.calls
  {
  }

  // ----- The text of the message -----

  lemma {:induction false} JoinKeysSkips(t: Texts, keys: seq<int>, some: seq<int>)
    requires Ascending(keys) && Ascending(some) && (forall k :: k in some ==> k in keys)
    requires forall k :: k in keys && k !in some ==> Get(t, k) == ""
    ensures JoinKeys(t, keys) == JoinKeys(t, some)
    decreases |keys|
  {
    if some == [] {
      NothingIn(t, keys);
    } else {
      assert some[0] in some && some[0] in keys;
      var k, rest := keys[0], keys[1..];
      AscendingTail(keys);
      assert forall j :: j in keys <==> j == k || j in rest;
      if some[0] == k {
        AscendingTail(some);
        assert forall j :: j in some <==> j == k || j in some[1..];
        JoinKeysSkips(t, rest, some[1..]);
      } else {
        NotInTail(keys, some);
        JoinKeysSkips(t, rest, some);
      }
    }
  }

  lemma NotInTail(keys: seq<int>, some: seq<int>)
    requires Ascending(keys) && Ascending(some) && keys != [] && (forall k :: k in some ==> k in keys)
    requires some == [] || some[0] != keys[0]
    ensures keys[0] !in some && forall k :: k in some ==> k in keys[1..]
  {
    assert forall j :: j in keys <==> j == keys[0] || j in keys[1..];
    if some != [] {
      assert some[0] in keys;
      var i :| 0 <= i < |keys| && keys[i] == some[0];
      assert forall j :: 0 <= j < |some| ==> some[0] <= some[j];
    }
  }

  lemma {:induction false} TextOfKeys(blocks: map<int, Block>, keys: seq<int>)
    ensures TextOf(blocks, keys) == JoinKeys(TextsOf(blocks), keys)
    decreases |keys|
  {
    if keys != [] {
      TextOfKeys(blocks, keys[1..]);
    }
  }

  lemma TextOfIsJoined(blocks: map<int, Block>)
    ensures TextOf(blocks, Sorted(blocks.Keys)) == Joined(TextsOf(blocks))
  {
    hide Sorted;
    var t := TextsOf(blocks);
    TextOfKeys(blocks, Sorted(blocks.Keys));
    JoinKeysSkips(t, Sorted(blocks.Keys), Sorted(t.Keys));
  }

  lemma {:induction false} SameThinking(a: map<int, Block>, b: map<int, Block>, keys: seq<int>)
    requires a.Keys == b.Keys && forall k :: k in a ==>
      (a[k].TextBlock? <==> b[k].TextBlock?) && (!a[k].TextBlock? ==> a[k] == b[k])
    ensures ThinkingParts(a, keys) == ThinkingParts(b, keys)
    decreases |keys|
  {
    if keys != [] {
      SameThinking(a, b, keys[1..]);
    }
  }

  lemma AlikeMessages(a: Acc, b: Acc)
    requires Alike(a, b)
    ensures
      var m := Assemble(a);
      m.content == NonEmpty(Joined(TextsOf(a.blocks))) &&
      Assemble(b) == m.(content := NonEmpty(Joined(TextsOf(b.blocks))))
  {
    hide Sorted, TextOf, ThinkingParts, StableSort, Values, Joined, TextsOf;
    TextOfIsJoined(a.blocks);
    TextOfIsJoined(b.blocks);
    SameThinking(a.blocks, b.blocks, Sorted(a.blocks.Keys));
  }

  /** Flushing releases what the shared normalizer holds. */
  lemma FlushReleases(acc: Acc, texts: set<int>, order: seq<int>, s: Shared)
    requires TextAre(acc.blocks, texts) && TextsOf(acc.blocks) == s.texts && LastText(acc.blocks, order) == s.last
    ensures
      var end := Flushed(acc, order, s.norm.buffer);
      Alike(acc, end) && TextsOf(end.blocks) == Released(s)
  {
    hide LastText;
    var last := s.last;
    if s.norm.buffer != "" && last.Some? {
      LastTextIsText(acc.blocks, order);
      TextStored(acc, texts, last.value, Say(last.value, s.norm.buffer));
    }
  }

  lemma {:induction false} LastTextIsText(blocks: map<int, Block>, order: seq<int>)
    ensures
      var last := LastText(blocks, order);
      last.Some? ==> last.value in blocks && blocks[last.value].TextBlock?
    decreases |order|
  {
    if order != [] {
      LastTextIsText(blocks, order[..|order| - 1]);
    }
  }

  /** What plain mode returns, with its text read as a whole. */
  function Read(m: Message): Message
  {
    m.(content := NonEmpty(ThinkingDocuments.StreamText(OrEmpty(m.content), false)))
  }

  lemma AlikeFollows(a: Acc, b: Acc, c: Acc)
    requires Alike(a, b) && Alike(b, c)
    ensures Alike(a, c)
  {
  }

  lemma NonEmptyIsExact(a: string, b: string)
    ensures NonEmpty(a) == NonEmpty(b) <==> a == b
    ensures OrEmpty(NonEmpty(a)) == a
  {
  }

  /** Streams fail alike in both modes, and a message is read as a whole exactly when its text is. */
  lemma ReadsWholeInMessage(o: Options, events: seq<WireEvent>, texts: set<int>)
    requires o.thinking.XmlTags? && Separate(events, texts)
    ensures Outcome(o, events).Fail? ==> OutcomeTagged(o, events) == Fail(Outcome(o, events).error)
    ensures Outcome(o, events).Ok? ==>
      OutcomeTagged(o, events).Ok? &&
      (OutcomeTagged(o, events) == Ok(Read(Outcome(o, events).value)) <==> ReadsWhole(Pieces(events)))
  {
    hide Handle, HandleTagged, HandleAll, HandleAllTagged, Assemble, FinalizeKeys, Sorted, Flushed, Alike, TextAre,
      TextsOf, Written, Heard, LastText, Pieces, Joined, Released, ThinkingDocuments.StreamText, NonEmpty;
    var ps := Pieces(events);
    NothingFollows(texts);
    StreamFollows(o, NONE, EMPTY, [], texts, events);
    assert [] + ps == ps;
    if HandleAll(o, EMPTY, events).Ok? {
      var acc, s := HandleAll(o, EMPTY, events).value, HandleAllTagged(o, NONE, events).value;
      FinishedMessages(o, s, acc, ps, texts);
    }
  }

  lemma NothingFollows(texts: set<int>)
    ensures Follows(NONE, EMPTY, [], texts)
  {
  }

  lemma FinishedMessages(o: Options, s: Tagged, acc: Acc, ps: seq<Piece>, texts: set<int>)
    requires Follows(s, acc, ps, texts)
    ensures Finish(o, acc).Fail? ==> FinishTagged(o, s) == Fail(Finish(o, acc).error)
    ensures Finish(o, acc).Ok? ==>
      FinishTagged(o, s).Ok? && (FinishTagged(o, s) == Ok(Read(Finish(o, acc).value)) <==> ReadsWhole(ps))
  {
    hide Assemble, FinalizeKeys, Sorted, Flushed, Alike, TextAre, TextsOf, Written, Heard, LastText, Joined, Released,
      ThinkingDocuments.StreamText, NonEmpty;
    var keys := Sorted(acc.blocks.Keys);
    FlagsAlike(acc, s.acc);
    FinalAlike(o, acc, s.acc, texts, keys);
    if FinalizeKeys(o, acc, keys).Ok? {
      var x, y := FinalizeKeys(o, acc, keys).value, FinalizeKeys(o, s.acc, keys).value;
      var heard := Heard(ps, |ps|);
      SameTextKeys(s.acc.blocks, y.blocks);
      LastTextOver(s.acc.blocks, y.blocks, s.order);
      AlikeKinds(x, y, texts);
      FlushReleases(y, texts, s.order, heard);
      var end := Flushed(y, s.order, heard.norm.buffer);
      AlikeFollows(x, y, end);
      AlikeMessages(x, end);
      var whole := Joined(Written(ps, |ps|));
      NonEmptyIsExact(whole, whole);
      NonEmptyIsExact(Joined(Released(heard)), ThinkingDocuments.StreamText(whole, false));
    }
  }

  lemma FlagsAlike(a: Acc, b: Acc)
    requires Alike(a, b)
    ensures a.started == b.started && a.stopped == b.stopped && a.forbidden == b.forbidden
    ensures a.blocks.Keys == b.blocks.Keys
  {
  }

  // ----- Other texts in the same stream -----

  /** The same stream with other text in its text deltas. */
  ghost predicate SameButText(es: seq<WireEvent>, fs: seq<WireEvent>)
  {
    |es| == |fs| && forall i :: 0 <= i < |es| ==>
      es[i] == fs[i] || (es[i].DeltaText? && fs[i].DeltaText? && IsText(es[i]) && IsText(fs[i]) &&
                         es[i].index == fs[i].index)
  }

  lemma SameSeparation(es: seq<WireEvent>, fs: seq<WireEvent>, texts: set<int>)
    requires SameButText(es, fs) && Separate(es, texts)
    ensures Separate(fs, texts)
  {
    forall f | f in fs && HasIndex(f)
      ensures if f.index in texts then f.StartText? || f.DeltaText? || f.StopBlock? else !IsText(f)
    {
      var i :| 0 <= i < |fs| && fs[i] == f;
      assert es[i] in es;
    }
  }

  lemma {:induction false} SamePieces(es: seq<WireEvent>, fs: seq<WireEvent>)
    requires SameButText(es, fs)
    ensures SameShape(Pieces(es), Pieces(fs)) && Spoken(Pieces(es)) && Spoken(Pieces(fs))
    decreases |es|
  {
    if es != [] {
      assert es[0] == fs[0] || (IsText(es[0]) && IsText(fs[0]) && es[0].index == fs[0].index);
      SamePieces(es[1..], fs[1..]);
    }
  }

  /** Any other text can be sent in the same stream. */
  lemma {:induction false} Refill(es: seq<WireEvent>, qs: seq<Piece>) returns (fs: seq<WireEvent>)
    requires SameShape(Pieces(es), qs) && Spoken(qs)
    ensures SameButText(es, fs) && Pieces(fs) == qs
    decreases |es|
  {
    if es == [] {
      fs := [];
    } else {
      var e, rest := es[0], es[1..];
      HeadAndTail(es);
      PiecesCons(e, rest);
      if IsText(e) {
        PieceOf(e, if e.StartText? then Begin(e.index) else Say(e.index, e.text));
        var p, own := qs[0], Pieces(es);
        assert own[0].k == p.k && (own[0].Say? <==> p.Say?);
        var f := if p.Begin? then e else DeltaText(p.k, p.text);
        var more := Refill(rest, qs[1..]);
        PieceOf(f, p);
        PiecesCons(f, more);
        HeadAndTail(qs);
        fs := [f] + more;
      } else {
        assert [] + Pieces(rest) == Pieces(rest);
        var more := Refill(rest, qs);
        PiecesCons(e, more);
        assert [] + qs == qs;
        fs := [e] + more;
      }
    }
  }

  lemma {:induction false} OthersHandledAlike(
      o: Options, a: Acc, b: Acc, texts: set<int>, es: seq<WireEvent>, fs: seq<WireEvent>)
    requires Alike(a, b) && TextAre(a.blocks, texts) && Separate(es, texts) && SameButText(es, fs)
    ensures HandleAll(o, a, es).Ok? ==>
      HandleAll(o, b, fs).Ok? && Alike(HandleAll(o, a, es).value, HandleAll(o, b, fs).value) &&
      TextAre(HandleAll(o, a, es).value.blocks, texts)
    decreases |es|
  {
    hide Handle, Alike, TextAre, TextsOf, IsText;
    if es != [] {
      var e, f := es[0], fs[0];
      assert Separate([e], texts) && Separate(es[1..], texts) && SameButText(es[1..], fs[1..]);
      if IsText(e) {
        TextsAlike(o, a, b, texts, e, f);
        OthersHandledAlike(o, Handle(o, a, e).value, Handle(o, b, f).value, texts, es[1..], fs[1..]);
      } else {
        OtherEvent(o, a, b, texts, e);
        if Handle(o, a, e).Ok? {
          OthersHandledAlike(o, Handle(o, a, e).value, Handle(o, b, f).value, texts, es[1..], fs[1..]);
        }
      }
    }
  }

  lemma TextsAlike(o: Options, a: Acc, b: Acc, texts: set<int>, e: WireEvent, f: WireEvent)
    requires Alike(a, b) && TextAre(a.blocks, texts) && Separate([e], texts) && IsText(e) && IsText(f)
    requires e.index == f.index && (e.StartText? <==> f.StartText?)
    ensures Handle(o, a, e).Ok? && Handle(o, b, f).Ok?
    ensures Alike(Handle(o, a, e).value, Handle(o, b, f).value) && TextAre(Handle(o, a, e).value.blocks, texts)
  {
    hide Handle;
    assert e in [e];
    AlikeKinds(a, b, texts);
    if e.StartText? {
      PlainStart(o, a, e.index);
      PlainStart(o, b, e.index);
    } else {
      PlainText(o, a, e.index, e.text);
      PlainText(o, b, f.index, f.text);
    }
  }

  /** Whether a stream fails does not depend on its text. */
  lemma TextDoesNotFail(o: Options, es: seq<WireEvent>, fs: seq<WireEvent>, texts: set<int>)
    requires Separate(es, texts) && SameButText(es, fs) && Outcome(o, es).Ok?
    ensures Outcome(o, fs).Ok?
  {
    hide HandleAll, Alike, TextAre, FinalizeKeys, Assemble, Sorted;
    NothingFollows(texts);
    assert Alike(EMPTY, EMPTY) && TextAre(EMPTY.blocks, texts) by {
      NothingAlike(texts);
    }
    OthersHandledAlike(o, EMPTY, EMPTY, texts, es, fs);
    var a, b := HandleAll(o, EMPTY, es).value, HandleAll(o, EMPTY, fs).value;
    FlagsAlike(a, b);
    FinalAlike(o, a, b, texts, Sorted(a.blocks.Keys));
  }

  lemma NothingAlike(texts: set<int>)
    ensures Alike(EMPTY, EMPTY) && TextAre(EMPTY.blocks, texts)
  {
  }

  // ----- Main results -----

  /**
    Text that comes in the order of its blocks is read as a whole: neither the cutting into deltas nor interleaving
    with tool and thinking blocks matters, for any number of text blocks.
   */
  lemma OrderlyTextReadsAsWhole(o: Options, events: seq<WireEvent>, texts: set<int>)
    requires o.thinking.XmlTags? && Separate(events, texts) && Orderly(Pieces(events))
    ensures OutcomeTagged(o, events) ==
      match Outcome(o, events) case Fail(error) => Fail(error) case Ok(m) => Ok(Read(m))
  {
    hide Outcome, OutcomeTagged, Orderly, ReadsWhole, Read, Pieces;
    ReadsWholeInMessage(o, events, texts);
    OrderlyReadsWhole(Pieces(events));
  }

  /**
    Exactly the orderly streams are safe: a stream that plain mode accepts is read as a whole with every text its
    deltas may carry iff text comes in the order of the blocks, no text block starts again after text, and no text
    lies above the block inserted last.
   */
  lemma TagsReadAsWholeIff(o: Options, events: seq<WireEvent>, texts: set<int>)
    requires o.thinking.XmlTags? && Separate(events, texts) && Outcome(o, events).Ok?
    ensures
      (forall fs :: SameButText(events, fs) ==>
         Outcome(o, fs).Ok? && OutcomeTagged(o, fs) == Ok(Read(Outcome(o, fs).value)))
      <==> Orderly(Pieces(events))
  {
    hide Outcome, OutcomeTagged, Orderly, ReadsWhole, Read, Pieces, SameButText, Separate;
    if Orderly(Pieces(events)) {
      forall fs | SameButText(events, fs)
        ensures Outcome(o, fs).Ok? && OutcomeTagged(o, fs) == Ok(Read(Outcome(o, fs).value))
      {
        TextDoesNotFail(o, events, fs, texts);
        SameSeparation(events, fs, texts);
        SamePieces(events, fs);
        SameOrder(Pieces(events), Pieces(fs));
        OrderlyTextReadsAsWhole(o, fs, texts);
      }
    } else {
      var qs := DisorderShows(Pieces(events));
      var fs := Refill(events, qs);
      TextDoesNotFail(o, events, fs, texts);
      SameSeparation(events, fs, texts);
      ReadsWholeInMessage(o, fs, texts);
    }
  }
}
