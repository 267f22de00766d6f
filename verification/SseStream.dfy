/** Incremental parsing of `text/event-stream` bodies into JSON events (MCP streamable HTTP transport). */
module SseStream {
  import opened Prelude
  import opened LineFraming

  // ----- Event boundaries: the leftmost "\r\n\r\n" or "\n\n" -----

  /** Length of the boundary at the head of `s`, or zero. */
  function BoundaryHere(s: string): (len: nat)
    ensures len <= |s|
  {
    if |s| >= 4 && s[0] == '\r' && s[1] == '\n' && s[2] == '\r' && s[3] == '\n' then 4
    else if |s| >= 2 && s[0] == '\n' && s[1] == '\n' then 2
    else 0
  }

  datatype Match = NoMatch | Match(index: nat, len: nat)

  function FindBoundary(s: string): (m: Match)
    ensures m.Match? ==> 0 < m.len && m.index + m.len <= |s|
  {
    if s == "" then NoMatch
    else if BoundaryHere(s) > 0 then Match(0, BoundaryHere(s))
    else match FindBoundary(s[1..])
      case NoMatch => NoMatch
      case Match(i, len) => Match(i + 1, len)
  }

  /** The boundary found is the leftmost one, and none is missed. */
  lemma {:induction false} BoundaryIsLeftmost(s: string, i: nat)
    requires i <= |s|
    ensures match FindBoundary(s)
            case NoMatch => BoundaryHere(s[i..]) == 0
            case Match(k, len) => (i < k ==> BoundaryHere(s[i..]) == 0) && (i == k ==> BoundaryHere(s[i..]) == len)
  {
    if i == 0 {
      assert s[0..] == s;
    } else {
      BoundaryIsLeftmost(s[1..], i - 1);
      assert s[1..][i - 1..] == s[i..];
    }
  }

  /** A boundary found in a prefix stays the leftmost one in every extension. */
  lemma {:induction false} BoundaryIsStable(s: string, more: string)
    requires FindBoundary(s).Match?
    ensures FindBoundary(s + more) == FindBoundary(s)
  {
    if BoundaryHere(s) == 0 {
      BoundaryIsStable(s[1..], more);
      assert (s + more)[1..] == s[1..] + more;
    }
  }

  /** The raw event blocks of a whole text, and what follows the last boundary. */
  function Blocks(s: string): seq<string>
    decreases |s|
  {
    match FindBoundary(s)
    case NoMatch => []
    case Match(i, len) => [s[..i]] + Blocks(s[i + len..])
  }

  function Remainder(s: string): string
    decreases |s|
  {
    match FindBoundary(s)
    case NoMatch => s
    case Match(i, len) => Remainder(s[i + len..])
  }

  /** Reading `a` and then `b` gives the same blocks as reading both at once. */
  lemma {:induction false} BlocksAppend(a: string, b: string)
    ensures Blocks(a + b) == Blocks(a) + Blocks(Remainder(a) + b)
    ensures Remainder(a + b) == Remainder(Remainder(a) + b)
    decreases |a|
  {
    hide FindBoundary, Blocks, Remainder;
    NextBlock(a);
    match FindBoundary(a)
    case NoMatch =>
      assert [] + Blocks(a + b) == Blocks(a + b);
    case Match(i, len) =>
      BoundaryIsStable(a, b);
      NextBlock(a + b);
      AppendSlices(a, b, i);
      AppendSlices(a, b, i + len);
      BlocksAppend(a[i + len..], b);
      Associate([a[..i]], Blocks(a[i + len..]), Blocks(Remainder(a) + b));
  }

  lemma NextBlock(s: string)
    ensures FindBoundary(s).NoMatch? ==> Blocks(s) == [] && Remainder(s) == s
    ensures FindBoundary(s).Match? ==>
      var end := FindBoundary(s).index + FindBoundary(s).len;
      Blocks(s) == [s[..FindBoundary(s).index]] + Blocks(s[end..]) && Remainder(s) == Remainder(s[end..])
  {
  }

  // ----- One event block -----

  /** `raw.split(/\r?\n/)`. */
  function SplitLines(raw: string): seq<string>
    decreases |raw|
  {
    var n := LineFeed(raw);
    if n == |raw| then [raw] else [DropCarriageReturn(raw[..n])] + SplitLines(raw[n + 1..])
  }

  /** Fields collected from the lines of one block so far. */
  datatype Fields = Fields(eventId: Option<string>, data: seq<string>)

  function DropSpace(s: string): string
  {
    if s != "" && s[0] == ' ' then s[1..] else s
  }

  function AddLine(f: Fields, line: string): Fields
  {
    if ":" <= line then f
    else if "id:" <= line then
      var v := DropSpace(line[3..]);
      if v != "" && '\0' !in v then f.(eventId := Some(v)) else f
    else if "data:" <= line then f.(data := f.data + [DropSpace(line[5..])])
    else f
  }

  function AddLines(f: Fields, lines: seq<string>): Fields
    decreases |lines|
  {
    if lines == [] then f else AddLines(AddLine(f, lines[0]), lines[1..])
  }

  /** Empty data counts as no data. */
  function DataPayload(f: Fields): Option<string>
  {
    NonEmpty(Join(f.data, "\n"))
  }

  method ParseSseEventBlock(raw: string) returns (eventId: Option<string>, dataPayload: Option<string>)
    ensures var f := AddLines(Fields(None, []), SplitLines(raw)); eventId == f.eventId && dataPayload == DataPayload(f)
  {
    var dataParts := [];
    eventId := None;
    var lines := SplitLines(raw);
    var i := 0;
    while i < |lines|
      invariant 0 <= i <= |lines|
      invariant AddLines(Fields(None, []), lines) == AddLines(Fields(eventId, dataParts), lines[i..])
    {
      var line := lines[i];
      assert lines[i..][1..] == lines[i + 1..];
      i := i + 1;
      if ":" <= line {
        continue;
      }
      if "id:" <= line {
        var v := DropSpace(line[3..]);
        if v != "" && '\0' !in v {
          eventId := Some(v);
        }
        continue;
      }
      if "data:" <= line {
        dataParts := dataParts + [DropSpace(line[5..])];
      }
    }
    if dataParts == [] {
      return eventId, None;
    }
    dataPayload := NonEmpty(Join(dataParts, "\n"));
  }

  // ----- The whole stream -----

  /** What a consumer sees: a parsed event, or a report that an event's data was not JSON. */
  datatype Item<+J> = Event(eventId: Option<string>, json: J) | ParseError(eventId: Option<string>, data: string)

  /** The items (at most one) of one block; `parse` is the JSON parser. */
  function ItemsOfBlock<J>(raw: string, parse: string -> Option<J>): seq<Item<J>>
  {
    var f := AddLines(Fields(None, []), SplitLines(raw));
    match DataPayload(f)
    case None => []
    case Some(data) =>
      match parse(data)
      case Some(json) => [Event(f.eventId, json)]
      case None => [ParseError(f.eventId, data)]
  }

  function ItemsOfBlocks<J>(raws: seq<string>, parse: string -> Option<J>): seq<Item<J>>
  {
    if raws == [] then [] else ItemsOfBlock(raws[0], parse) + ItemsOfBlocks(raws[1..], parse)
  }

  /** The items of a whole text: one block per leftmost boundary, and a last block if the text does not end in one. */
  function StreamItems<J>(text: string, parse: string -> Option<J>): seq<Item<J>>
  {
    ItemsOfBlocks(Blocks(text), parse) +
    if Trim(Remainder(text)) != "" then ItemsOfBlock(Remainder(text), parse) else []
  }

  lemma {:induction false} ItemsAppend<J>(a: seq<string>, b: seq<string>, parse: string -> Option<J>)
    ensures ItemsOfBlocks(a + b, parse) == ItemsOfBlocks(a, parse) + ItemsOfBlocks(b, parse)
    decreases |a|
  {
    hide ItemsOfBlock;
    if a == [] {
      assert a + b == b;
    } else {
      ItemsAppend(a[1..], b, parse);
      assert (a + b)[1..] == a[1..] + b;
    }
  }

  method EmitBlock<J>(raw: string, parse: string -> Option<J>, seen: seq<Item<J>>) returns (items: seq<Item<J>>)
    ensures items == seen + ItemsOfBlock(raw, parse)
  {
    var eventId, dataPayload := ParseSseEventBlock(raw);
    items := seen;
    if dataPayload.Some? {
      match parse(dataPayload.value) {
        case Some(json) => items := items + [Event(eventId, json)];
        case None => items := items + [ParseError(eventId, dataPayload.value)];
      }
    }
  }

  /** The inner loop: take complete blocks off the front of the buffer. */
  method Drain<J>(pending: string, parse: string -> Option<J>, seen: seq<Item<J>>)
      returns (items: seq<Item<J>>, buf: string)
    ensures items == seen + ItemsOfBlocks(Blocks(pending), parse) && buf == Remainder(pending)
  {
    hide FindBoundary, ItemsOfBlock;
    buf, items := pending, seen;
    var m := FindBoundary(buf);
    while m.Match?
      invariant m == FindBoundary(buf)
      invariant items + ItemsOfBlocks(Blocks(buf), parse) == seen + ItemsOfBlocks(Blocks(pending), parse)
      invariant Remainder(buf) == Remainder(pending)
      decreases |buf|
    {
      var raw := buf[..m.index];
      assert Blocks(buf)[1..] == Blocks(buf[m.index + m.len..]);
      buf := buf[m.index + m.len..];
      items := EmitBlock(raw, parse, items);
      m := FindBoundary(buf);
    }
  }

  /** Main result: the items depend on the decoded text only, not on the chunks it arrived in. */
  method IterateSseDataJson<J>(chunks: seq<string>, parse: string -> Option<J>) returns (items: seq<Item<J>>)
    ensures items == StreamItems(Flatten(chunks), parse)
  {
    items := [];
    var buf := "";
    for k := 0 to |chunks|
      invariant items == ItemsOfBlocks(Blocks(Flatten(chunks[..k])), parse)
      invariant buf == Remainder(Flatten(chunks[..k]))
    {
      assert chunks[..k + 1] == chunks[..k] + [chunks[k]];
      FlattenSnoc(chunks[..k], chunks[k]);
      BlocksAppend(Flatten(chunks[..k]), chunks[k]);
      ItemsAppend(Blocks(Flatten(chunks[..k])), Blocks(buf + chunks[k]), parse);
      items, buf := Drain(buf + chunks[k], parse, items);
    }
    assert chunks[..|chunks|] == chunks;
    if Trim(buf) != "" {
      items := EmitBlock(buf, parse, items);
    }
  }

}
