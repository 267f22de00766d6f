/** What a server writes is what the SSE iterator reads back, however the text is chunked. */
module SseRoundTrip {
  import opened Prelude
  import opened LineFraming
  import opened SseStream

  datatype LineEnd = LF | CRLF {
    function Text(): string
    {
      if this == LF then "\n" else "\r\n"
    }
  }

  /** A line of an event; the space behind the colon is optional. Other lines are comments and further fields. */
  datatype SentLine =
    | IdLine(value: string, spaced: bool)
    | DataLine(value: string, spaced: bool)
    | OtherLine(text: string)

  /** An event as a server sends it: lines in any order, and the line ending used for this event. */
  datatype SentEvent = SentEvent(lines: seq<SentLine>, eol: LineEnd)

  predicate OneLine(s: string)
  {
    forall i :: 0 <= i < |s| ==> s[i] != '\r' && s[i] != '\n'
  }

  predicate Sendable(e: SentEvent)
  {
    e.lines != [] && forall l :: l in e.lines ==> SendableLine(l)
  }

  /** Lines carry no line breaks, and a value that begins with a space has one more in front of it. */
  predicate SendableLine(l: SentLine)
  {
    match l
    case OtherLine(text) => text != "" && OneLine(text) && !("id:" <= text) && !("data:" <= text)
    case _ => OneLine(l.value) && (l.spaced || !(" " <= l.value))
  }

  function LineText(l: SentLine): string
  {
    match l
    case IdLine(value, spaced) => "id:" + Spaced(value, spaced)
    case DataLine(value, spaced) => "data:" + Spaced(value, spaced)
    case OtherLine(text) => text
  }

  function Spaced(value: string, spaced: bool): string
  {
    if spaced then " " + value else value
  }

  function LineTexts(lines: seq<SentLine>): seq<string>
  {
    if lines == [] then [] else [LineText(lines[0])] + LineTexts(lines[1..])
  }

  function EventLines(e: SentEvent): seq<string>
  {
    LineTexts(e.lines)
  }

  function EncodeEvent(e: SentEvent): string
  {
    Join(EventLines(e), e.eol.Text()) + (e.eol.Text() + e.eol.Text())
  }

  function Encode(events: seq<SentEvent>): string
  {
    if events == [] then "" else EncodeEvent(events[0]) + Encode(events[1..])
  }

  /** The data of an event: the values of its data lines, in order. */
  function DataOf(lines: seq<SentLine>): seq<string>
  {
    if lines == [] then [] else (if lines[0].DataLine? then [lines[0].value] else []) + DataOf(lines[1..])
  }

  /** The id of an event: the last one that is neither empty nor holds a NUL. */
  function IdOf(lines: seq<SentLine>): Option<string>
  {
    if lines == [] then None
    else
      var n := |lines| - 1;
      if lines[n].IdLine? && lines[n].value != "" && '\0' !in lines[n].value then Some(lines[n].value)
      else IdOf(lines[..n])
  }

  /** An event without data, or with nothing but one empty data line, delivers nothing. */
  function Received<J>(e: SentEvent, parse: string -> Option<J>): seq<Item<J>>
  {
    var data := Join(DataOf(e.lines), "\n");
    if data == "" then []
    else match parse(data)
      case Some(json) => [Event(IdOf(e.lines), json)]
      case None => [ParseError(IdOf(e.lines), data)]
  }

  function AllReceived<J>(events: seq<SentEvent>, parse: string -> Option<J>): seq<Item<J>>
  {
    if events == [] then [] else Received(events[0], parse) + AllReceived(events[1..], parse)
  }

  // ----- Lines -----

  predicate GoodLines(lines: seq<string>)
  {
    forall l :: l in lines ==> l != "" && OneLine(l)
  }

  lemma {:induction false} LineFeedAfter(line: string, eol: LineEnd, rest: string)
    requires OneLine(line)
    ensures LineFeed(line + (eol.Text() + rest)) == |line| + |eol.Text()| - 1
  {
    hide LineFeed;
    var ending := eol.Text() + rest;
    if line == "" {
      assert line + ending == ending;
      LineFeedInEnding(eol, rest);
    } else {
      AppendSlices(line, ending, 1);
      LineFeedLater(line + ending);
      LineFeedAfter(line[1..], eol, rest);
    }
  }

  lemma LineFeedLater(s: string)
    requires s != "" && s[0] != '\n'
    ensures LineFeed(s) == 1 + LineFeed(s[1..])
  {
  }

  lemma LineFeedInEnding(eol: LineEnd, rest: string)
    ensures LineFeed(eol.Text() + rest) == |eol.Text()| - 1
  {
    if eol == CRLF {
      assert (eol.Text() + rest)[1..] == "\n" + rest;
    }
  }

  lemma {:induction false} NoLineFeed(line: string)
    requires OneLine(line)
    ensures LineFeed(line) == |line|
  {
    if line != "" {
      NoLineFeed(line[1..]);
    }
  }

  lemma {:induction false} SplitJoined(lines: seq<string>, eol: LineEnd)
    requires GoodLines(lines) && lines != []
    ensures SplitLines(Join(lines, eol.Text())) == lines
    decreases |lines|
  {
    hide LineFeed, SplitLines, DropCarriageReturn, OneLine;
    var line := lines[0];
    assert line in lines;
    if |lines| == 1 {
      OneRow(line);
    } else {
      var rest := Join(lines[1..], eol.Text());
      FirstRow(line, eol, rest);
      SplitJoined(lines[1..], eol);
      assert lines == [line] + lines[1..];
    }
  }

  lemma OneRow(line: string)
    requires OneLine(line)
    ensures SplitLines(line) == [line]
  {
    hide LineFeed;
    NoLineFeed(line);
  }

  /** The first line of a text, its line end and the rest. */
  lemma FirstRow(line: string, eol: LineEnd, rest: string)
    requires OneLine(line)
    ensures SplitLines(line + (eol.Text() + rest)) == [line] + SplitLines(rest)
  {
    hide LineFeed, OneLine, DropCarriageReturn, SplitLines;
    LineFeedAfter(line, eol, rest);
    RowSlices(line, eol, rest);
    DropsLineEnd(line, eol);
    SplitFirst(line + (eol.Text() + rest));
  }

  lemma SplitFirst(s: string)
    requires LineFeed(s) < |s|
    ensures SplitLines(s) == [DropCarriageReturn(s[..LineFeed(s)])] + SplitLines(s[LineFeed(s) + 1..])
  {
    hide LineFeed, DropCarriageReturn;
  }

  lemma RowSlices(line: string, eol: LineEnd, rest: string)
    ensures
      var raw, n := line + (eol.Text() + rest), |line| + |eol.Text()| - 1;
      raw[..n] == line + eol.Text()[..|eol.Text()| - 1] && raw[n + 1..] == rest
  {
    assert line + (eol.Text() + rest) == line + eol.Text() + rest;
  }

  lemma DropsLineEnd(line: string, eol: LineEnd)
    requires OneLine(line)
    ensures DropCarriageReturn(line + eol.Text()[..|eol.Text()| - 1]) == line
  {
  }

  lemma ReadLine(f: Fields, l: SentLine)
    requires SendableLine(l)
    ensures AddLine(f, LineText(l)) == Fields(
              if l.IdLine? && l.value != "" && '\0' !in l.value then Some(l.value) else f.eventId,
              f.data + if l.DataLine? then [l.value] else [])
  {
    var line := LineText(l);
    assert f.data + [] == f.data;
    match l
    case IdLine(value, spaced) =>
      assert line[3..] == Spaced(value, spaced) && line[..3] == "id:" && line[0] == 'i';
      assert DropSpace(line[3..]) == value;
    case DataLine(value, spaced) =>
      assert line[5..] == Spaced(value, spaced) && line[..5] == "data:" && line[0] == 'd';
      assert DropSpace(line[5..]) == value;
    case OtherLine(text) =>
  }

  lemma {:induction false} LinesSnoc(f: Fields, lines: seq<string>, line: string)
    ensures AddLines(f, lines + [line]) == AddLine(AddLines(f, lines), line)
    decreases |lines|
  {
    hide AddLine;
    if lines == [] {
      assert [line][1..] == [];
    } else {
      assert (lines + [line])[1..] == lines[1..] + [line];
      LinesSnoc(AddLine(f, lines[0]), lines[1..], line);
    }
  }

  lemma {:induction false} TextsSnoc(lines: seq<SentLine>, l: SentLine)
    ensures LineTexts(lines + [l]) == LineTexts(lines) + [LineText(l)]
    ensures DataOf(lines + [l]) == DataOf(lines) + if l.DataLine? then [l.value] else []
  {
    hide LineText;
    if lines == [] {
      assert lines + [l] == [l];
    } else {
      TextsSnoc(lines[1..], l);
      assert (lines + [l])[1..] == lines[1..] + [l];
    }
  }

  lemma {:induction false} ReadLines(lines: seq<SentLine>)
    requires forall l :: l in lines ==> SendableLine(l)
    ensures AddLines(Fields(None, []), LineTexts(lines)) == Fields(IdOf(lines), DataOf(lines))
    decreases |lines|
  {
    hide AddLine, LineText, SendableLine;
    if lines != [] {
      var n := |lines| - 1;
      ReadLines(lines[..n]);
      assert lines == lines[..n] + [lines[n]];
      TextsSnoc(lines[..n], lines[n]);
      LinesSnoc(Fields(None, []), LineTexts(lines[..n]), LineText(lines[n]));
      ReadLine(Fields(IdOf(lines[..n]), DataOf(lines[..n])), lines[n]);
    }
  }

  lemma LineIsGood(l: SentLine)
    requires SendableLine(l)
    ensures LineText(l) != "" && OneLine(LineText(l))
  {
  }

  lemma {:induction false} LinesAreGood(lines: seq<SentLine>)
    requires forall l :: l in lines ==> SendableLine(l)
    ensures GoodLines(LineTexts(lines)) && |LineTexts(lines)| == |lines|
  {
    hide LineText, SendableLine, OneLine;
    if lines != [] {
      LinesAreGood(lines[1..]);
      LineIsGood(lines[0]);
    }
  }

  lemma EventLinesAreGood(e: SentEvent)
    requires Sendable(e)
    ensures GoodLines(EventLines(e)) && EventLines(e) != []
  {
    hide GoodLines, LineTexts, SendableLine;
    LinesAreGood(e.lines);
  }

  // ----- Blocks -----

  lemma {:induction false} BoundaryAfterLine(line: string, rest: string)
    requires OneLine(line)
    ensures FindBoundary(line + rest) ==
            match FindBoundary(rest) case NoMatch => NoMatch case Match(i, len) => Match(|line| + i, len)
  {
    if line == "" {
      assert line + rest == rest;
    } else {
      assert (line + rest)[1..] == line[1..] + rest;
      BoundaryAfterLine(line[1..], rest);
    }
  }

  lemma BoundaryAfterBreak(eol: LineEnd, rest: string)
    requires rest != "" && rest[0] != '\r' && rest[0] != '\n'
    ensures FindBoundary(eol.Text() + rest) ==
            match FindBoundary(rest) case NoMatch => NoMatch case Match(i, len) => Match(|eol.Text()| + i, len)
  {
    var s := eol.Text() + rest;
    if eol == CRLF {
      assert s[1..] == "\n" + rest;
      assert ("\n" + rest)[1..] == rest;
    } else {
      assert s[1..] == rest;
    }
  }

  /** The blank line that ends an event is its first boundary. */
  lemma {:induction false} BoundaryAfterLines(lines: seq<string>, eol: LineEnd, rest: string)
    requires GoodLines(lines) && lines != [] && lines[0] != ""
    ensures var joined := Join(lines, eol.Text());
            FindBoundary(joined + (eol.Text() + eol.Text() + rest)) == Match(|joined|, 2 * |eol.Text()|)
    ensures var joined := Join(lines, eol.Text()); joined != "" && joined[0] == lines[0][0]
    decreases |lines|
  {
    hide FindBoundary;
    var blank := eol.Text() + eol.Text() + rest;
    var line := lines[0];
    assert line in lines;
    if |lines| == 1 {
      BoundaryAfterLine(line, blank);
      BlankLine(eol, rest);
    } else {
      assert lines[1..][0] in lines;
      var tail := Join(lines[1..], eol.Text());
      BoundaryAfterLines(lines[1..], eol, rest);
      BoundaryAfterBreak(eol, tail + blank);
      BoundaryAfterLine(line, eol.Text() + (tail + blank));
      assert Join(lines, eol.Text()) + blank == line + (eol.Text() + (tail + blank));
    }
  }

  lemma BlankLine(eol: LineEnd, rest: string)
    ensures FindBoundary(eol.Text() + eol.Text() + rest) == Match(0, 2 * |eol.Text()|)
  {
    var s := eol.Text() + eol.Text() + rest;
    assert BoundaryHere(s) == 2 * |eol.Text()|;
  }

  lemma BlocksOfEvent(e: SentEvent, rest: string)
    requires Sendable(e)
    ensures Blocks(EncodeEvent(e) + rest) == [Join(EventLines(e), e.eol.Text())] + Blocks(rest)
    ensures Remainder(EncodeEvent(e) + rest) == Remainder(rest)
  {
    hide FindBoundary;
    var joined := Join(EventLines(e), e.eol.Text());
    var s := EncodeEvent(e) + rest;
    assert s == joined + (e.eol.Text() + e.eol.Text() + rest);
    EventLinesAreGood(e);
    assert EventLines(e)[0] in EventLines(e);
    BoundaryAfterLines(EventLines(e), e.eol, rest);
    assert s[..|joined|] == joined;
    assert s[|joined| + 2 * |e.eol.Text()|..] == rest;
  }

  lemma ItemsOfEvent<J>(e: SentEvent, parse: string -> Option<J>)
    requires Sendable(e)
    ensures ItemsOfBlock(Join(EventLines(e), e.eol.Text()), parse) == Received(e, parse)
  {
    hide AddLines, GoodLines, LineTexts, SendableLine, SplitLines, IdOf, DataOf;
    EventLinesAreGood(e);
    SplitJoined(EventLines(e), e.eol);
    ReadLines(e.lines);
  }

  lemma {:induction false} DecodeEncode<J>(events: seq<SentEvent>, parse: string -> Option<J>)
    requires forall e :: e in events ==> Sendable(e)
    ensures ItemsOfBlocks(Blocks(Encode(events)), parse) == AllReceived(events, parse)
    ensures Remainder(Encode(events)) == ""
    decreases |events|
  {
    hide FindBoundary, EncodeEvent, ItemsOfBlock, Sendable;
    if events == [] {
      NoBlocks();
    } else {
      var rest := Encode(events[1..]);
      assert events[0] in events;
      BlocksOfEvent(events[0], rest);
      ItemsOfEvent(events[0], parse);
      DecodeEncode(events[1..], parse);
      var block := Join(EventLines(events[0]), events[0].eol.Text());
      assert ([block] + Blocks(rest))[1..] == Blocks(rest);
    }
  }

  lemma NoBlocks()
    ensures Blocks("") == [] && Remainder("") == ""
  {
  }

  lemma TextRoundTrip<J>(events: seq<SentEvent>, parse: string -> Option<J>)
    requires forall e :: e in events ==> Sendable(e)
    ensures StreamItems(Encode(events), parse) == AllReceived(events, parse)
  {
    hide Sendable, Encode, AllReceived, ItemsOfBlocks, Blocks, Remainder, Trim, ItemsOfBlock;
    DecodeEncode(events, parse);
    NothingTrimmed();
    assert ItemsOfBlocks(Blocks(Encode(events)), parse) + [] == AllReceived(events, parse);
  }

  /** Lines of an event without the blank line behind them hold no boundary. */
  lemma NoBoundaryInLines(lines: seq<string>, eol: LineEnd)
    requires GoodLines(lines) && lines != []
    ensures FindBoundary(Join(lines, eol.Text())).NoMatch?
  {
    hide FindBoundary, OneLine;
    assert lines[0] in lines;
    var tail, blank := Join(lines, eol.Text()), eol.Text() + eol.Text() + "";
    BoundaryAfterLines(lines, eol, "");
    if FindBoundary(tail).Match? {
      BoundaryIsStable(tail, blank);
      BoundaryFits(tail);
    }
  }

  lemma {:induction false} BoundaryFits(s: string)
    requires FindBoundary(s).Match?
    ensures FindBoundary(s).index < |s|
    decreases |s|
  {
    if BoundaryHere(s) == 0 {
      BoundaryFits(s[1..]);
    }
  }

  /** An event whose blank line is missing at the end of the stream is delivered as well. */
  lemma UnterminatedArrives<J>(events: seq<SentEvent>, last: SentEvent, parse: string -> Option<J>)
    requires (forall e :: e in events ==> Sendable(e)) && Sendable(last)
    ensures StreamItems(Encode(events) + Join(EventLines(last), last.eol.Text()), parse)
         == AllReceived(events, parse) + Received(last, parse)
  {
    hide Sendable, Encode, AllReceived, Blocks, Remainder, Trim, ItemsOfBlock, FindBoundary, EventLines, GoodLines,
      ItemsOfBlocks, Join;
    var front, tail := Encode(events), Join(EventLines(last), last.eol.Text());
    DecodeEncode(events, parse);
    BlocksAppend(front, tail);
    assert "" + tail == tail;
    EventLinesAreGood(last);
    NoBoundaryInLines(EventLines(last), last.eol);
    NextBlock(tail);
    ItemsOfEvent(last, parse);
    assert Blocks(front) + [] == Blocks(front);
    if Trim(tail) == "" {
      BlankDeliversNothing(last, parse);
    }
  }

  /** Blank text behind the last boundary is dropped, and it holds no data line. */
  lemma BlankDeliversNothing<J>(e: SentEvent, parse: string -> Option<J>)
    requires Sendable(e) && Trim(Join(EventLines(e), e.eol.Text())) == ""
    ensures Received(e, parse) == []
  {
    hide Trim, LineText, SendableLine, IsSpace;
    var text := Join(EventLines(e), e.eol.Text());
    BlankIsSpace(text);
    forall l | l in e.lines ensures !l.DataLine? {
      var c := LineText(l)[0] by {
        assert SendableLine(l);
        LineIsGood(l);
      }
      TextsHold(e.lines, l);
      JoinHolds(EventLines(e), e.eol.Text(), LineText(l), c);
      LetterIsNoSpace(l);
    }
    NoData(e.lines);
  }

  lemma LetterIsNoSpace(l: SentLine)
    requires LineText(l) != "" && IsSpace(LineText(l)[0])
    ensures !l.DataLine?
  {
  }

  lemma {:induction false} NoData(lines: seq<SentLine>)
    requires forall l :: l in lines ==> !l.DataLine?
    ensures DataOf(lines) == []
  {
    if lines != [] {
      NoData(lines[1..]);
    }
  }

  lemma {:induction false} TextsHold(lines: seq<SentLine>, l: SentLine)
    requires l in lines
    ensures LineText(l) in LineTexts(lines)
  {
    hide LineText;
    if l != lines[0] {
      TextsHold(lines[1..], l);
    }
  }

  lemma {:induction false} JoinHolds(lines: seq<string>, separator: string, line: string, c: char)
    requires line in lines && c in line
    ensures c in Join(lines, separator)
  {
    if line != lines[0] {
      JoinHolds(lines[1..], separator, line, c);
    }
  }

  lemma BlankIsSpace(s: string)
    requires Trim(s) == ""
    ensures forall c :: c in s ==> IsSpace(c)
  {
    hide IsSpace;
    StartIsSpace(s);
    EndIsSpace(TrimStart(s));
  }

  lemma {:induction false} StartIsSpace(s: string)
    ensures forall c :: c in s ==> IsSpace(c) || c in TrimStart(s)
  {
    hide IsSpace;
    if s != "" && IsSpace(s[0]) {
      StartIsSpace(s[1..]);
    }
  }

  lemma {:induction false} EndIsSpace(s: string)
    ensures forall c :: c in s ==> IsSpace(c) || c in TrimEnd(s)
  {
    hide IsSpace;
    if s != "" && IsSpace(s[|s| - 1]) {
      EndIsSpace(s[..|s| - 1]);
    }
  }

  lemma NothingTrimmed()
    ensures Trim("") == ""
  {
  }

  /**
    Main result: whatever events a server sends, with either line ending for each of them and cut into any
    chunks, the iterator delivers exactly these events, in order, each with its last usable id and its joined data;
    comments and further fields are passed over. The blank line behind the last event may be missing.
   */
  method StreamRoundTrip<J>(
      chunks: seq<string>, parse: string -> Option<J>, ghost events: seq<SentEvent>, ghost last: Option<SentEvent>)
    returns (items: seq<Item<J>>)
    requires (forall e :: e in events ==> Sendable(e)) && (last.Some? ==> Sendable(last.value))
    requires Flatten(chunks)
          == Encode(events) + if last.Some? then Join(EventLines(last.value), last.value.eol.Text()) else ""
    ensures items == AllReceived(events, parse) + if last.Some? then Received(last.value, parse) else []
  {
    hide Sendable, Encode, AllReceived, StreamItems, Flatten, Join, EventLines;
    if last.Some? {
      UnterminatedArrives(events, last.value, parse);
    } else {
      TextRoundTrip(events, parse);
      assert Encode(events) + "" == Encode(events) && AllReceived(events, parse) + [] == AllReceived(events, parse);
    }
    items := IterateSseDataJson(chunks, parse);
  }
}
