/** What the Anthropic consumer reads off the event-stream text that a server writes. */
module AnthropicWire {
  import opened Prelude
  import opened LineFraming
  import opened AnthropicBlocks
  import opened AnthropicTags
  import opened AnthropicUsage
  import opened AnthropicStream

  /** A line of a frame: data, or anything else (an `event:` line, a comment). The space behind `data:` is optional. */
  datatype Line = Data(value: string, spaced: bool) | Other(text: string)

  /** The lines up to a blank line. */
  datatype Frame = Frame(lines: seq<Line>)

  predicate SendableLine(l: Line)
  {
    match l
    case Data(value, _) =>
      '\n' !in value && (value != "" ==> !IsSpace(value[0]) && value[|value| - 1] != '\r')
    case Other(text) =>
      '\n' !in text && text != "" && text[|text| - 1] != '\r' && !("data:" <= text)
  }

  function DataOf(lines: seq<Line>): seq<string>
  {
    if lines == [] then [] else (if lines[0].Data? then [lines[0].value] else []) + DataOf(lines[1..])
  }

  /** A payload that is written over several data lines. */
  predicate IsCut(parse: Parser, f: Frame)
  {
    var data := DataOf(f.lines);
    |data| > 1 && Trim(Join(data, "\n")) != "" && parse(Join(data, "\n")).Some?
  }

  /** The first line of such a payload is no JSON by itself. */
  ghost predicate Sendable(parse: Parser, f: Frame)
  {
    (forall l :: l in f.lines ==> SendableLine(l)) &&
    (IsCut(parse, f) ==> LineByLine(parse, DataOf(f.lines)) == ([], true))
  }

  /** Payloads of separate lines, up to the first line that is no JSON, and whether there is one. */
  function LineByLine(parse: Parser, data: seq<string>): (seq<Payload>, bool)
  {
    if data == [] then ([], false)
    else if Trim(data[0]) == "" then LineByLine(parse, data[1..])
    else match parse(data[0])
      case None => ([], true)
      case Some(p) => var (rest, bad) := LineByLine(parse, data[1..]); ([p] + rest, bad)
  }

  /** The payloads a frame stands for. */
  function SentIn(parse: Parser, f: Frame): (seq<Payload>, bool)
  {
    var data := DataOf(f.lines);
    var whole := Join(data, "\n");
    if Trim(whole) == "" then ([], false)
    else match parse(whole)
      case Some(p) => ([p], false)
      case None => LineByLine(parse, data)
  }

  /** The payloads sent, up to the first frame that is no JSON, and whether there is one. */
  function Sent(parse: Parser, frames: seq<Frame>): (seq<Payload>, bool)
  {
    if frames == [] then ([], false)
    else
      var (first, broken) := SentIn(parse, frames[0]);
      if broken then (first, true)
      else var (rest, bad) := Sent(parse, frames[1..]); (first + rest, bad)
  }

  // ----- The text -----

  function Body(l: Line): string
  {
    match l
    case Data(value, spaced) => "data:" + (if spaced then " " + value else value)
    case Other(text) => text
  }

  function LineEnd(crlf: bool): string
  {
    if crlf then "\r" else ""
  }

  function Texts(lines: seq<Line>, crlf: bool): seq<string>
  {
    if lines == [] then [] else [Body(lines[0]) + LineEnd(crlf)] + Texts(lines[1..], crlf)
  }

  function WireLines(frames: seq<Frame>, crlf: bool): seq<string>
  {
    if frames == [] then [] else Texts(frames[0].lines, crlf) + [LineEnd(crlf)] + WireLines(frames[1..], crlf)
  }

  /** Frames with a blank line behind each, and a last one without; the very last line feed may be missing. */
  function Wire(frames: seq<Frame>, last: Frame, crlf: bool, lf: bool): string
  {
    var lines := WireLines(frames, crlf) + Texts(last.lines, crlf);
    if lf || lines == [] then Terminated(lines) else Terminated(lines[..|lines| - 1]) + lines[|lines| - 1]
  }

  lemma BodyIsLine(l: Line)
    requires SendableLine(l)
    ensures var b := Body(l); b != "" && b[|b| - 1] != '\r' && '\n' !in b
  {
    hide IsSpace;
    assert '\n' !in "data:" && '\n' !in " ";
    match l
    case Data(value, spaced) =>
      var rest := if spaced then " " + value else value;
      assert Body(l) == "data:" + rest;
      assert rest != "" ==> rest[|rest| - 1] != '\r';
    case Other(_) =>
  }

  lemma {:induction false} TextsAreLines(lines: seq<Line>, crlf: bool)
    requires forall l :: l in lines ==> SendableLine(l)
    ensures forall t :: t in Texts(lines, crlf) ==> '\n' !in t
  {
    hide SendableLine, Body;
    if lines != [] {
      BodyIsLine(lines[0]);
      TextsAreLines(lines[1..], crlf);
    }
  }

  lemma {:induction false} WireLinesAreLines(parse: Parser, frames: seq<Frame>, crlf: bool)
    requires forall f :: f in frames ==> Sendable(parse, f)
    ensures forall t :: t in WireLines(frames, crlf) ==> '\n' !in t
  {
    hide Texts, SendableLine;
    if frames != [] {
      assert Sendable(parse, frames[0]);
      TextsAreLines(frames[0].lines, crlf);
      WireLinesAreLines(parse, frames[1..], crlf);
    }
  }

  lemma TerminatedIsLines(lines: seq<string>)
    requires forall t :: t in lines ==> '\n' !in t
    ensures AllLines(Terminated(lines)) == lines
  {
    hide Lines, Unfinished, Terminated;
    TerminatedLines(lines);
    assert lines + [] == lines;
  }

  /** A last line that is not terminated counts as well unless it is blank. */
  lemma UnterminatedLast(lines: seq<string>, last: string)
    requires (forall t :: t in lines ==> '\n' !in t) && '\n' !in last
    ensures AllLines(Terminated(lines) + last) == if last == "" then lines else lines + [last]
  {
    hide Lines, Unfinished, Terminated;
    TerminatedLines(lines);
    LinesAppend(Terminated(lines), last);
    assert "" + last == last && lines + [] == lines;
    NoLineIn(last);
  }

  // ----- Lines are read as they were written -----

  function Kept(lines: seq<Line>): seq<string>
  {
    if lines == [] then [] else (if ":" <= Body(lines[0]) then [] else [Body(lines[0])]) + Kept(lines[1..])
  }

  lemma LineEndIsDropped(body: string, crlf: bool)
    requires body != "" ==> body[|body| - 1] != '\r'
    ensures DropCarriageReturn(body + LineEnd(crlf)) == body && DropCarriageReturn(body) == body
  {
    if crlf {
      assert (body + "\r")[..|body|] == body;
    } else {
      assert body + "" == body;
    }
  }

  lemma LineIsKept(o: Options, parse: Parser, r: Reader, l: Line, crlf: bool)
    requires SendableLine(l)
    ensures ReadLine(o, parse, r, Body(l) + LineEnd(crlf)) ==
      Ok(r.(eventLines := r.eventLines + if ":" <= Body(l) then [] else [Body(l)]))
  {
    hide SendableLine, Body, LineEnd, DropCarriageReturn, HandleFrame;
    BodyIsLine(l);
    LineEndIsDropped(Body(l), crlf);
    assert r.eventLines + [] == r.eventLines;
  }

  lemma {:induction false} LinesAreKept(o: Options, parse: Parser, r: Reader, lines: seq<Line>, crlf: bool)
    requires forall l :: l in lines ==> SendableLine(l)
    ensures ReadLines(o, parse, r, Texts(lines, crlf)) == Ok(r.(eventLines := r.eventLines + Kept(lines)))
    decreases |lines|
  {
    hide SendableLine, Body, LineEnd, ReadLine;
    if lines == [] {
      assert r.eventLines + [] == r.eventLines;
    } else {
      LineIsKept(o, parse, r, lines[0], crlf);
      var first := if ":" <= Body(lines[0]) then [] else [Body(lines[0])];
      var next := r.(eventLines := r.eventLines + first);
      assert Texts(lines, crlf)[1..] == Texts(lines[1..], crlf);
      LinesAreKept(o, parse, next, lines[1..], crlf);
      Associate(r.eventLines, first, Kept(lines[1..]));
    }
  }

  /** The reader behind a blank line. */
  function FrameEnds(r: Result<Progress>): Result<Reader>
  {
    match r
    case Fail(error) => Fail(error)
    case Ok(next) => Ok(Reader(next, []))
  }

  function ReadMore(o: Options, parse: Parser, r: Result<Reader>, lines: seq<string>): Result<Reader>
  {
    match r
    case Fail(error) => Fail(error)
    case Ok(next) => ReadLines(o, parse, next, lines)
  }

  lemma BlankIsRead(o: Options, parse: Parser, r: Reader, crlf: bool)
    ensures ReadLines(o, parse, r, [LineEnd(crlf)]) ==
      FrameEnds(HandleFrame(o, parse, r.progress, r.eventLines))
  {
    hide HandleFrame;
    ReadLinesOne(o, parse, r, LineEnd(crlf));
  }

  lemma BodyIsWhole(l: Line)
    requires SendableLine(l)
    ensures DropCarriageReturn(Body(l)) == Body(l)
  {
    hide DropCarriageReturn, Body, SendableLine;
    BodyIsLine(l);
    LineEndIsDropped(Body(l), false);
  }

  lemma DataIsFound(l: Line)
    requires SendableLine(l) && l.Data?
    ensures "data:" <= Body(l) && TrimStart(Body(l)[5..]) == l.value && !(":" <= Body(l))
  {
    hide TrimStart, IsSpace;
    var rest := if l.spaced then " " + l.value else l.value;
    assert Body(l)[..5] == "data:" && Body(l)[5..] == rest && Body(l)[0] == 'd';
    StartIsTrimmed(l.value);
  }

  lemma OtherIsNoData(l: Line)
    requires SendableLine(l) && l.Other?
    ensures !("data:" <= Body(l))
  {
  }

  lemma StartIsTrimmed(s: string)
    requires s != "" ==> !IsSpace(s[0])
    ensures TrimStart(s) == s && TrimStart(" " + s) == s
  {
    assert (" " + s)[1..] == s;
  }

  lemma {:induction false} DataIsKept(lines: seq<Line>)
    requires forall l :: l in lines ==> SendableLine(l)
    ensures DataParts(Kept(lines)) == DataOf(lines)
  {
    hide SendableLine, Body, TrimStart, DropCarriageReturn;
    if lines != [] {
      var l := lines[0];
      BodyIsWhole(l);
      DataIsKept(lines[1..]);
      if l.Data? {
        DataIsFound(l);
      } else {
        OtherIsNoData(l);
      }
      if !(":" <= Body(l)) {
        assert Kept(lines)[0] == Body(l) && Kept(lines)[1..] == Kept(lines[1..]);
      } else {
        assert Kept(lines) == [] + Kept(lines[1..]) == Kept(lines[1..]);
      }
    }
  }

  // ----- Frames are handled as their payloads -----

  function HandlePayloads(o: Options, s: Progress, payloads: seq<Payload>): Result<Progress>
    decreases |payloads|
  {
    if payloads == [] then Ok(s)
    else match HandlePayload(o, s, payloads[0])
      case Fail(error) => Fail(error)
      case Ok(next) => HandlePayloads(o, next, payloads[1..])
  }

  /** Handled without a failure up to text that is no JSON. */
  function Ended(r: Result<Progress>, bad: bool): Result<Progress>
  {
    if r.Ok? && bad then Fail(MalformedJson) else r
  }

  lemma {:induction false} HandlePayloadsAppend(o: Options, s: Progress, a: seq<Payload>, b: seq<Payload>)
    ensures HandlePayloads(o, s, a + b) ==
      match HandlePayloads(o, s, a) case Fail(error) => Fail(error) case Ok(mid) => HandlePayloads(o, mid, b)
    decreases |a|
  {
    hide HandlePayload;
    if a == [] {
      assert a + b == b;
    } else {
      assert (a + b)[1..] == a[1..] + b;
      if HandlePayload(o, s, a[0]).Ok? {
        HandlePayloadsAppend(o, HandlePayload(o, s, a[0]).value, a[1..], b);
      }
    }
  }

  lemma {:induction false} PartsAreHandled(o: Options, parse: Parser, s: Progress, data: seq<string>)
    ensures
      var (payloads, bad) := LineByLine(parse, data);
      HandleParts(o, parse, s, data) == Ended(HandlePayloads(o, s, payloads), bad)
    decreases |data|
  {
    hide HandlePayload, Trim;
    if data != [] {
      if Trim(data[0]) == "" {
        PartsAreHandled(o, parse, s, data[1..]);
      } else if parse(data[0]).Some? {
        var p := parse(data[0]).value;
        var (rest, bad) := LineByLine(parse, data[1..]);
        assert ([p] + rest)[1..] == rest;
        if HandlePayload(o, s, p).Ok? {
          PartsAreHandled(o, parse, HandlePayload(o, s, p).value, data[1..]);
        }
      }
    }
  }

  /** A payload cut over lines that is refused is tried line by line, and reported as no JSON. */
  lemma FrameIsHandled(o: Options, parse: Parser, s: Progress, f: Frame)
    requires Sendable(parse, f)
    ensures
      var (payloads, bad) := SentIn(parse, f);
      var whole := Ended(HandlePayloads(o, s, payloads), bad);
      HandleFrame(o, parse, s, Kept(f.lines)) ==
        if whole.Fail? && IsCut(parse, f) then Fail(MalformedJson) else whole
  {
    hide HandlePayload, Trim, DataParts, SendableLine, DataOf, Kept;
    var data := DataOf(f.lines);
    DataIsKept(f.lines);
    PartsAreHandled(o, parse, s, data);
    if |data| == 1 {
      assert Join(data, "\n") == data[0];
      assert data[1..] == [];
    } else if data == [] {
      BlankText();
    }
  }

  lemma BlankText()
    ensures Trim("") == ""
  {
  }

  lemma WireCons(frames: seq<Frame>, last: Frame, crlf: bool)
    requires frames != []
    ensures WireLines(frames, crlf) + Texts(last.lines, crlf) ==
      Texts(frames[0].lines, crlf) + ([LineEnd(crlf)] + (WireLines(frames[1..], crlf) + Texts(last.lines, crlf)))
    ensures frames + [last] == [frames[0]] + (frames[1..] + [last])
  {
    hide Texts, LineEnd;
    var first, blank, rest := Texts(frames[0].lines, crlf), [LineEnd(crlf)], WireLines(frames[1..], crlf);
    var end := Texts(last.lines, crlf);
    Associate(first + blank, rest, end);
    Associate(first, blank, rest + end);
    assert frames + [last] == [frames[0]] + (frames[1..] + [last]);
  }

  lemma FrameIsRead(o: Options, parse: Parser, s: Progress, f: Frame, crlf: bool, more: seq<string>)
    requires Sendable(parse, f)
    ensures ReadLines(o, parse, Reader(s, []), Texts(f.lines, crlf) + ([LineEnd(crlf)] + more)) ==
      ReadMore(o, parse, FrameEnds(HandleFrame(o, parse, s, Kept(f.lines))), more)
  {
    hide HandleFrame, SendableLine, Texts, Kept, ReadLines, LineEnd;
    LinesAreKept(o, parse, Reader(s, []), f.lines, crlf);
    ReadLinesAppend(o, parse, Reader(s, []), Texts(f.lines, crlf), [LineEnd(crlf)] + more);
    var r := Reader(s, [] + Kept(f.lines));
    assert [] + Kept(f.lines) == Kept(f.lines);
    ReadLinesAppend(o, parse, r, [LineEnd(crlf)], more);
    BlankIsRead(o, parse, r, crlf);
  }

  /** Reading lines up to the end of the stream, where a frame without a blank line behind it is handled as well. */
  function ReadToEnd(o: Options, parse: Parser, r: Reader, lines: seq<string>): Result<Progress>
  {
    match ReadLines(o, parse, r, lines)
    case Fail(error) => Fail(error)
    case Ok(end) => HandleFrame(o, parse, end.progress, end.eventLines)
  }

  ghost predicate SomeCut(parse: Parser, frames: seq<Frame>)
  {
    exists f :: f in frames && IsCut(parse, f)
  }

  /** What is read is what was sent; where a refused payload was cut over lines the failure reads as malformed JSON. */
  ghost predicate SameUpToCuts(parse: Parser, frames: seq<Frame>, a: Result<Progress>, b: Result<Progress>)
  {
    a == b || (a == Fail(MalformedJson) && b.Fail? && SomeCut(parse, frames))
  }

  lemma {:induction false} FramesAreRead(
    o: Options, parse: Parser, s: Progress, frames: seq<Frame>, last: Frame, crlf: bool)
    requires forall f :: f in frames + [last] ==> Sendable(parse, f)
    ensures
      var (payloads, bad) := Sent(parse, frames + [last]);
      SameUpToCuts(parse, frames + [last],
        ReadToEnd(o, parse, Reader(s, []), WireLines(frames, crlf) + Texts(last.lines, crlf)),
        Ended(HandlePayloads(o, s, payloads), bad))
    decreases |frames|
  {
    hide HandleFrame, SendableLine, Texts, Kept, ReadLines, HandlePayloads, SentIn, IsCut, LineEnd;
    var all := frames + [last];
    var f := all[0];
    assert f in all;
    FrameIsHandled(o, parse, s, f);
    var (first, broken) := SentIn(parse, f);
    var (rest, bad) := Sent(parse, all[1..]);
    HandlePayloadsAppend(o, s, first, rest);
    if frames == [] {
      assert all[1..] == [] && first + [] == first;
      assert WireLines(frames, crlf) + Texts(last.lines, crlf) == Texts(last.lines, crlf);
      LinesAreKept(o, parse, Reader(s, []), last.lines, crlf);
      assert [] + Kept(last.lines) == Kept(last.lines);
    } else {
      WireCons(frames, last, crlf);
      assert all[1..] == frames[1..] + [last];
      FrameIsRead(o, parse, s, f, crlf, WireLines(frames[1..], crlf) + Texts(last.lines, crlf));
      var next := HandleFrame(o, parse, s, Kept(f.lines));
      if next.Ok? {
        FramesAreRead(o, parse, next.value, frames[1..], last, crlf);
      }
    }
  }

  // ----- The whole stream -----

  function Events(payloads: seq<Payload>): (events: seq<WireEvent>)
    ensures |events| == |payloads|
  {
    if payloads == [] then [] else [payloads[0].event] + Events(payloads[1..])
  }

  /** Progress is the progress of the tagged state and of the meter, side by side. */
  lemma {:induction false} PayloadsAreEvents(o: Options, s: Progress, payloads: seq<Payload>)
    ensures HandlePayloads(o, s, payloads) ==
      match HandleAllTagged(o, s.tagged, Events(payloads))
      case Fail(error) => Fail(error)
      case Ok(end) => Ok(Progress(end, MeasuredAll(s.meter, payloads)))
    decreases |payloads|
  {
    hide HandleTagged, Measured;
    if payloads != [] {
      assert Events(payloads)[1..] == Events(payloads[1..]);
      if HandleTagged(o, s.tagged, payloads[0].event).Ok? {
        PayloadsAreEvents(o, HandlePayload(o, s, payloads[0]).value, payloads[1..]);
      }
    }
  }

  lemma BlankAtEnd(o: Options, parse: Parser, r: Reader, lines: seq<string>)
    ensures ReadToEnd(o, parse, r, lines + [""]) == ReadToEnd(o, parse, r, lines)
  {
    hide HandleFrame, ReadLines;
    ReadLinesAppend(o, parse, r, lines, [""]);
    var mid := ReadLines(o, parse, r, lines);
    if mid.Ok? {
      BlankIsRead(o, parse, mid.value, false);
      var next := HandleFrame(o, parse, mid.value.progress, mid.value.eventLines);
      if next.Ok? {
        NoFrame(o, parse, next.value);
      }
    }
  }

  lemma WireIsRead(o: Options, parse: Parser, frames: seq<Frame>, last: Frame, crlf: bool, lf: bool)
    requires forall f :: f in frames + [last] ==> Sendable(parse, f)
    ensures Consume(o, parse, Wire(frames, last, crlf, lf)) ==
      match ReadToEnd(o, parse, Reader(NO_PROGRESS, []), WireLines(frames, crlf) + Texts(last.lines, crlf))
      case Fail(error) => Fail(error)
      case Ok(end) => Replied(o, end)
  {
    hide HandleFrame, ReadLines, Replied, WireLines, Texts, SendableLine, AllLines, Terminated, IsCut;
    var lines := WireLines(frames, crlf) + Texts(last.lines, crlf);
    assert forall f :: f in frames ==> f in frames + [last];
    assert last in frames + [last];
    WireLinesAreLines(parse, frames, crlf);
    TextsAreLines(last.lines, crlf);
    if lines == [] {
      NoLines();
    } else {
      var n := |lines| - 1;
      assert lines[..n] + [lines[n]] == lines;
      TerminatedIsLines(lines);
      UnterminatedLast(lines[..n], lines[n]);
      if lines[n] == "" {
        BlankAtEnd(o, parse, Reader(NO_PROGRESS, []), lines[..n]);
      }
    }
  }

  lemma NoLines()
    ensures AllLines(Terminated([])) == []
  {
  }

  /**
    Main result: reading what the server wrote is handling the payloads sent, in order, up to the first text that is no
    JSON. A failure keeps its name unless a payload was cut over several data lines.
   */
  lemma ConsumeWire(o: Options, parse: Parser, frames: seq<Frame>, last: Frame, crlf: bool, lf: bool)
    requires forall f :: f in frames + [last] ==> Sendable(parse, f)
    ensures
      var (payloads, bad) := Sent(parse, frames + [last]);
      var meter := MeasuredAll(UNMEASURED, payloads);
      var result := Consume(o, parse, Wire(frames, last, crlf, lf));
      var outcome := OutcomeTagged(o, Events(payloads));
      (result.Ok? <==> !bad && outcome.Ok?) &&
      (result.Ok? ==> result.value == Reply(outcome.value, ToModelUsage(meter.usage), meter.stopReason)) &&
      (result.Fail? && !SomeCut(parse, frames + [last]) ==>
        result.error ==
          if bad && HandleAllTagged(o, NONE, Events(payloads)).Ok? then MalformedJson else outcome.error)
  {
    hide HandleFrame, ReadLines, WireLines, Texts, IsCut, Sent, FinishTagged, HandleAllTagged, MeasuredAll,
      ToModelUsage, Wire, Consume, ReadToEnd, HandlePayloads, SomeCut, Sendable;
    var (payloads, bad) := Sent(parse, frames + [last]);
    WireIsRead(o, parse, frames, last, crlf, lf);
    FramesAreRead(o, parse, NO_PROGRESS, frames, last, crlf);
    PayloadsAreEvents(o, NO_PROGRESS, payloads);
  }
}
