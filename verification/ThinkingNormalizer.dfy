/** Streaming removal of `<thinking>` / `<think>` blocks, and the batch removal it is meant to agree with. */
module ThinkingNormalizer {
  import opened Prelude

  // ----- Tags -----

  const MAX_TAG_LEN: nat := 11

  predicate IsOpenTag(s: string)
  {
    s == "<thinking>" || s == "<think>"
  }

  predicate IsCloseTag(s: string)
  {
    s == "</thinking>" || s == "</think>"
  }

  predicate IsTag(s: string)
  {
    IsOpenTag(s) || IsCloseTag(s)
  }

  /** Some tag starts with `s`. */
  predicate CouldBeTag(s: string)
  {
    s <= "<thinking>" || s <= "<think>" || s <= "</thinking>" || s <= "</think>"
  }

  lemma TagShape(t: string)
    requires IsTag(t)
    ensures 7 <= |t| <= MAX_TAG_LEN && t[0] == '<' && t[|t| - 1] == '>'
    ensures forall i :: 1 <= i < |t| ==> t[i] != '<'
    ensures CouldBeTag(t) && !(IsOpenTag(t) && IsCloseTag(t))
  {
  }

  lemma CouldBeTagShape(s: string)
    requires CouldBeTag(s)
    ensures |s| <= MAX_TAG_LEN && (|s| == MAX_TAG_LEN ==> IsTag(s))
    ensures forall i :: 0 <= i < |s| && s[i] == '>' ==> i == |s| - 1 && IsTag(s)
    ensures s != "" ==> s[0] == '<' && forall i :: 1 <= i < |s| ==> s[i] != '<'
  {
  }

  lemma CouldBeTagPrefix(s: string, t: string)
    requires s <= t && CouldBeTag(t)
    ensures CouldBeTag(s)
  {
  }

  /** No tag is a proper prefix of anything that still could become a tag. */
  lemma TagsArePrefixFree(t: string, u: string)
    requires IsTag(t) && t <= u && CouldBeTag(u)
    ensures t == u
  {
    assert u[|t| - 1] == '>';
  }

  // ----- The character machine -----

  datatype Mode = Text | BufferingTag | InThinking

  /** What the normalizer remembers between two characters. */
  datatype Norm = Norm(mode: Mode, buffer: string, thinking: string)

  const START: Norm := Norm(Text, "", "")

  /** What consuming input produced: visible text, and the thinking blocks completed, in order. */
  datatype Output = Output(text: string, reports: seq<string>)

  function Then(a: Output, b: Output): Output
  {
    Output(a.text + b.text, a.reports + b.reports)
  }

  lemma ThenLaws(a: Output, b: Output, c: Output)
    ensures Then(Then(a, b), c) == Then(a, Then(b, c))
    ensures Then(Output("", []), a) == a == Then(a, Output("", []))
  {
    assert (a.text + b.text) + c.text == a.text + (b.text + c.text);
    assert (a.reports + b.reports) + c.reports == a.reports + (b.reports + c.reports);
    assert "" + a.text == a.text == a.text + "";
    assert [] + a.reports == a.reports == a.reports + [];
  }

  /** The buffer is empty or a proper prefix of a tag. */
  predicate ValidNorm(st: Norm)
  {
    && (st.mode == BufferingTag <==> st.buffer != "")
    && (st.buffer != "" ==> CouldBeTag(st.buffer) && !IsTag(st.buffer))
  }

  function Feed(st: Norm, c: char): (Norm, Output)
  {
    match st.mode
    case Text =>
      if c == '<' then (st.(mode := BufferingTag, buffer := "<"), Output("", []))
      else (st, Output([c], []))
    case InThinking =>
      if c == '<' then (st.(mode := BufferingTag, buffer := "<"), Output("", []))
      else (st.(thinking := st.thinking + [c]), Output("", []))
    case BufferingTag =>
      var buffer := st.buffer + [c];
      if IsOpenTag(buffer) then (st.(mode := InThinking, buffer := ""), Output("", []))
      else if IsCloseTag(buffer) then
        (Norm(Text, "", ""), Output("", if st.thinking == "" then [] else [st.thinking]))
      else if !CouldBeTag(buffer) || |buffer| >= MAX_TAG_LEN then
        (st.(mode := Text, buffer := ""), Output(buffer, []))
      else (st.(buffer := buffer), Output("", []))
  }

  function Run(st: Norm, s: string): (Norm, Output)
    decreases |s|
  {
    if s == "" then (st, Output("", []))
    else
      var (mid, first) := Feed(st, s[0]);
      var (end, rest) := Run(mid, s[1..]);
      (end, Then(first, rest))
  }

  lemma FeedValid(st: Norm, c: char)
    requires ValidNorm(st)
    ensures ValidNorm(Feed(st, c).0)
    ensures forall r :: r in Feed(st, c).1.reports ==> r != ""
  {
    if st.mode == BufferingTag && CouldBeTag(st.buffer + [c]) {
      CouldBeTagShape(st.buffer + [c]);
    }
  }

  /** Every reachable buffer is a proper tag prefix, and no empty thinking block is ever reported. */
  lemma {:induction false} RunValid(st: Norm, s: string)
    requires ValidNorm(st)
    ensures ValidNorm(Run(st, s).0)
    ensures forall r :: r in Run(st, s).1.reports ==> r != ""
    decreases |s|
  {
    if s != "" {
      FeedValid(st, s[0]);
      RunValid(Feed(st, s[0]).0, s[1..]);
    }
  }

  lemma {:induction false} RunAppend(st: Norm, a: string, b: string)
    ensures Run(st, a + b) == (Run(Run(st, a).0, b).0, Then(Run(st, a).1, Run(Run(st, a).0, b).1))
    decreases |a|
  {
    if a == "" {
      assert a + b == b;
      ThenLaws(Run(st, b).1, Run(st, b).1, Run(st, b).1);
    } else {
      var (mid, first) := Feed(st, a[0]);
      RunAppend(mid, a[1..], b);
      assert (a + b)[1..] == a[1..] + b;
      ThenLaws(first, Run(mid, a[1..]).1, Run(Run(mid, a[1..]).0, b).1);
    }
  }

  // ----- The imperative normalizer -----

  class ThinkingStreamNormalizer {
    var state: Mode
    var buffer: string
    var thinkingContent: seq<string>
    var textContent: seq<string>

    /** Between two calls all text has been handed out, and no empty piece is stored. */
    ghost predicate Valid()
      reads this
    {
      textContent == [] && Pieces(thinkingContent) && ValidNorm(Model())
    }

    ghost function Model(): Norm
      reads this
    {
      Norm(state, buffer, Flatten(thinkingContent))
    }

    constructor ()
      ensures Valid() && Model() == START
    {
      state, buffer, thinkingContent, textContent := Text, "", [], [];
    }

    /** One turn of the loop: the switch on the current state. */
    method ConsumeChar(c: char) returns (closed: Option<string>)
      requires Pieces(thinkingContent) && Pieces(textContent) && ValidNorm(Model())
      modifies this
      ensures Pieces(thinkingContent) && Pieces(textContent)
      ensures Model() == Feed(old(Model()), c).0
      ensures Flatten(textContent) == old(Flatten(textContent)) + Feed(old(Model()), c).1.text
      ensures closed == LastReport(Feed(old(Model()), c).1.reports)
    {
      closed := None;
      match state {
        case Text =>
          if c == '<' {
            state, buffer := BufferingTag, "<";
          } else {
            FlattenSnoc(textContent, [c]);
            textContent := textContent + [[c]];
          }
        case BufferingTag =>
          buffer := buffer + [c];
          if IsOpenTag(buffer) {
            state, buffer := InThinking, "";
          } else if IsCloseTag(buffer) {
            state, buffer := Text, "";
            PiecesFlatten(thinkingContent);
            if |thinkingContent| > 0 {
              closed := Some(Flatten(thinkingContent));
              thinkingContent := [];
            }
          } else if !CouldBeTag(buffer) || |buffer| >= MAX_TAG_LEN {
            FlattenSnoc(textContent, buffer);
            textContent := textContent + [buffer];
            state, buffer := Text, "";
          }
        case InThinking =>
          if c == '<' {
            state, buffer := BufferingTag, "<";
          } else {
            FlattenSnoc(thinkingContent, [c]);
            thinkingContent := thinkingContent + [[c]];
          }
      }
    }

    method ProcessChunk(chunk: string) returns (thinking: Option<string>, text: Option<string>)
      requires Valid()
      modifies this
      ensures Valid()
      ensures Model() == Run(old(Model()), chunk).0
      ensures text == NonEmpty(Run(old(Model()), chunk).1.text)
      ensures thinking == LastReport(Run(old(Model()), chunk).1.reports)
    {
      hide Run, Feed, LastReport, ValidNorm, Flatten, Pieces;
      thinking := None;
      var i := 0;
      ghost var reports := [];
      NoPieces();
      NothingYet(Model(), chunk);
      while i < |chunk|
        invariant 0 <= i <= |chunk|
        invariant Pieces(thinkingContent) && Pieces(textContent) && ValidNorm(Model())
        invariant Run(old(Model()), chunk[..i]) == (Model(), Output(Flatten(textContent), reports))
        invariant thinking == LastReport(reports)
      {
        RunSnoc(old(Model()), chunk, i);
        FeedValid(Model(), chunk[i]);
        LastReportAppend(reports, Feed(Model(), chunk[i]).1.reports);
        reports := reports + Feed(Model(), chunk[i]).1.reports;
        var closed := ConsumeChar(chunk[i]);
        if closed.Some? {
          thinking := closed;
        }
        i := i + 1;
      }
      assert chunk[..i] == chunk;
      PiecesFlatten(textContent);
      text := None;
      if |textContent| > 0 {
        text := Some(Flatten(textContent));
        textContent := [];
        NoPieces();
      }
    }

    method Flush() returns (thinking: Option<string>, text: Option<string>)
      requires Valid()
      modifies this
      ensures Valid() && Model() == START
      ensures text == NonEmpty(old(buffer))
      ensures thinking == NonEmpty(old(Model()).thinking)
    {
      thinking, text := None, None;
      FlattenSnoc<char>([], buffer);
      assert "" + buffer == buffer;
      if buffer != "" {
        if state == InThinking {
          assert false;  // a buffer is only kept while a tag is being read
        } else {
          FlattenSnoc(textContent, buffer);
          textContent := textContent + [buffer];
        }
        buffer := "";
      }
      PiecesFlatten(thinkingContent);
      if |thinkingContent| > 0 {
        thinking := Some(Flatten(thinkingContent));
        thinkingContent := [];
      }
      if |textContent| > 0 {
        text := Some(Flatten(textContent));
        textContent := [];
      }
      state := Text;
    }
  }

  ghost predicate Pieces(parts: seq<string>)
  {
    forall p :: p in parts ==> p != ""
  }

  lemma PiecesFlatten(parts: seq<string>)
    requires Pieces(parts)
    ensures Flatten(parts) == "" <==> parts == []
  {
    if parts != [] {
      assert parts[0] in parts;
    }
  }

  function LastReport(reports: seq<string>): Option<string>
  {
    if reports == [] then None else Some(reports[|reports| - 1])
  }

  lemma LastReportAppend(reports: seq<string>, more: seq<string>)
    ensures LastReport(reports + more) == if LastReport(more).Some? then LastReport(more) else LastReport(reports)
  {
    if more == [] {
      assert reports + more == reports;
    }
  }

  lemma NoPieces()
    ensures Pieces([]) && Flatten<char>([]) == "" && LastReport([]) == None
  {
  }

  lemma NothingYet(st: Norm, chunk: string)
    ensures Run(st, chunk[..0]) == (st, Output("", [])) && LastReport([]) == None && Flatten<char>([]) == ""
  {
  }

  lemma RunSnoc(st: Norm, s: string, i: nat)
    requires i < |s|
    ensures Run(st, s[..i + 1]).0 == Feed(Run(st, s[..i]).0, s[i]).0
    ensures Run(st, s[..i + 1]).1 == Then(Run(st, s[..i]).1, Feed(Run(st, s[..i]).0, s[i]).1)
  {
    assert s[..i + 1] == s[..i] + [s[i]];
    RunAppend(st, s[..i], [s[i]]);
    RunOne(Run(st, s[..i]).0, s[i]);
  }

  lemma RunOne(st: Norm, c: char)
    ensures Run(st, [c]) == Feed(st, c)
  {
    var (next, out) := Feed(st, c);
    assert [c][1..] == "";
    ThenLaws(out, out, out);
  }
}
