/** Where thinking blocks end in the input, and which chunkings therefore deliver all of the thinking. */
module ThinkingReports {
  import opened Prelude
  import opened ThinkingNormalizer
  import opened ThinkingTokens
  import opened ThinkingStream

  // ----- Block ends -----

  /**
    Positions behind the close tags that end some thinking: at least one character was thought since the previous
    close tag. `at` is the position of the first token, `thought` tells what was thought before it.
   */
  function BlockEnds(ts: seq<Token>, at: nat, thought: bool): seq<nat>
    decreases |ts|
  {
    if ts == [] then []
    else
      match ts[0]
      case Plain(text) => BlockEnds(ts[1..], at + |text|, thought)
      case Thought(_) => BlockEnds(ts[1..], at + 1, true)
      case Tag(tag) =>
        if IsCloseTag(tag) then
          (if thought then [at + |tag|] else []) + BlockEnds(ts[1..], at + |tag|, false)
        else BlockEnds(ts[1..], at + |tag|, thought)
  }

  /** Where the thinking blocks of a whole text end. */
  function EndsOf(s: string): seq<nat>
  {
    BlockEnds(Tokens(s, false), 0, false)
  }

  ghost predicate Rising(ends: seq<nat>)
  {
    forall i, j :: 0 <= i < j < |ends| ==> ends[i] < ends[j]
  }

  /** How many of rising positions are not behind `x`. */
  function UpTo(ends: seq<nat>, x: nat): (n: nat)
    ensures n <= |ends|
  {
    if ends == [] || ends[0] > x then 0 else 1 + UpTo(ends[1..], x)
  }

  lemma {:induction false} UpToSplits(ends: seq<nat>, x: nat)
    requires Rising(ends)
    ensures forall i :: 0 <= i < |ends| ==> (ends[i] <= x <==> i < UpTo(ends, x))
    decreases |ends|
  {
    if ends != [] && ends[0] <= x {
      UpToSplits(ends[1..], x);
      forall i | 0 <= i < |ends| ensures ends[i] <= x <==> i < UpTo(ends, x) {
        if i > 0 {
          assert ends[1..][i - 1] == ends[i];
        }
      }
    }
  }

  lemma {:induction false} EndsRise(ts: seq<Token>, at: nat, thought: bool)
    requires forall t :: t in ts && t.Tag? ==> t.tag != ""
    ensures Rising(BlockEnds(ts, at, thought))
    ensures forall i :: 0 <= i < |BlockEnds(ts, at, thought)| ==> at < BlockEnds(ts, at, thought)[i]
    decreases |ts|
  {
    hide IsCloseTag;
    if ts != [] {
      assert ts[0] in ts;
      match ts[0]
      case Plain(text) => EndsRise(ts[1..], at + |text|, thought);
      case Thought(_) => EndsRise(ts[1..], at + 1, true);
      case Tag(tag) => EndsRise(ts[1..], at + |tag|, if IsCloseTag(tag) then false else thought);
    }
  }

  lemma NothingInFront<T>(xs: seq<T>)
    ensures [] + xs == xs
  {
  }

  /** Moving a text moves its block ends. */
  lemma {:induction false} EndsMove(ts: seq<Token>, at: nat, shift: nat, thought: bool, x: nat)
    ensures UpTo(BlockEnds(ts, at + shift, thought), x + shift) == UpTo(BlockEnds(ts, at, thought), x)
    decreases |ts|
  {
    hide IsCloseTag;
    if ts != [] {
      match ts[0]
      case Plain(text) => EndsMove(ts[1..], at + |text|, shift, thought, x);
      case Thought(_) => EndsMove(ts[1..], at + 1, shift, true, x);
      case Tag(tag) =>
        EndsMove(ts[1..], at + |tag|, shift, if IsCloseTag(tag) then false else thought, x);
        if IsCloseTag(tag) && thought {
          ConsTail(at + |tag|, BlockEnds(ts[1..], at + |tag|, false));
          ConsTail(at + shift + |tag|, BlockEnds(ts[1..], at + shift + |tag|, false));
        } else if IsCloseTag(tag) {
          NothingInFront(BlockEnds(ts[1..], at + |tag|, false));
          NothingInFront(BlockEnds(ts[1..], at + shift + |tag|, false));
        }
    }
  }

  // ----- The machine reports exactly at block ends -----

  /** Reports of the machine on the first `i` characters are as many as block ends among them. */
  ghost predicate ReportsAtEnds(mode: Mode, thinking: string, s: string, i: nat)
    requires i <= |s|
  {
    |Run(Norm(mode, "", thinking), s[..i]).1.reports|
      == UpTo(BlockEnds(Tokens(s, mode == InThinking), 0, thinking != ""), i)
  }

  /** One token read, and the rest reported rightly. */
  lemma AfterToken(mode: Mode, thinking: string, s: string, n: nat, i: nat, token: Token, next: Norm,
      reports: seq<string>)
    requires 1 <= n <= i <= |s| && next.mode != BufferingTag && next.buffer == ""
    requires Run(Norm(mode, "", thinking), s[..n]).0 == next &&
      Run(Norm(mode, "", thinking), s[..n]).1.reports == reports
    requires Tokens(s, mode == InThinking) == [token] + Tokens(s[n..], next.mode == InThinking)
    requires ReportsAtEnds(next.mode, next.thinking, s[n..], i - n)
    requires BlockEnds(Tokens(s, mode == InThinking), 0, thinking != "")
      == (if reports == [] then [] else [n]) +
         BlockEnds(Tokens(s[n..], next.mode == InThinking), n, next.thinking != "")
    requires |reports| <= 1
    ensures ReportsAtEnds(mode, thinking, s, i)
  {
    hide Run, Tokens, BlockEnds;
    var st, rest := Norm(mode, "", thinking), s[n..];
    SplitAround(s[..i], n);
    TakeInner(s, n, i);
    RunAppend(st, s[..n], rest[..i - n]);
    var ends := BlockEnds(Tokens(rest, next.mode == InThinking), n, next.thinking != "");
    EndsMove(Tokens(rest, next.mode == InThinking), 0, n, next.thinking != "", i - n);
    if reports != [] {
      ConsTail(n, ends);
    } else {
      assert [] + ends == ends;
    }
  }

  lemma TakeInner<T>(s: seq<T>, n: nat, i: nat)
    requires n <= i <= |s|
    ensures s[..i][..n] == s[..n] && s[..i][n..] == s[n..][..i - n]
  {
  }

  /** While the head of the text may still become a tag nothing is reported. */
  lemma BufferedHead(mode: Mode, thinking: string, p: string)
    requires mode != BufferingTag && (p != "" ==> p[0] == '<') && CouldBeTag(p) && !IsTag(p)
    ensures Run(Norm(mode, "", thinking), p).1.reports == []
  {
    hide CouldBeTag, IsTag;
    if p != "" {
      assert p == "<" + p[1..];
      BufferGrows(Norm(BufferingTag, "<", thinking), p[1..]);
    }
  }

  /** Before the end of the first token there is no block end. */
  lemma InsideToken(mode: Mode, thinking: string, s: string, i: nat, token: Token, rest: seq<Token>)
    requires i <= |s| && Tokens(s, mode == InThinking) == [token] + rest
    requires i < |Spelling(token)| || (token.Plain? && rest == [])
    requires Run(Norm(mode, "", thinking), s[..i]).1.reports == []
    requires forall t :: t in [token] + rest && t.Tag? ==> t.tag != ""
    ensures ReportsAtEnds(mode, thinking, s, i)
  {
    hide Run, Tokens;
    ConsTail(token, rest);
    var ends := BlockEnds([token] + rest, 0, thinking != "");
    match token
    case Plain(text) => EndsRise(rest, |text|, thinking != "");
    case Thought(_) => EndsRise(rest, 1, true);
    case Tag(tag) => EndsRise(rest, |tag|, if IsCloseTag(tag) then false else thinking != "");
    assert forall j :: 0 <= j < |ends| ==> ends[j] > i;
  }

  lemma TokensHaveTags(s: string, thinking: bool)
    ensures forall t :: t in Tokens(s, thinking) && t.Tag? ==> t.tag != ""
  {
    TokensAreLossless(s, thinking);
  }

  lemma EndsOfCharacter(c: char, thinking: bool, rest: seq<Token>, thought: bool)
    ensures BlockEnds([if thinking then Thought(c) else Plain([c])] + rest, 0, thought)
         == [] + BlockEnds(rest, 1, thinking || thought)
  {
    ConsTail(if thinking then Thought(c) else Plain([c]), rest);
  }

  lemma ReportsCharacter(mode: Mode, thinking: string, s: string, i: nat)
    requires mode != BufferingTag && s != "" && s[0] != '<' && 1 <= i <= |s|
    requires ReportsAtEnds(mode, Feed(Norm(mode, "", thinking), s[0]).0.thinking, s[1..], i - 1)
    ensures ReportsAtEnds(mode, thinking, s, i)
  {
    hide Run, BlockEnds, TagAt, TagPrefixLength, ReportsAtEnds;
    var st := Norm(mode, "", thinking);
    RunOne(st, s[0]);
    assert s[..1] == [s[0]];
    EndsOfCharacter(s[0], mode == InThinking, Tokens(s[1..], mode == InThinking), thinking != "");
    AfterToken(mode, thinking, s, 1, i, if mode == InThinking then Thought(s[0]) else Plain([s[0]]),
      Feed(st, s[0]).0, []);
  }

  lemma EndsOfTag(t: string, rest: seq<Token>, thought: bool)
    requires IsTag(t)
    ensures BlockEnds([Tag(t)] + rest, 0, thought)
         == (if IsCloseTag(t) && thought then [|t|] else []) + BlockEnds(rest, |t|, IsOpenTag(t) && thought)
  {
    ConsTail(Tag(t), rest);
    TagShape(t);
    hide IsCloseTag, IsOpenTag;
    assert [] + BlockEnds(rest, |t|, thought) == BlockEnds(rest, |t|, thought);
  }

  lemma ReportsTag(mode: Mode, thinking: string, s: string, t: string, i: nat)
    requires mode != BufferingTag && s != "" && s[0] == '<' && TagAt(s) == Some(t) && IsTag(t) && t <= s && i <= |s|
    requires i >= |t| ==>
      ReportsAtEnds(if IsOpenTag(t) then InThinking else Text, if IsOpenTag(t) then thinking else "", s[|t|..], i - |t|)
    ensures ReportsAtEnds(mode, thinking, s, i)
  {
    hide Run, BlockEnds, TagAt, TagPrefixLength, ReportsAtEnds, IsOpenTag, IsCloseTag, CouldBeTag;
    assert Tokens(s, mode == InThinking) == [Tag(t)] + Tokens(s[|t|..], IsOpenTag(t));
    TagShape(t);
    if i < |t| {
      TokensHaveTags(s, mode == InThinking);
      assert s[..i] <= t;
      CouldBeTagPrefix(s[..i], t);
      ProperPrefixIsNoTag(s[..i], t);
      BufferedHead(mode, thinking, s[..i]);
      InsideToken(mode, thinking, s, i, Tag(t), Tokens(s[|t|..], IsOpenTag(t)));
    } else {
      ReadTag(mode, thinking, t);
      assert s[..|t|] == t;
      TagIsOneKind(t);
      EndsOfTag(t, Tokens(s[|t|..], IsOpenTag(t)), thinking != "");
      AfterToken(mode, thinking, s, |t|, i, Tag(t), Run(Norm(mode, "", thinking), t).0,
                 if IsOpenTag(t) || thinking == "" then [] else [thinking]);
    }
  }

  lemma TagIsOneKind(t: string)
    requires IsTag(t)
    ensures IsOpenTag(t) <==> !IsCloseTag(t)
  {
  }

  lemma ProperPrefixIsNoTag(p: string, t: string)
    requires p <= t && |p| < |t| && IsTag(t)
    ensures !IsTag(p)
  {
    TagShape(t);
    if IsTag(p) {
      TagsArePrefixFree(p, t);
    }
  }

  lemma EndsOfFalseTag(text: string, rest: seq<Token>, thought: bool)
    ensures BlockEnds([Plain(text)] + rest, 0, thought) == [] + BlockEnds(rest, |text|, thought)
  {
    ConsTail(Plain(text), rest);
  }

  lemma ReportsFalseTag(mode: Mode, thinking: string, s: string, i: nat)
    requires mode != BufferingTag && s != "" && s[0] == '<' && TagAt(s).None? && i <= |s|
    requires i > TagPrefixLength(s) ==>
      ReportsAtEnds(Text, thinking, s[TagPrefixLength(s) + 1..], i - TagPrefixLength(s) - 1)
    ensures ReportsAtEnds(mode, thinking, s, i)
  {
    hide Run, BlockEnds, TagAt, TagPrefixLength, Tokens, ReportsAtEnds, CouldBeTag, IsTag;
    var n := TagPrefixLength(s);
    TagAtIsPrefix(s);
    TokensOfFalseTag(s, mode == InThinking);
    TokensHaveTags(s, mode == InThinking);
    ReadFalseTag(mode, thinking, s);
    if i <= n {
      assert s[..i] <= s[..n];
      CouldBeTagPrefix(s[..i], s[..n]);
      BufferedHead(mode, thinking, s[..i]);
      if n == |s| {
        assert [Plain(s)] + [] == [Plain(s)];
        InsideToken(mode, thinking, s, i, Plain(s), []);
      } else {
        InsideToken(mode, thinking, s, i, Plain(s[..n + 1]), Tokens(s[n + 1..], false));
      }
    } else {
      EndsOfFalseTag(s[..n + 1], Tokens(s[n + 1..], false), thinking != "");
      AfterToken(mode, thinking, s, n + 1, i, Plain(s[..n + 1]), Norm(Text, "", thinking), []);
    }
  }

  lemma NothingReported(mode: Mode, thinking: string, s: string)
    ensures ReportsAtEnds(mode, thinking, s, 0)
  {
    hide Tokens;
    TokensHaveTags(s, mode == InThinking);
    EndsRise(Tokens(s, mode == InThinking), 0, thinking != "");
  }

  /** The machine has reported, at every position of the input, exactly the blocks that end up to there. */
  lemma {:induction false} MachineReportsAtEnds(mode: Mode, thinking: string, s: string, i: nat)
    requires mode != BufferingTag && i <= |s|
    ensures ReportsAtEnds(mode, thinking, s, i)
    decreases |s|
  {
    hide Run, TagAt, TagPrefixLength, ReportsAtEnds, IsTag, IsOpenTag;
    if i == 0 {
      NothingReported(mode, thinking, s);
    } else if s[0] != '<' {
      MachineReportsAtEnds(mode, Feed(Norm(mode, "", thinking), s[0]).0.thinking, s[1..], i - 1);
      ReportsCharacter(mode, thinking, s, i);
    } else {
      TagAtIsPrefix(s);
      match TagAt(s)
      case Some(t) =>
        if i >= |t| {
          MachineReportsAtEnds(
            if IsOpenTag(t) then InThinking else Text, if IsOpenTag(t) then thinking else "", s[|t|..], i - |t|);
        }
        ReportsTag(mode, thinking, s, t, i);
      case None =>
        if i > TagPrefixLength(s) {
          MachineReportsAtEnds(Text, thinking, s[TagPrefixLength(s) + 1..], i - TagPrefixLength(s) - 1);
        }
        ReportsFalseTag(mode, thinking, s, i);
    }
  }

  // ----- Which chunkings keep all thinking -----

  /** Where chunk `k` starts in the whole text. */
  function StartOf(chunks: seq<string>, k: nat): nat
    requires k <= |chunks|
  {
    |Flatten(chunks[..k])|
  }

  /** Two thinking blocks end inside the same chunk. */
  ghost predicate TwoEndsInOneChunk(chunks: seq<string>)
  {
    exists k :: 0 <= k < |chunks| && TwoEndsBetween(EndsOf(Flatten(chunks)), StartOf(chunks, k), StartOf(chunks, k + 1))
  }

  ghost predicate TwoEndsBetween(ends: seq<nat>, from: nat, to: nat)
  {
    exists i, j :: 0 <= i < j < |ends| && from < ends[i] && ends[j] <= to
  }

  lemma TwoEndsCounted(ends: seq<nat>, from: nat, to: nat)
    requires Rising(ends) && from <= to
    ensures TwoEndsBetween(ends, from, to) <==> UpTo(ends, to) - UpTo(ends, from) >= 2
  {
    UpToSplits(ends, from);
    UpToSplits(ends, to);
    var n := UpTo(ends, from);
    if UpTo(ends, to) - n >= 2 {
      assert from < ends[n] && ends[n + 1] <= to;
    }
  }

  /** What call `k` reports is what the run over the first `k + 1` chunks reports beyond the first `k`. */
  lemma {:induction false} CallReports(st: Norm, chunks: seq<string>, k: nat)
    requires k < |chunks|
    ensures |Calls(st, chunks).1| == |chunks|
    ensures Run(st, Flatten(chunks[..k + 1])).1.reports
         == Run(st, Flatten(chunks[..k])).1.reports + Calls(st, chunks).1[k].reports
    decreases k
  {
    hide Run;
    CallsAreAsMany(st, chunks);
    CallsSnoc(st, chunks, k);
    CallsAreOneRun(st, chunks[..k]);
    CallsPrefix(st, chunks, k + 1);
    CallsPrefix(st, chunks, k);
    TakeOneMore(chunks, k);
    FlattenSnoc(chunks[..k], chunks[k]);
    RunAppend(st, Flatten(chunks[..k]), chunks[k]);
  }

  lemma {:induction false} CallsAreAsMany(st: Norm, chunks: seq<string>)
    ensures |Calls(st, chunks).1| == |chunks|
    decreases |chunks|
  {
    hide Run;
    if chunks != [] {
      CallsAreAsMany(Run(st, chunks[0]).0, chunks[1..]);
    }
  }

  lemma {:induction false} CallsPrefix(st: Norm, chunks: seq<string>, k: nat)
    requires k <= |chunks|
    ensures |Calls(st, chunks[..k]).1| == k <= |Calls(st, chunks).1|
    ensures Calls(st, chunks[..k]).1 == Calls(st, chunks).1[..k]
    decreases |chunks|
  {
    hide Run;
    CallsAreAsMany(st, chunks);
    if k > 0 {
      var (mid, first) := Run(st, chunks[0]);
      assert chunks[..k][0] == chunks[0] && chunks[..k][1..] == chunks[1..][..k - 1];
      CallsPrefix(mid, chunks[1..], k - 1);
      AppendSlices([first], Calls(mid, chunks[1..]).1, 1);
    }
  }

  lemma FlattenPrefix(chunks: seq<string>, k: nat)
    requires k <= |chunks|
    ensures StartOf(chunks, k) <= |Flatten(chunks)| && Flatten(chunks[..k]) == Flatten(chunks)[..StartOf(chunks, k)]
  {
    SplitAround(chunks, k);
    FlattenAppend(chunks[..k], chunks[k..]);
  }

  lemma CallReportsEnds(chunks: seq<string>, k: nat)
    requires k < |chunks|
    ensures |Calls(START, chunks).1| == |chunks|
    ensures |Calls(START, chunks).1[k].reports| >= 2
       <==> TwoEndsBetween(EndsOf(Flatten(chunks)), StartOf(chunks, k), StartOf(chunks, k + 1))
  {
    hide Run, Calls, Tokens, BlockEnds, Flatten, TwoEndsBetween;
    var s := Flatten(chunks);
    CallReports(START, chunks, k);
    FlattenPrefix(chunks, k);
    FlattenPrefix(chunks, k + 1);
    TakeOneMore(chunks, k);
    FlattenSnoc(chunks[..k], chunks[k]);
    MachineReportsAtEnds(Text, "", s, StartOf(chunks, k));
    MachineReportsAtEnds(Text, "", s, StartOf(chunks, k + 1));
    TokensHaveTags(s, false);
    EndsRise(Tokens(s, false), 0, false);
    TwoEndsCounted(EndsOf(s), StartOf(chunks, k), StartOf(chunks, k + 1));
  }

  /** Main result: all thinking is delivered exactly when no two thinking blocks end inside one chunk. */
  lemma ThinkingKeptIff(chunks: seq<string>)
    ensures StreamedThinking(chunks) == ThoughtText(Tokens(Flatten(chunks), false)) <==> !TwoEndsInOneChunk(chunks)
  {
    hide Run, Calls, Tokens, ThoughtText, StreamedThinking, EndsOf, TwoEndsBetween, Flatten;
    KeptUnlessTwoAtOnce(chunks);
    var outs := Calls(START, chunks).1;
    CallsAreAsMany(START, chunks);
    forall k | 0 <= k < |chunks|
      ensures |outs[k].reports| >= 2
         <==> TwoEndsBetween(EndsOf(Flatten(chunks)), StartOf(chunks, k), StartOf(chunks, k + 1))
    {
      CallReportsEnds(chunks, k);
    }
    if TwoEndsInOneChunk(chunks) {
      var k :| 0 <= k < |chunks| && TwoEndsBetween(EndsOf(Flatten(chunks)), StartOf(chunks, k), StartOf(chunks, k + 1));
      assert |outs[k].reports| >= 2;
    }
    if CompletesTwoAtOnce(outs) {
      var k :| 0 <= k < |outs| && |outs[k].reports| >= 2;
      assert TwoEndsBetween(EndsOf(Flatten(chunks)), StartOf(chunks, k), StartOf(chunks, k + 1));
    }
  }
}
