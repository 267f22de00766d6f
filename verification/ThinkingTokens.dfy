/** What the streaming normalizer means: a reading of the whole string, independent of how it was cut into chunks. */
module ThinkingTokens {
  import opened Prelude
  import opened ThinkingNormalizer

  // ----- Reading a whole string as tags, thought characters and visible text -----

  datatype Token = Plain(text: string) | Thought(c: char) | Tag(tag: string)

  /** The tag `s` starts with. No tag is a prefix of another, so there is at most one. */
  function TagAt(s: string): Option<string>
  {
    if "<thinking>" <= s then Some("<thinking>")
    else if "<think>" <= s then Some("<think>")
    else if "</thinking>" <= s then Some("</thinking>")
    else if "</think>" <= s then Some("</think>")
    else None
  }

  /** Length of the longest prefix of `s` that some tag starts with. */
  function TagPrefixLength(s: string): (n: nat)
    ensures n <= |s| && CouldBeTag(s[..n])
    ensures n < |s| ==> !CouldBeTag(s[..n + 1])
  {
    LongestFrom(s, 0)
  }

  function LongestFrom(s: string, k: nat): (n: nat)
    requires k <= |s| && CouldBeTag(s[..k])
    ensures k <= n <= |s| && CouldBeTag(s[..n])
    ensures n < |s| ==> !CouldBeTag(s[..n + 1])
    decreases |s| - k
  {
    if k < |s| && CouldBeTag(s[..k + 1]) then LongestFrom(s, k + 1) else k
  }

  function Tokens(s: string, thinking: bool): seq<Token>
    decreases |s|
  {
    if s == "" then []
    else if s[0] != '<' then [if thinking then Thought(s[0]) else Plain([s[0]])] + Tokens(s[1..], thinking)
    else match TagAt(s)
      case Some(t) => [Tag(t)] + Tokens(s[|t|..], IsOpenTag(t))
      case None =>
        var n := TagPrefixLength(s);
        if n == |s| then [Plain(s)] else [Plain(s[..n + 1])] + Tokens(s[n + 1..], false)
  }

  function Spelling(t: Token): string
  {
    match t
    case Plain(text) => text
    case Thought(c) => [c]
    case Tag(tag) => tag
  }

  function Spell(ts: seq<Token>): string
  {
    if ts == [] then "" else Spelling(ts[0]) + Spell(ts[1..])
  }

  function PlainText(ts: seq<Token>): string
  {
    if ts == [] then "" else (if ts[0].Plain? then ts[0].text else "") + PlainText(ts[1..])
  }

  function ThoughtText(ts: seq<Token>): string
  {
    if ts == [] then "" else (if ts[0].Thought? then [ts[0].c] else "") + ThoughtText(ts[1..])
  }

  /** Every input character ends in exactly one token, in order, and only real tags are dropped. */
  lemma {:induction false} TokensAreLossless(s: string, thinking: bool)
    ensures Spell(Tokens(s, thinking)) == s
    ensures forall t :: t in Tokens(s, thinking) && t.Tag? ==> IsTag(t.tag)
    decreases |s|
  {
    hide TagAt, IsTag, CouldBeTag, TagPrefixLength, Spell, IsOpenTag;
    TagAtIsPrefix(s);
    if s == "" {
      SpellNothing();
    } else if s[0] != '<' {
      TokensAreLossless(s[1..], thinking);
      SpellCons(if thinking then Thought(s[0]) else Plain([s[0]]), Tokens(s[1..], thinking));
      HeadAndTail(s);
    } else {
      match TagAt(s)
      case Some(t) =>
        TokensAreLossless(s[|t|..], IsOpenTag(t));
        SpellCons(Tag(t), Tokens(s[|t|..], IsOpenTag(t)));
        SplitAround(s, |t|);
      case None =>
        var n := TagPrefixLength(s);
        SpellNothing();
        if n == |s| {
          SpellCons(Plain(s), []);
          assert [Plain(s)] + [] == [Plain(s)];
          assert s + "" == s;
        } else {
          TokensAreLossless(s[n + 1..], false);
          SpellCons(Plain(s[..n + 1]), Tokens(s[n + 1..], false));
          SplitAround(s, n + 1);
        }
    }
  }

  lemma SpellNothing()
    ensures Spell([]) == ""
  {
  }

  lemma SpellCons(t: Token, ts: seq<Token>)
    ensures Spell([t] + ts) == Spelling(t) + Spell(ts)
  {
    ConsTail(t, ts);
  }

  // ----- The machine computes this reading -----

  /** Buffered characters are released as text when the stream ends. */
  function VisibleText(st: Norm, s: string): string
  {
    Run(st, s).1.text + Run(st, s).0.buffer
  }

  function AllThinking(st: Norm, s: string): string
  {
    Flatten(Run(st, s).1.reports) + Run(st, s).0.thinking
  }

  /** While a buffer is still a proper tag prefix, nothing comes out. */
  lemma {:induction false} BufferGrows(st: Norm, more: string)
    requires st.mode == BufferingTag && st.buffer != ""
    requires CouldBeTag(st.buffer + more) && !IsTag(st.buffer + more)
    ensures Run(st, more) == (st.(buffer := st.buffer + more), Output("", []))
    decreases |more|
  {
    if more == "" {
      assert st.buffer + more == st.buffer;
    } else {
      var longer := st.buffer + [more[0]];
      assert longer + more[1..] == st.buffer + more;
      CouldBeTagPrefix(longer, st.buffer + more);
      if IsTag(longer) {
        TagsArePrefixFree(longer, st.buffer + more);
        assert false;
      }
      CouldBeTagShape(longer);
      BufferGrows(st.(buffer := longer), more[1..]);
    }
  }

  lemma HeadAndLast(s: string, body: string)
    requires 2 <= |s| && s[0] == '<' && body == s[1..|s| - 1]
    ensures "<" + body == s[..|s| - 1] && s == s[..|s| - 1] + [s[|s| - 1]] && s[..1] == ['<']
  {
  }

  /** Reading `s[..n]` after `<` at its head, when `s[..n-1]` is still a proper tag prefix. */
  lemma BufferEnds(mode: Mode, thinking: string, s: string)
    requires mode != BufferingTag && 2 <= |s| && s[0] == '<'
    requires CouldBeTag(s[..|s| - 1]) && !IsTag(s[..|s| - 1])
    ensures Run(Norm(mode, "", thinking), s) == Feed(Norm(BufferingTag, s[..|s| - 1], thinking), s[|s| - 1])
  {
    hide CouldBeTag, IsTag, Run;
    var st := Norm(mode, "", thinking);
    var body := s[1..|s| - 1];
    HeadAndLast(s, body);
    BufferGrows(Norm(BufferingTag, "<", thinking), body);
    RunOne(st, '<');
    RunAppend(st, "<", body);
    RunAppend(st, s[..|s| - 1], [s[|s| - 1]]);
    RunOne(Norm(BufferingTag, s[..|s| - 1], thinking), s[|s| - 1]);
    var out := Feed(Norm(BufferingTag, s[..|s| - 1], thinking), s[|s| - 1]).1;
    ThenLaws(out, out, out);
    ThenLaws(Output("", []), out, out);
  }

  lemma ReadTag(mode: Mode, thinking: string, t: string)
    requires mode != BufferingTag && IsTag(t)
    ensures Run(Norm(mode, "", thinking), t) ==
            if IsOpenTag(t) then (Norm(InThinking, "", thinking), Output("", []))
            else (Norm(Text, "", ""), Output("", if thinking == "" then [] else [thinking]))
  {
    TagShape(t);
    var p := t[..|t| - 1];
    CouldBeTagPrefix(p, t);
    if IsTag(p) {
      TagsArePrefixFree(p, t);
      assert false;
    }
    BufferEnds(mode, thinking, t);
    assert p + [t[|t| - 1]] == t;
  }

  lemma TagAtIsPrefix(s: string)
    ensures TagAt(s).Some? ==> IsTag(TagAt(s).value) && "" < TagAt(s).value <= s
    ensures TagAt(s).None? ==> forall n :: 0 <= n <= |s| ==> !IsTag(s[..n])
  {
    if TagAt(s).None? {
      forall n | 0 <= n <= |s| ensures !IsTag(s[..n]) {
        assert s[..n] <= s;
      }
    }
  }

  lemma OpenAngleCouldBeTag()
    ensures CouldBeTag("<") && !IsTag("<")
  {
  }

  /** `<` that opens no tag is text, together with everything read before that became clear. */
  lemma ReadFalseTag(mode: Mode, thinking: string, s: string)
    requires mode != BufferingTag && s != "" && s[0] == '<' && TagAt(s).None?
    ensures var n := TagPrefixLength(s);
            && 1 <= n
            && (n == |s| ==> Run(Norm(mode, "", thinking), s) == (Norm(BufferingTag, s, thinking), Output("", [])))
            && (n < |s| ==> Run(Norm(mode, "", thinking), s[..n + 1]) ==
                            (Norm(Text, "", thinking), Output(s[..n + 1], [])))
  {
    hide TagAt, CouldBeTag, TagPrefixLength, IsOpenTag, IsCloseTag;
    var n := TagPrefixLength(s);
    TagAtIsPrefix(s);
    assert s[..1] == "<";
    OpenAngleCouldBeTag();
    if n == |s| {
      assert s[..n] == s;
      assert "<" + s[1..] == s;
      BufferGrows(Norm(BufferingTag, "<", thinking), s[1..]);
      ThenLaws(Output("", []), Output("", []), Output("", []));
    } else {
      var p := s[..n + 1];
      assert p[..|p| - 1] == s[..n];
      BufferEnds(mode, thinking, p);
      assert s[..n] + [s[n]] == p;
      if IsTag(p) {
        TagShape(p);
        assert false;
      }
    }
  }

  lemma VisibleTextStep(st: Norm, a: string, b: string)
    ensures VisibleText(st, a + b) == Run(st, a).1.text + VisibleText(Run(st, a).0, b)
    ensures AllThinking(st, a + b) == Flatten(Run(st, a).1.reports) + AllThinking(Run(st, a).0, b)
  {
    hide Run, Flatten;
    RunAppend(st, a, b);
    var (mid, first) := Run(st, a);
    var (end, second) := Run(mid, b);
    FlattenAppend(first.reports, second.reports);
    Associate(first.text, second.text, end.buffer);
    Associate(Flatten(first.reports), Flatten(second.reports), end.thinking);
  }

  /** With nothing buffered, the machine's text and thinking are those of the tokens. */
  ghost predicate Reads(mode: Mode, thinking: string, s: string)
  {
    && VisibleText(Norm(mode, "", thinking), s) == PlainText(Tokens(s, mode == InThinking))
    && AllThinking(Norm(mode, "", thinking), s) == thinking + ThoughtText(Tokens(s, mode == InThinking))
  }

  lemma PlainCons(t: Token, ts: seq<Token>)
    ensures PlainText([t] + ts) == (if t.Plain? then t.text else "") + PlainText(ts)
    ensures ThoughtText([t] + ts) == (if t.Thought? then [t.c] else "") + ThoughtText(ts)
  {
    assert ([t] + ts)[1..] == ts;
  }

  lemma ReadsCharacter(mode: Mode, thinking: string, s: string)
    requires mode != BufferingTag && s != "" && s[0] != '<'
    requires Reads(mode, Feed(Norm(mode, "", thinking), s[0]).0.thinking, s[1..])
    ensures Reads(mode, thinking, s)
  {
    hide Run, TagAt, TagPrefixLength, VisibleText, AllThinking, Flatten, PlainText, ThoughtText;
    var st := Norm(mode, "", thinking);
    RunOne(st, s[0]);
    assert s == [s[0]] + s[1..];
    VisibleTextStep(st, [s[0]], s[1..]);
    PlainCons(if mode == InThinking then Thought(s[0]) else Plain([s[0]]), Tokens(s[1..], mode == InThinking));
    Associate(thinking, [s[0]], ThoughtText(Tokens(s[1..], mode == InThinking)));
    FlattenNothing();
  }

  lemma ReadsTag(mode: Mode, thinking: string, s: string, t: string)
    requires mode != BufferingTag && s != "" && s[0] == '<' && TagAt(s) == Some(t) && IsTag(t) && t <= s
    requires Reads(if IsOpenTag(t) then InThinking else Text, if IsOpenTag(t) then thinking else "", s[|t|..])
    ensures Reads(mode, thinking, s)
  {
    hide Run, TagAt, TagPrefixLength, VisibleText, AllThinking, Flatten, PlainText, ThoughtText, IsTag, IsOpenTag;
    var st := Norm(mode, "", thinking);
    ReadTag(mode, thinking, t);
    assert s == t + s[|t|..];
    VisibleTextStep(st, t, s[|t|..]);
    PlainCons(Tag(t), Tokens(s[|t|..], IsOpenTag(t)));
    FlattenNothing();
    FlattenSnoc([], thinking);
    assert [] + [thinking] == [thinking];
  }

  lemma TokensOfFalseTag(s: string, thinking: bool)
    requires s != "" && s[0] == '<' && TagAt(s).None?
    ensures
      var n := TagPrefixLength(s);
      Tokens(s, thinking) == if n == |s| then [Plain(s)] else [Plain(s[..n + 1])] + Tokens(s[n + 1..], false)
  {
    hide TagAt, TagPrefixLength;
  }

  lemma ReadsFalseTag(mode: Mode, thinking: string, s: string)
    requires mode != BufferingTag && s != "" && s[0] == '<' && TagAt(s).None?
    requires TagPrefixLength(s) < |s| ==> Reads(Text, thinking, s[TagPrefixLength(s) + 1..])
    ensures Reads(mode, thinking, s)
  {
    hide Run, TagAt, TagPrefixLength, Flatten, PlainText, ThoughtText, VisibleText, AllThinking, Tokens;
    var st := Norm(mode, "", thinking);
    ReadFalseTag(mode, thinking, s);
    TokensOfFalseTag(s, mode == InThinking);
    var n := TagPrefixLength(s);
    FlattenNothing();
    if n == |s| {
      PlainCons(Plain(s), []);
      TextOfNothing();
      assert [Plain(s)] + [] == [Plain(s)];
      VisibleWhenHeldBack(st, s);
    } else {
      SplitAround(s, n + 1);
      VisibleTextStep(st, s[..n + 1], s[n + 1..]);
      PlainCons(Plain(s[..n + 1]), Tokens(s[n + 1..], false));
    }
  }

  lemma VisibleWhenHeldBack(st: Norm, s: string)
    requires Run(st, s).1 == Output("", [])
    ensures VisibleText(st, s) == Run(st, s).0.buffer && AllThinking(st, s) == Run(st, s).0.thinking
  {
    hide Run;
  }

  lemma FlattenNothing()
    ensures Flatten<char>([]) == ""
  {
  }

  lemma TextOfNothing()
    ensures PlainText([]) == "" == ThoughtText([])
  {
  }

  lemma RunNothing(st: Norm)
    ensures Run(st, "") == (st, Output("", []))
  {
  }

  lemma {:induction false} MachineReadsTokens(mode: Mode, thinking: string, s: string)
    requires mode != BufferingTag
    ensures Reads(mode, thinking, s)
    decreases |s|
  {
    hide Run, TagAt, TagPrefixLength, Reads, IsTag, IsOpenTag;
    if s == "" {
      ReadsNothing(mode, thinking);
    } else if s[0] != '<' {
      MachineReadsTokens(mode, Feed(Norm(mode, "", thinking), s[0]).0.thinking, s[1..]);
      ReadsCharacter(mode, thinking, s);
    } else {
      TagAtIsPrefix(s);
      match TagAt(s)
      case Some(t) =>
        MachineReadsTokens(if IsOpenTag(t) then InThinking else Text, if IsOpenTag(t) then thinking else "", s[|t|..]);
        ReadsTag(mode, thinking, s, t);
      case None =>
        if TagPrefixLength(s) < |s| {
          MachineReadsTokens(Text, thinking, s[TagPrefixLength(s) + 1..]);
        }
        ReadsFalseTag(mode, thinking, s);
    }
  }

  lemma ReadsNothing(mode: Mode, thinking: string)
    ensures Reads(mode, thinking, "")
  {
    RunNothing(Norm(mode, "", thinking));
    TextOfNothing();
    FlattenNothing();
  }
}
