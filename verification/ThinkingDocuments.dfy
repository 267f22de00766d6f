/** Documents with thinking blocks: batch stripping removes them, and when the streaming normalizer does the same. */
module ThinkingDocuments {
  import opened Prelude
  import opened ThinkingNormalizer
  import opened ThinkingTokens
  import opened ThinkingStream

  // ----- Batch stripping: a global replace of open tag, shortest body, close tag -----

  /** End of the first close tag in `s`. */
  function FirstCloseEnd(s: string): (end: Option<nat>)
    ensures end.Some? ==> end.value <= |s|
  {
    if s == "" then None
    else match TagAt(s)
      case Some(t) =>
        if IsCloseTag(t) then Some(|t|) else
        (match FirstCloseEnd(s[1..]) case None => None case Some(n) => Some(n + 1))
      case None =>
        match FirstCloseEnd(s[1..]) case None => None case Some(n) => Some(n + 1)
  }

  /** End of the thinking block starting at the head of `s`, if one starts there and is closed. */
  function BlockEnd(s: string): (end: Option<nat>)
    ensures end.Some? ==> 0 < end.value <= |s|
  {
    match TagAt(s)
    case None => None
    case Some(t) =>
      if !IsOpenTag(t) then None
      else match FirstCloseEnd(s[|t|..])
        case None => None
        case Some(n) => Some(|t| + n)
  }

  function StripBlocks(s: string): string
    decreases |s|
  {
    if s == "" then ""
    else match BlockEnd(s)
      case Some(end) => StripBlocks(s[end..])
      case None => [s[0]] + StripBlocks(s[1..])
  }

  function StripXmlThinkingTags(content: string): string
  {
    Trim(StripBlocks(content))
  }

  // ----- Documents -----

  /** Text, then one thinking block. */
  datatype Block = Block(before: string, open: string, body: string, close: string)

  function Render(blocks: seq<Block>, tail: string): string
  {
    if blocks == [] then tail
    else var b := blocks[0]; b.before + (b.open + (b.body + (b.close + Render(blocks[1..], tail))))
  }

  /** The document with its blocks cut out. */
  function Outside(blocks: seq<Block>, tail: string): string
  {
    if blocks == [] then tail else blocks[0].before + Outside(blocks[1..], tail)
  }

  predicate NoAngle(s: string)
  {
    forall i :: 0 <= i < |s| ==> s[i] != '<'
  }

  predicate OpensAt(s: string, i: nat)
    requires i <= |s|
  {
    "<thinking>" <= s[i..] || "<think>" <= s[i..]
  }

  predicate ClosesAt(s: string, i: nat)
    requires i <= |s|
  {
    "</thinking>" <= s[i..] || "</think>" <= s[i..]
  }

  predicate NoCloseTag(s: string)
  {
    forall i :: 0 <= i < |s| ==> !ClosesAt(s, i)
  }

  /** Text may hold any characters, angle brackets included, but no tag. */
  predicate NoTags(s: string)
  {
    forall i :: 0 <= i < |s| ==> !OpensAt(s, i) && !ClosesAt(s, i)
  }

  predicate WellFormed(blocks: seq<Block>, tail: string)
  {
    NoTags(tail) && forall b :: b in blocks ==> WellFormedBlock(b)
  }

  predicate WellFormedBlock(b: Block)
  {
    NoTags(b.before) && IsOpenTag(b.open) && NoCloseTag(b.body) && IsCloseTag(b.close)
  }

  /** The end of a text that may still become a tag, read from the left past everything that turned out not to. */
  function HeldBack(s: string): string
    decreases |s|
  {
    if s == "" then ""
    else if s[0] != '<' then HeldBack(s[1..])
    else match TagAt(s)
      case Some(t) => HeldBack(s[|t|..])
      case None =>
        var n := TagPrefixLength(s);
        if n == |s| then s else HeldBack(s[n + 1..])
  }

  /** Every `<` in the body is the start of a further open tag. */
  predicate OnlyOpenTags(body: string)
  {
    forall i :: 0 <= i < |body| && body[i] == '<' ==> OpensAt(body, i)
  }

  // ----- Finding tags inside a document -----

  lemma TagAtHead(t: string, rest: string)
    requires IsTag(t)
    ensures TagAt(t + rest) == Some(t)
  {
    hide TagAt, IsTag, CouldBeTag;
    var s := t + rest;
    TagAtIsPrefix(s);
    assert s[..|t|] == t;
    var u := TagAt(s).value;
    TagShape(t);
    TagShape(u);
    if |t| <= |u| {
      assert t == u[..|t|];
      TagsArePrefixFree(t, u);
    }
  }

  /** A tag never reaches across the `<` of what follows. */
  lemma TagAtWithin(x: string, rest: string)
    requires x != "" && rest != "" && rest[0] == '<'
    ensures TagAt(x + rest) == TagAt(x)
    ensures TagAt(x).Some? <==> OpensAt(x, 0) || ClosesAt(x, 0)
    ensures TagAt(x).Some? ==> (IsOpenTag(TagAt(x).value) <==> OpensAt(x, 0))
  {
    assert x[0..] == x;
    Within("<thinking>", x, rest);
    Within("<think>", x, rest);
    Within("</thinking>", x, rest);
    Within("</think>", x, rest);
  }

  lemma Within(t: string, x: string, rest: string)
    requires IsTag(t) && x != "" && rest != "" && rest[0] == '<'
    ensures t <= x + rest <==> t <= x
  {
    TagShape(t);
    assert (x + rest)[|x|] == '<';
  }

  lemma TagAtNeedsAngle(s: string)
    requires s == "" || s[0] != '<'
    ensures TagAt(s).None?
  {
  }

  // ----- Batch stripping cuts out exactly the blocks -----

  lemma TextSuffix(s: string, k: nat)
    requires k <= |s| && NoTags(s)
    ensures NoTags(s[k..])
  {
    hide OpensAt, ClosesAt;
    forall i | 0 <= i < |s| - k ensures !OpensAt(s[k..], i) && !ClosesAt(s[k..], i) {
      SuffixPositions(s, k, i);
    }
  }

  /** No tag starts in a text without tags, whatever tag or end comes behind it. */
  lemma NoTagInText(text: string, rest: string)
    requires NoTags(text) && text != "" && (rest == "" || rest[0] == '<')
    ensures TagAt(text + rest).None? && TagAt(text).None?
  {
    hide TagAt;
    assert !OpensAt(text, 0) && !ClosesAt(text, 0);
    if rest == "" {
      TagAtWithin(text, "<");
      assert text + rest == text;
    } else {
      TagAtWithin(text, rest);
    }
  }

  lemma {:induction false} StripText(before: string, rest: string)
    requires NoTags(before) && (rest == "" || rest[0] == '<')
    ensures StripBlocks(before + rest) == before + StripBlocks(rest)
    decreases |before|
  {
    hide TagAt, FirstCloseEnd, NoTags, StripBlocks;
    if before == "" {
      assert before + rest == rest;
    } else {
      NoTagInText(before, rest);
      TextSuffix(before, 1);
      AppendSlices(before, rest, 1);
      StripCharacter(before + rest);
      StripText(before[1..], rest);
      HeadAndTail(before);
      Associate([before[0]], before[1..], StripBlocks(rest));
    }
  }

  lemma StripCharacter(s: string)
    requires s != "" && TagAt(s).None?
    ensures StripBlocks(s) == [s[0]] + StripBlocks(s[1..])
  {
    hide TagAt, FirstCloseEnd;
  }

  lemma {:induction false} FirstCloseAfterBody(body: string, close: string, rest: string)
    requires NoCloseTag(body) && IsCloseTag(close)
    ensures FirstCloseEnd(body + (close + rest)) == Some(|body| + |close|)
    decreases |body|
  {
    hide TagAt, ClosesAt, OpensAt, IsOpenTag, IsCloseTag;
    var after := close + rest;
    TagShape(close);
    if body == "" {
      assert body + after == after;
      TagAtHead(close, rest);
    } else {
      assert (body + after)[1..] == body[1..] + after;
      forall i | 0 <= i < |body[1..]| ensures !ClosesAt(body[1..], i) {
        assert !ClosesAt(body, i + 1);
        SuffixPositions(body, 1, i);
      }
      FirstCloseAfterBody(body[1..], close, rest);
      TagAtWithin(body, after);
      assert !ClosesAt(body, 0);
      if TagAt(body).Some? {
        TagAtIsPrefix(body);
        TagShape(TagAt(body).value);
      }
    }
  }

  lemma SuffixPositions(s: string, k: nat, i: nat)
    requires k + i <= |s|
    ensures OpensAt(s[k..], i) == OpensAt(s, k + i)
    ensures ClosesAt(s[k..], i) == ClosesAt(s, k + i)
  {
    assert s[k..][i..] == s[k + i..];
  }

  lemma StripOneBlock(b: Block, rest: string)
    requires WellFormedBlock(b)
    ensures StripBlocks(b.before + (b.open + (b.body + (b.close + rest)))) == b.before + StripBlocks(rest)
  {
    hide TagAt, IsOpenTag, IsCloseTag, NoCloseTag, NoTags, StripBlocks;
    var inner := b.body + (b.close + rest);
    var s := b.open + inner;
    OpenIsTag(b.open);
    TagShape(b.open);
    StripText(b.before, s);
    StripHead(b.open, b.body, b.close, rest);
  }

  lemma OpenIsTag(open: string)
    requires IsOpenTag(open)
    ensures IsTag(open) && open != "" && open[0] == '<'
  {
  }

  lemma StripHead(open: string, body: string, close: string, rest: string)
    requires IsOpenTag(open) && NoCloseTag(body) && IsCloseTag(close)
    ensures StripBlocks(open + (body + (close + rest))) == StripBlocks(rest)
  {
    hide TagAt, IsOpenTag, IsCloseTag, NoCloseTag, FirstCloseEnd;
    var inner := body + (close + rest);
    var s := open + inner;
    OpenIsTag(open);
    TagAtHead(open, inner);
    DropTwice(s, |open|, 0);
    assert s[|open|..] == inner;
    FirstCloseAfterBody(body, close, rest);
    assert s[|open| + (|body| + |close|)..] == rest;
  }

  lemma {:induction false} StripDocument(blocks: seq<Block>, tail: string)
    requires WellFormed(blocks, tail)
    ensures StripBlocks(Render(blocks, tail)) == Outside(blocks, tail)
    decreases |blocks|
  {
    hide StripBlocks, WellFormedBlock;
    if blocks == [] {
      StripText(tail, "");
      assert tail + "" == tail;
      StripNothing();
    } else {
      StripDocument(blocks[1..], tail);
      StripOneBlock(blocks[0], Render(blocks[1..], tail));
    }
  }

  lemma StripNothing()
    ensures StripBlocks("") == ""
  {
  }

  // ----- The streaming reading of the same document -----

  function StreamText(s: string, thinking: bool): string
  {
    PlainText(Tokens(s, thinking))
  }

  lemma SkipCharacter(c: char, rest: string, thinking: bool)
    requires c != '<'
    ensures StreamText([c] + rest, thinking) == (if thinking then "" else [c]) + StreamText(rest, thinking)
  {
    hide TagAt, TagPrefixLength, PlainText;
    var s := [c] + rest;
    assert s[1..] == rest;
    PlainCons(if thinking then Thought(c) else Plain([c]), Tokens(rest, thinking));
  }

  lemma SkipTag(t: string, rest: string, thinking: bool)
    requires IsTag(t)
    ensures StreamText(t + rest, thinking) == StreamText(rest, IsOpenTag(t))
  {
    hide TagAt, TagPrefixLength, PlainText, IsTag, IsOpenTag;
    var s := t + rest;
    TagShape(t);
    TagAtHead(t, rest);
    assert s[|t|..] == rest;
    PlainCons(Tag(t), Tokens(rest, IsOpenTag(t)));
  }

  lemma {:induction false} SkipText(before: string, rest: string)
    requires NoAngle(before)
    ensures StreamText(before + rest, false) == before + StreamText(rest, false)
  {
    hide StreamText;
    if before == "" {
      assert before + rest == rest;
    } else {
      assert before + rest == [before[0]] + (before[1..] + rest);
      SkipCharacter(before[0], before[1..] + rest, false);
      SkipText(before[1..], rest);
      assert before == [before[0]] + before[1..];
    }
  }

  /** A false tag is visible, with the character that gives it away. */
  lemma SkipFalseTag(s: string, thinking: bool)
    requires s != "" && s[0] == '<' && TagAt(s).None?
    ensures
      var n := TagPrefixLength(s);
      StreamText(s, thinking) == if n == |s| then s else s[..n + 1] + StreamText(s[n + 1..], false)
  {
    hide TagAt, TagPrefixLength, PlainText, Tokens;
    TokensOfFalseTag(s, thinking);
    var n := TagPrefixLength(s);
    if n == |s| {
      PlainCons(Plain(s), []);
      TextOfNothing();
      assert [Plain(s)] + [] == [Plain(s)];
      assert s + "" == s;
    } else {
      PlainCons(Plain(s[..n + 1]), Tokens(s[n + 1..], false));
    }
  }

  /** What could become a tag ends before the `<` of what follows. */
  lemma PrefixWithin(x: string, rest: string)
    requires x != "" && rest != "" && rest[0] == '<'
    ensures TagPrefixLength(x + rest) == TagPrefixLength(x)
  {
    hide CouldBeTag, TagPrefixLength;
    var s := x + rest;
    var m, n := TagPrefixLength(s), TagPrefixLength(x);
    AppendSlices(x, rest, n);
    if n < m {
      if n < |x| {
        AppendSlices(x, rest, n + 1);
        assert s[..n + 1] <= s[..m];
        CouldBeTagPrefix(s[..n + 1], s[..m]);
      } else {
        assert s[..m][|x|] == '<';
        CouldBeTagShape(s[..m]);
      }
      assert false;
    }
    if m < n {
      AppendSlices(x, rest, m + 1);
      assert s[..m + 1] <= s[..n];
      CouldBeTagPrefix(s[..m + 1], s[..n]);
      assert false;
    }
  }

  /** Text without tags is visible; an end that is held back takes the `<` of the next tag with it. */
  lemma {:induction false} StreamOfText(text: string, rest: string)
    requires NoTags(text) && (rest == "" || rest[0] == '<')
    ensures StreamText(text + rest, false) ==
      if HeldBack(text) == "" then text + StreamText(rest, false)
      else if rest == "" then text
      else text + "<" + StreamText(rest[1..], false)
    decreases |text|
  {
    hide StreamText, NoTags, TagAt, TagPrefixLength;
    var s := text + rest;
    if text == "" {
      assert s == rest;
    } else if text[0] != '<' {
      AppendSlices(text, rest, 1);
      TextSuffix(text, 1);
      HeadAndTail(s);
      SkipCharacter(text[0], text[1..] + rest, false);
      StreamOfText(text[1..], rest);
      assert text[..1] == [text[0]];
      PutBack(text, 1, StreamText(rest, false));
      if rest != "" {
        PutBack(text, 1, StreamText(rest[1..], false));
      }
    } else {
      NoTagInText(text, rest);
      SkipFalseTag(s, false);
      var n := TagPrefixLength(text);
      if rest == "" {
        assert s == text;
      } else {
        PrefixWithin(text, rest);
      }
      if n < |text| {
        AppendSlices(text, rest, n + 1);
        TextSuffix(text, n + 1);
        StreamOfText(text[n + 1..], rest);
        PutBack(text, n + 1, StreamText(rest, false));
        if rest != "" {
          PutBack(text, n + 1, StreamText(rest[1..], false));
        }
      } else if rest != "" {
        assert s[..n + 1] == text + "<" && s[n + 1..] == rest[1..];
      }
    }
  }

  lemma PutBack(text: string, k: nat, more: string)
    requires k <= |text|
    ensures text[..k] + text[k..] == text && text[..k] + (text[k..] + more) == text + more
    ensures text[..k] + (text[k..] + "<" + more) == text + "<" + more
  {
    SplitAround(text, k);
    Associate(text[..k], text[k..], more);
    Associate(text[..k], text[k..] + "<", more);
    Associate(text[..k], text[k..], "<");
  }

  lemma StreamOfTail(tail: string)
    requires NoTags(tail)
    ensures StreamText(tail, false) == tail
  {
    StreamOfText(tail, "");
    StreamNothing();
    assert tail + "" == tail;
  }

  lemma BodySuffix(body: string, k: nat)
    requires k <= |body| && NoCloseTag(body)
    ensures NoCloseTag(body[k..])
    ensures OnlyOpenTags(body) ==> OnlyOpenTags(body[k..])
    ensures OnlyOpenTags(body[k..]) && (forall i :: 0 <= i < k && body[i] == '<' ==> OpensAt(body, i)) ==>
      OnlyOpenTags(body)
  {
    hide OpensAt, ClosesAt;
    forall i | 0 <= i < |body| - k
      ensures OpensAt(body[k..], i) == OpensAt(body, k + i) && ClosesAt(body[k..], i) == ClosesAt(body, k + i)
    {
      SuffixPositions(body, k, i);
    }
    if OnlyOpenTags(body[k..]) && (forall i :: 0 <= i < k && body[i] == '<' ==> OpensAt(body, i)) {
      forall i | 0 <= i < |body| && body[i] == '<' ensures OpensAt(body, i) {
        if i >= k {
          assert body[k..][i - k] == '<';
          assert OpensAt(body[k..], i - k) == OpensAt(body, k + (i - k));
        }
      }
    }
  }

  /**
    What becomes visible of a body and its close tag. A thinking body is swallowed iff each of its `<` opens a tag;
    in any case reading goes on in plain text behind the close tag.
   */
  lemma {:induction false} StreamBody(body: string, close: string, rest: string, thinking: bool) returns (leak: string)
    requires NoCloseTag(body) && IsCloseTag(close)
    ensures StreamText(body + (close + rest), thinking) == leak + StreamText(rest, false)
    ensures thinking ==> (leak == "" <==> OnlyOpenTags(body))
    decreases |body|
  {
    hide StreamText, OpensAt, ClosesAt, TagAt, OnlyOpenTags, NoCloseTag, IsTag, TagPrefixLength;
    var after := close + rest;
    var s := body + after;
    CloseIsTag(close);
    TagShape(close);
    if body == "" {
      assert s == after;
      SkipTag(close, rest, thinking);
      EmptyBody();
      leak := "";
      assert leak + StreamText(rest, false) == StreamText(rest, false);
    } else if body[0] != '<' {
      AppendSlices(body, after, 1);
      HeadAndTail(s);
      SkipCharacter(body[0], body[1..] + after, thinking);
      BodySuffix(body, 1);
      var more := StreamBody(body[1..], close, rest, thinking);
      leak := (if thinking then "" else [body[0]]) + more;
      assert thinking ==> leak == more;
      Associate(if thinking then "" else [body[0]], more, StreamText(rest, false));
    } else {
      TagAtWithin(body, after);
      NotClosedAtHead(body);
      match TagAt(body)
      case None =>
        BadHead(body);
        SkipFalseTag(s, thinking);
        PrefixWithin(body, after);
        leak := LeakOfFalseTag(body, close, rest);
      case Some(t) =>
        TagAtIsPrefix(body);
        TagShape(t);
        AppendSlices(body, after, |t|);
        SplitAround(s, |t|);
        assert s[..|t|] == t;
        SkipTag(t, body[|t|..] + after, thinking);
        BodySuffix(body, |t|);
        CloseOrOpen(t);
        leak := StreamBody(body[|t|..], close, rest, true);
        assert forall i :: 1 <= i < |t| ==> body[i] != '<';
    }
  }

  lemma CloseOrOpen(t: string)
    requires IsTag(t)
    ensures IsOpenTag(t) <==> !IsCloseTag(t)
  {
  }

  /** Behind a false tag the rest of the body is read as text. */
  lemma LeakOfFalseTag(body: string, close: string, rest: string) returns (leak: string)
    requires NoCloseTag(body) && IsCloseTag(close) && body != ""
    ensures leak != ""
    ensures
      var s, n := body + (close + rest), TagPrefixLength(body);
      n < |s| && s[..n + 1] + StreamText(s[n + 1..], false) == leak + StreamText(rest, false)
    decreases |body|, 0
  {
    hide StreamText, OpensAt, ClosesAt, TagAt, OnlyOpenTags, NoCloseTag, IsTag, TagPrefixLength;
    var after := close + rest;
    var s, n := body + after, TagPrefixLength(body);
    CloseIsTag(close);
    TagShape(close);
    if n < |body| {
      AppendSlices(body, after, n + 1);
      BodySuffix(body, n + 1);
      var more := StreamBody(body[n + 1..], close, rest, false);
      leak := body[..n + 1] + more;
      Associate(body[..n + 1], more, StreamText(rest, false));
    } else {
      assert s[..n + 1] == body + "<" && s[n + 1..] == close[1..] + rest;
      SkipText(close[1..], rest);
      leak := body + "<" + close[1..];
      Associate(body + "<", close[1..], StreamText(rest, false));
    }
  }

  lemma CloseIsTag(close: string)
    requires IsCloseTag(close)
    ensures IsTag(close) && !IsOpenTag(close)
  {
  }

  lemma EmptyBody()
    ensures OnlyOpenTags("")
  {
  }

  lemma NotClosedAtHead(body: string)
    requires NoCloseTag(body) && body != ""
    ensures !ClosesAt(body, 0)
  {
  }

  lemma BadHead(body: string)
    requires body != "" && body[0] == '<' && !OpensAt(body, 0)
    ensures !OnlyOpenTags(body)
  {
  }

  /** Streaming reads a block as meant: nothing in front swallows its open tag, and nothing of its body leaks. */
  predicate ReadAsMeant(b: Block)
  {
    HeldBack(b.before) == "" && OnlyOpenTags(b.body)
  }

  predicate AllReadAsMeant(blocks: seq<Block>)
  {
    forall b :: b in blocks ==> ReadAsMeant(b)
  }

  /** Of a block the text in front becomes visible, and nothing else iff it is read as meant. */
  lemma StreamOneBlock(b: Block, rest: string) returns (leak: string)
    requires WellFormedBlock(b)
    ensures StreamText(b.before + (b.open + (b.body + (b.close + rest))), false)
         == b.before + leak + StreamText(rest, false)
    ensures leak == "" <==> ReadAsMeant(b)
  {
    hide StreamText, OnlyOpenTags, NoCloseTag, NoTags, IsOpenTag, IsCloseTag, HeldBack;
    var inner := b.body + (b.close + rest);
    OpenIsTag(b.open);
    StreamOfText(b.before, b.open + inner);
    if HeldBack(b.before) == "" {
      SkipTag(b.open, inner, false);
      leak := StreamBody(b.body, b.close, rest, true);
      Associate(b.before, leak, StreamText(rest, false));
    } else {
      var x := b.open[1..] + b.body;
      SwallowedOpen(b.open, b.body);
      AppendSlices(b.open, inner, 1);
      Associate(b.open[1..], b.body, b.close + rest);
      var more := StreamBody(x, b.close, rest, false);
      leak := "<" + more;
      Associate(b.before + "<", more, StreamText(rest, false));
      Associate(b.before, "<", more);
    }
  }

  lemma SwallowedOpen(open: string, body: string)
    requires IsOpenTag(open) && NoCloseTag(body)
    ensures NoCloseTag(open[1..] + body)
  {
    hide IsOpenTag, ClosesAt;
    OpenIsTag(open);
    TagShape(open);
    var s := open[1..] + body;
    forall i | 0 <= i < |s| ensures !ClosesAt(s, i) {
      if i < |open| - 1 {
        assert s[i] == open[i + 1] && s[i..][0] == s[i];
        NeedsAngle(s, i);
      } else {
        assert s[|open| - 1..] == body;
        SuffixPositions(s, |open| - 1, i - (|open| - 1));
      }
    }
  }

  lemma NeedsAngle(s: string, i: nat)
    requires i < |s| && s[i] != '<'
    ensures !ClosesAt(s, i)
  {
    assert s[i..][0] == s[i];
  }

  /** Streaming shows all the text outside the blocks, and more iff some block is not read as meant. */
  lemma {:induction false} StreamDocument(blocks: seq<Block>, tail: string)
    requires WellFormed(blocks, tail)
    ensures AllReadAsMeant(blocks) ==> StreamText(Render(blocks, tail), false) == Outside(blocks, tail)
    ensures !AllReadAsMeant(blocks) ==> |StreamText(Render(blocks, tail), false)| > |Outside(blocks, tail)|
    decreases |blocks|
  {
    hide StreamText, ReadAsMeant, WellFormedBlock, NoTags;
    if blocks == [] {
      StreamOfTail(tail);
    } else {
      StreamDocument(blocks[1..], tail);
      assert WellFormedBlock(blocks[0]);
      var leak := StreamOneBlock(blocks[0], Render(blocks[1..], tail));
      assert blocks[0].before + "" == blocks[0].before;
      assert AllReadAsMeant(blocks) <==> ReadAsMeant(blocks[0]) && AllReadAsMeant(blocks[1..]);
    }
  }

  lemma StreamNothing()
    ensures StreamText("", false) == ""
  {
  }

  /**
    Main result. For every chunking of a well-formed document, the streamed text is the document without its
    blocks exactly when no text in front of a block ends in the start of a tag, and each `<` inside a block body
    starts an open tag; batch stripping always gives that text, up to trimming.
   */
  lemma StreamingAgreesWithStrippingIff(blocks: seq<Block>, tail: string, chunks: seq<string>)
    requires WellFormed(blocks, tail)
    requires Flatten(chunks) == Render(blocks, tail)
    ensures StripXmlThinkingTags(Flatten(chunks)) == Trim(Outside(blocks, tail))
    ensures StreamedText(chunks) == Outside(blocks, tail) <==> AllReadAsMeant(blocks)
  {
    hide Tokens, PlainText, AllReadAsMeant, WellFormed, StripBlocks, Trim;
    TextIsChunkInvariant(chunks);
    StripDocument(blocks, tail);
    StreamDocument(blocks, tail);
  }

  // ----- Tags outside blocks -----

  /** A close tag that closes nothing: streaming drops it, stripping keeps it. */
  lemma StrayCloseTag(a: string, close: string, b: string, chunks: seq<string>)
    requires NoAngle(a) && NoAngle(b) && IsCloseTag(close) && Flatten(chunks) == a + (close + b)
    ensures StreamedText(chunks) == a + b
    ensures StripXmlThinkingTags(Flatten(chunks)) == Trim(a + (close + b))
  {
    hide Tokens, PlainText, StripBlocks, Trim, IsCloseTag, IsOpenTag, NoAngle, NoTags;
    TextIsChunkInvariant(chunks);
    CloseIsTag(close);
    SkipText(a, close + b);
    SkipTag(close, b, false);
    PlainEnd(b);
    NoAngleNoTags(a);
    NoAngleNoTags(b);
    TagShape(close);
    StripText(a, close + b);
    StripLoneTag(close, b);
  }

  /** A block that is never closed: streaming takes the rest for thinking, stripping keeps everything. */
  lemma UnclosedBlock(a: string, open: string, b: string, chunks: seq<string>)
    requires NoAngle(a) && NoAngle(b) && IsOpenTag(open) && Flatten(chunks) == a + (open + b)
    ensures StreamedText(chunks) == a
    ensures StripXmlThinkingTags(Flatten(chunks)) == Trim(a + (open + b))
  {
    hide Tokens, PlainText, StripBlocks, Trim, IsCloseTag, IsOpenTag, NoAngle, NoTags;
    TextIsChunkInvariant(chunks);
    OpenIsTag(open);
    SkipText(a, open + b);
    SkipTag(open, b, false);
    ThoughtEnd(b);
    NoAngleNoTags(a);
    TagShape(open);
    StripText(a, open + b);
    StripLoneTag(open, b);
    assert a + "" == a;
  }

  lemma NoAngleNoTags(s: string)
    requires NoAngle(s)
    ensures NoTags(s)
  {
    forall i | 0 <= i < |s| ensures !OpensAt(s, i) && !ClosesAt(s, i) {
      assert s[i..][0] == s[i];
    }
  }

  lemma PlainEnd(s: string)
    requires NoAngle(s)
    ensures StreamText(s, false) == s
  {
    SkipText(s, "");
    StreamNothing();
    assert s + "" == s;
  }

  lemma {:induction false} ThoughtEnd(s: string)
    requires NoAngle(s)
    ensures StreamText(s, true) == ""
    decreases |s|
  {
    hide StreamText;
    if s == "" {
      NothingThought();
    } else {
      HeadAndTail(s);
      SkipCharacter(s[0], s[1..], true);
      ThoughtEnd(s[1..]);
      assert "" + StreamText(s[1..], true) == StreamText(s[1..], true);
    }
  }

  lemma NothingThought()
    ensures StreamText("", true) == ""
  {
  }

  /** Without a close tag behind it nothing is stripped. */
  lemma {:induction false} NoClose(s: string)
    requires NoAngle(s)
    ensures FirstCloseEnd(s).None?
    decreases |s|
  {
    hide TagAt;
    if s != "" {
      TagAtNeedsAngle(s);
      NoClose(s[1..]);
    }
  }

  lemma StripLoneTag(t: string, b: string)
    requires IsTag(t) && NoAngle(b)
    ensures StripBlocks(t + b) == t + b
  {
    hide TagAt, IsTag, IsOpenTag, FirstCloseEnd, StripBlocks, NoAngle, NoTags;
    var s := t + b;
    LoneTagIsUnopened(t, b);
    StripUnopened(s);
    NoAngleBehindHead(t, b);
    NoAngleNoTags(s[1..]);
    StripText(s[1..], "");
    StripNothing();
    assert s[1..] + "" == s[1..];
    SplitAround(s, 1);
    assert s[..1] == [s[0]];
  }

  lemma LoneTagIsUnopened(t: string, b: string)
    requires IsTag(t) && NoAngle(b)
    ensures t + b != "" && BlockEnd(t + b).None?
  {
    hide TagAt, IsTag, IsOpenTag, FirstCloseEnd;
    TagShape(t);
    TagAtHead(t, b);
    AppendSlices(t, b, |t|);
    assert (t + b)[|t|..] == b;
    NoClose(b);
  }

  lemma NoAngleBehindHead(t: string, b: string)
    requires IsTag(t) && NoAngle(b)
    ensures NoAngle((t + b)[1..])
  {
    hide IsTag;
    TagShape(t);
    var s := t + b;
    forall i | 0 <= i < |s[1..]| ensures s[1..][i] != '<' {
      assert s[1..][i] == s[i + 1];
    }
  }

  lemma StripUnopened(s: string)
    requires s != "" && BlockEnd(s).None?
    ensures StripBlocks(s) == [s[0]] + StripBlocks(s[1..])
  {
  }

  // ----- Thinking text is not chunk-invariant -----

  function ThinkBlock(body: string): string
  {
    "<think>" + (body + "</think>")
  }

  lemma {:induction false} ReadThought(thinking: string, body: string)
    requires NoAngle(body)
    ensures Run(Norm(InThinking, "", thinking), body) == (Norm(InThinking, "", thinking + body), Output("", []))
    decreases |body|
  {
    if body == "" {
      assert thinking + body == thinking;
    } else {
      ReadThought(thinking + [body[0]], body[1..]);
      assert thinking + body == (thinking + [body[0]]) + body[1..];
    }
  }

  lemma ReadThinkBlock(body: string)
    requires NoAngle(body) && body != ""
    ensures Run(START, ThinkBlock(body)) == (START, Output("", [body]))
  {
    hide Run;
    RunAppend(START, "<think>", body + "</think>");
    ReadTag(Text, "", "<think>");
    RunAppend(Norm(InThinking, "", ""), body, "</think>");
    ReadThought("", body);
    assert "" + body == body;
    ReadTag(InThinking, body, "</think>");
    ThenLaws(Output("", [body]), Output("", []), Output("", []));
  }

  /** Two blocks in two chunks are both delivered; the same two blocks in one chunk lose the first. */
  lemma TwoBlocksInOneChunkLoseTheFirst(a: string, b: string)
    requires NoAngle(a) && NoAngle(b) && a != "" && b != ""
    ensures StreamedThinking([ThinkBlock(a), ThinkBlock(b)]) == a + b
    ensures StreamedThinking([ThinkBlock(a) + ThinkBlock(b)]) == b
  {
    hide Run, ThinkBlock;
    ReadThinkBlock(a);
    ReadThinkBlock(b);
    RunAppend(START, ThinkBlock(a), ThinkBlock(b));
    var both := [a] + [b];
    CallsOne(START, ThinkBlock(b));
    CallsOne(START, ThinkBlock(a) + ThinkBlock(b));
    assert [ThinkBlock(a), ThinkBlock(b)][1..] == [ThinkBlock(b)];
    assert [Output("", [a])] + [Output("", [b])] == [Output("", [a]), Output("", [b])];
    assert "" + "" == "";
    OneAfterTheOther(a, b);
    assert [Output("", both)][1..] == [];
  }

  lemma CallsOne(st: Norm, chunk: string)
    ensures Calls(st, [chunk]) == (Run(st, chunk).0, [Run(st, chunk).1])
  {
    hide Run;
    assert [chunk][1..] == [];
    assert Calls(Run(st, chunk).0, []) == (Run(st, chunk).0, []);
    assert [Run(st, chunk).1] + [] == [Run(st, chunk).1];
  }

  lemma OneAfterTheOther(a: string, b: string)
    ensures Thinkings([Output("", [a]), Output("", [b])]) == a + b
  {
    var outs := [Output("", [a]), Output("", [b])];
    assert outs[1..] == [Output("", [b])];
    assert Thinkings(outs[1..]) == b + Thinkings(outs[1..][1..]);
  }
}
