/** The summary written by one compaction is what the next compaction merges with. */
module CompactionSummaries {
  import opened Prelude
  import opened ChatMessages
  import opened Compaction
  import opened CompactionProofs

  /** What the summary tags enclose: the summary on lines of its own. */
  function Enclosed(summary: string): string
  {
    "\n" + summary + "\n"
  }

  lemma FirstOccurrence(s: string, tag: string, at: nat)
    requires at <= |s| && tag <= s[at..]
    ensures IndexOf(s, tag).Some? && IndexOf(s, tag).value <= at
  {
  }

  /** A text of `at` characters in front of `s` moves occurrences by `at`. */
  lemma OccursBehind(front: string, s: string, back: string, tag: string, at: nat)
    requires at + |tag| <= |s|
    ensures tag <= (front + s + back)[|front| + at..] <==> tag <= s[at..]
  {
    var all := front + s + back;
    assert all[|front| + at..] == s[at..] + back;
    if tag <= s[at..] + back {
      assert s[at..][..|tag|] == (s[at..] + back)[..|tag|] == tag;
    }
    if tag <= s[at..] {
      assert tag == s[at..][..|tag|] == (s[at..] + back)[..|tag|];
    }
  }

  /** `close` can neither start inside `open` nor run across a line break. */
  predicate TagsAreSeparate(open: string, close: string)
  {
    |open| > 0 && |close| > 1 && open[|open| - 1] != close[0] && '\n' !in close &&
    forall i :: 0 <= i < |open| - 1 ==> open[i] != close[0] || open[i + 1] != close[1]
  }

  lemma CloseNotInOpen(open: string, back: string, close: string, at: nat)
    requires TagsAreSeparate(open, close) && at <= |open + back| && close <= (open + back)[at..]
    ensures at >= |open|
  {
    var all := open + back;
    assert all[at..][0] == all[at] && all[at..][1] == all[at + 1];
    assert all[..|open|] == open;
  }

  lemma CloseOnOneLine(s: string, close: string, at: nat, lineBreak: nat)
    requires at <= |s| && close <= s[at..] && '\n' !in close && lineBreak < |s| && s[lineBreak] == '\n'
    ensures at + |close| <= lineBreak || lineBreak < at
  {
    assert forall i :: 0 <= i < |close| ==> s[at + i] == s[at..][i] == close[i];
    assert lineBreak == at + (lineBreak - at);
  }

  /** Where the wrapped text closes: at the first close tag in the summary, else at the tag written behind it. */
  lemma WrappedCloses(open: string, close: string, summary: string)
    requires TagsAreSeparate(open, close)
    ensures var end := IndexOf(open + Enclosed(summary) + close, close);
      end.Some? && |open| <= end.value <= |open| + |Enclosed(summary)| &&
      (end.value == |open| + |Enclosed(summary)| <==> !Contains(summary, close))
  {
    hide TagsAreSeparate, IndexOf;
    var front, back := open + "\n", "\n" + close;
    var wrapped := open + Enclosed(summary) + close;
    assert wrapped == front + summary + back == open + (Enclosed(summary) + close);
    var last := |front| + |summary| + 1;
    assert wrapped[last..] == close;
    FirstOccurrence(wrapped, close, last);
    var end := IndexOf(wrapped, close).value;
    CloseNotInOpen(open, Enclosed(summary) + close, close, end);
    if Contains(summary, close) {
      var at := IndexOf(summary, close).value;
      OccursBehind(front, summary, back, close, at);
      FirstOccurrence(wrapped, close, |front| + at);
      CloseIsLong(open, close);
    } else {
      LastClose(open, close, summary, end);
    }
  }

  lemma CloseIsLong(open: string, close: string)
    requires TagsAreSeparate(open, close)
    ensures |close| > 1 && '\n' !in close
  {
  }

  /** Without a close tag in the summary the only one is the tag written behind it. */
  lemma LastClose(open: string, close: string, summary: string, end: nat)
    requires TagsAreSeparate(open, close) && !Contains(summary, close)
    requires |open| <= end <= |open| + |Enclosed(summary)|
    requires close <= (open + Enclosed(summary) + close)[end..]
    ensures end == |open| + |Enclosed(summary)|
  {
    hide TagsAreSeparate, IndexOf;
    var front, back := open + "\n", "\n" + close;
    var wrapped := open + Enclosed(summary) + close;
    assert wrapped == front + summary + back;
    CloseIsLong(open, close);
    CloseOnOneLine(wrapped, close, end, |open|);
    CloseOnOneLine(wrapped, close, end, |front| + |summary|);
    forall at | |front| <= at <= |front| + |summary| - |close| ensures !(close <= wrapped[at..]) {
      OccursBehind(front, summary, back, close, at - |front|);
    }
  }

  lemma SummaryTagsAreSeparate()
    ensures TagsAreSeparate(SUMMARY_OPEN, SUMMARY_CLOSE)
  {
  }

  /** A wrapped summary is always found again, and in full exactly when it holds no close tag itself. */
  lemma WrappedSummary(summary: string)
    ensures var found := ExtractSummaryBlock(SUMMARY_OPEN + Enclosed(summary) + SUMMARY_CLOSE);
      found.Some? && found.value <= Enclosed(summary) &&
      (found.value == Enclosed(summary) <==> !Contains(summary, SUMMARY_CLOSE))
  {
    hide Contains, Enclosed;
    var wrapped := SUMMARY_OPEN + Enclosed(summary) + SUMMARY_CLOSE;
    SummaryTagsAreSeparate();
    WrappedCloses(SUMMARY_OPEN, SUMMARY_CLOSE, summary);
    assert SUMMARY_OPEN <= wrapped[0..];
    FirstOccurrence(wrapped, SUMMARY_OPEN, 0);
    var end := IndexOf(wrapped, SUMMARY_CLOSE).value;
    assert wrapped[|SUMMARY_OPEN|..end] == Enclosed(summary)[..end - |SUMMARY_OPEN|];
  }

  ghost predicate FirstAt(content: string, tag: string, at: nat)
  {
    at <= |content| && tag <= content[at..] && forall i :: 0 <= i < at ==> !(tag <= content[i..])
  }

  lemma TagsApart(content: string, open: string, close: string, start: nat, end: nat)
    requires TagsAreSeparate(open, close) && start <= end <= |content|
    requires open <= content[start..] && close <= content[end..]
    ensures start + |open| <= end
  {
    assert forall k :: 0 <= k < |open| ==> content[start + k] == content[start..][k] == open[k];
    assert content[end] == content[end..][0] == close[0] && content[end + 1] == content[end..][1] == close[1];
  }

  /** A summary is read off a text iff its first close tag follows its first open tag; it is what lies between. */
  lemma ExtractedIff(content: string, start: nat, end: nat)
    requires FirstAt(content, SUMMARY_OPEN, start) && FirstAt(content, SUMMARY_CLOSE, end)
    ensures start < end ==> start + 9 <= end
    ensures ExtractSummaryBlock(content) == if start < end then Some(content[start + 9..end]) else None
  {
    hide IndexOf, TagsAreSeparate;
    FoundFirst(content, SUMMARY_OPEN, start);
    FoundFirst(content, SUMMARY_CLOSE, end);
    SummaryTagsAreSeparate();
    if start <= end {
      TagsApart(content, SUMMARY_OPEN, SUMMARY_CLOSE, start, end);
    }
  }

  lemma FoundFirst(content: string, tag: string, at: nat)
    requires FirstAt(content, tag, at)
    ensures IndexOf(content, tag) == Some(at)
  {
    FirstOccurrence(content, tag, at);
  }

  /** A text that lacks one of the tags holds no summary. */
  lemma NoTagNoSummary(content: string, tag: string)
    requires tag == SUMMARY_OPEN || tag == SUMMARY_CLOSE
    requires forall i :: 0 <= i <= |content| ==> !(tag <= content[i..])
    ensures ExtractSummaryBlock(content) == None
  {
    hide IndexOf;
    assert IndexOf(content, tag).None?;
  }

  /** The summary merged with is that of the first assistant message that holds one in plain text. */
  lemma {:induction false} PreviousSummaryIff(ms: seq<ChatMessage>)
    ensures FindPreviousSummary(ms).None? <==>
      forall i :: 0 <= i < |ms| ==> !HoldsSummary(ms[i])
    ensures FindPreviousSummary(ms).Some? ==>
      exists i :: 0 <= i < |ms| && HoldsSummary(ms[i]) && (forall j :: 0 <= j < i ==> !HoldsSummary(ms[j])) &&
                  FindPreviousSummary(ms) == ExtractSummaryBlock(ms[i].content.text)
  {
    hide ExtractSummaryBlock;
    if ms != [] && !HoldsSummary(ms[0]) {
      PreviousSummaryIff(ms[1..]);
      if FindPreviousSummary(ms).Some? {
        var rest := ms[1..];
        var i :| 0 <= i < |rest| && HoldsSummary(rest[i]) && (forall j :: 0 <= j < i ==> !HoldsSummary(rest[j])) &&
                 FindPreviousSummary(rest) == ExtractSummaryBlock(rest[i].content.text);
        forall j | 0 <= j < i + 1 ensures !HoldsSummary(ms[j]) {
          assert j > 0 ==> ms[j] == rest[j - 1];
        }
        assert HoldsSummary(ms[i + 1]);
      }
    }
  }

  predicate HoldsSummary(m: ChatMessage)
  {
    match m
    case ChatMessage(Assistant, Text(text), _, _, _, _) => ExtractSummaryBlock(text).Some?
    case _ => false
  }

  lemma {:induction false} SystemHoldsNoSummary(system: seq<ChatMessage>, rest: seq<ChatMessage>)
    requires forall i :: 0 <= i < |system| ==> system[i].role == System
    ensures FindPreviousSummary(system + rest) == FindPreviousSummary(rest)
  {
    hide ExtractSummaryBlock;
    if system == [] {
      assert system + rest == rest;
    } else {
      assert (system + rest)[1..] == system[1..] + rest;
      SystemHoldsNoSummary(system[1..], rest);
    }
  }

  /**
    The chain of summaries: after a compaction the next one finds the summary just written, and finds all of it
    exactly when the model's answer does not itself contain the closing tag.
   */
  lemma SummaryIsCarriedOver(ms: seq<ChatMessage>, preserve: int, summarize: Summarizer)
    requires Compacts(ms, preserve)
    ensures
      var answer := Trim(summarize(Middle(ms, preserve), FindPreviousSummary(ms)));
      var found := FindPreviousSummary(Compact(ms, preserve, summarize).messages);
      found.Some? && found.value <= Enclosed(answer) &&
      (found.value == Enclosed(answer) <==> !Contains(answer, SUMMARY_CLOSE))
  {
    hide Trim, PrefixLength, Contains, FindPreviousSummary, Trimmed, Compact, Middle, Tail, SummaryBlock;
    CompactionShape(ms, preserve, summarize);
    var system, tail := ms[..PrefixLength(ms)], Tail(ms, preserve);
    var raw := summarize(Middle(ms, preserve), FindPreviousSummary(ms));
    Associate(system, [SummaryBlock(raw)], tail);
    SystemHoldsNoSummary(system, [SummaryBlock(raw)] + tail);
    SummaryComesFirst(raw, tail);
  }

  /** Behind the system prefix the new summary is the first one found. */
  lemma SummaryComesFirst(raw: string, tail: seq<ChatMessage>)
    ensures
      var found := FindPreviousSummary([SummaryBlock(raw)] + tail);
      found.Some? && found.value <= Enclosed(Trim(raw)) &&
      (found.value == Enclosed(Trim(raw)) <==> !Contains(Trim(raw), SUMMARY_CLOSE))
  {
    hide Trim, Contains, ExtractSummaryBlock;
    WrappedSummary(Trim(raw));
    assert SummaryBlock(raw).content.text == SUMMARY_OPEN + Enclosed(Trim(raw)) + SUMMARY_CLOSE;
    ConsTail(SummaryBlock(raw), tail);
  }
}
