/** Transcript compaction: keep the system prefix and a tail, replace what lies between by one summary. */
module Compaction {
  import opened Prelude
  import opened ChatMessages

  // ----- System prefix -----

  function PrefixLength(ms: seq<ChatMessage>): (n: nat)
    ensures n <= |ms|
    ensures forall i :: 0 <= i < n ==> ms[i].role == System
    ensures n < |ms| ==> ms[n].role != System
  {
    if ms == [] || ms[0].role != System then 0 else 1 + PrefixLength(ms[1..])
  }

  method SplitSystemPrefix(messages: seq<ChatMessage>) returns (prefix: seq<ChatMessage>, rest: seq<ChatMessage>)
    ensures prefix + rest == messages && |prefix| == PrefixLength(messages)
    ensures (forall m :: m in prefix ==> m.role == System) && (rest != [] ==> rest[0].role != System)
  {
    prefix := [];
    var i := 0;
    while i < |messages| && messages[i].role == System
      invariant 0 <= i <= |messages| && prefix == messages[..i]
      invariant forall k :: 0 <= k < i ==> messages[k].role == System
    {
      prefix := prefix + [messages[i]];
      i := i + 1;
    }
    rest := messages[i..];
    assert i == PrefixLength(messages);
  }

  // ----- Orphaned tool results -----

  function ClaimedIds(ms: seq<ChatMessage>): set<string>
  {
    set m, id | m in ms && id in CalledIds(m) :: id
  }

  lemma ClaimedSnoc(ms: seq<ChatMessage>, m: ChatMessage)
    ensures ClaimedIds(ms + [m]) == ClaimedIds(ms) + CalledIds(m)
  {
    assert forall x :: x in ms + [m] <==> x in ms || x == m;
  }

  /** A tool result whose call id is claimed by no retained assistant turn. */
  predicate Orphan(m: ChatMessage, claimed: set<string>)
  {
    m.role == Tool && m.toolCallId.Some? && m.toolCallId.value !in claimed
  }

  /** Number of leading orphans. */
  function LeadingOrphans(ms: seq<ChatMessage>, claimed: set<string>): (n: nat)
    ensures n <= |ms|
    ensures forall i :: 0 <= i < n ==> Orphan(ms[i], claimed)
    ensures n < |ms| ==> !Orphan(ms[n], claimed)
  {
    if ms == [] || !Orphan(ms[0], claimed) then 0 else 1 + LeadingOrphans(ms[1..], claimed)
  }

  function Trimmed(tail: seq<ChatMessage>): (kept: seq<ChatMessage>)
    ensures |kept| <= |tail| && kept == tail[|tail| - |kept|..]
  {
    tail[LeadingOrphans(tail, ClaimedIds(tail))..]
  }

  method TrimOrphanedToolResults(tail: seq<ChatMessage>) returns (kept: seq<ChatMessage>)
    ensures kept == Trimmed(tail)
  {
    var claimedIds: set<string> := {};
    for i := 0 to |tail|
      invariant claimedIds == ClaimedIds(tail[..i])
    {
      assert tail[..i + 1] == tail[..i] + [tail[i]];
      ClaimedSnoc(tail[..i], tail[i]);
      if tail[i].role == Assistant && tail[i].toolCalls.Some? {
        claimedIds := claimedIds + (set c | c in tail[i].toolCalls.value :: c.id);
      }
    }
    assert tail[..|tail|] == tail;
    var start := 0;
    while start < |tail|
      invariant 0 <= start <= |tail|
      invariant forall i :: 0 <= i < start ==> Orphan(tail[i], claimedIds)
    {
      var m := tail[start];
      if m.role != Tool || m.toolCallId.None? || m.toolCallId.value in claimedIds {
        break;
      }
      start := start + 1;
    }
    assert start == LeadingOrphans(tail, claimedIds);
    kept := tail[start..];
  }

  // ----- Summaries -----

  const SUMMARY_OPEN: string := "<summary>"
  const SUMMARY_CLOSE: string := "</summary>"

  /** First position of `tag` in `s`, if it occurs. */
  function IndexOf(s: string, tag: string): (at: Option<nat>)
    ensures at.Some? ==> at.value + |tag| <= |s| && tag <= s[at.value..]
    ensures at.Some? ==> forall i :: 0 <= i < at.value ==> !(tag <= s[i..])
    ensures at.None? ==> forall i :: 0 <= i <= |s| ==> !(tag <= s[i..])
  {
    IndexFrom(s, tag, 0)
  }

  function IndexFrom(s: string, tag: string, from: nat): (at: Option<nat>)
    requires from <= |s| && forall i :: 0 <= i < from ==> !(tag <= s[i..])
    ensures at.Some? ==> from <= at.value && at.value + |tag| <= |s| && tag <= s[at.value..]
    ensures at.Some? ==> forall i :: 0 <= i < at.value ==> !(tag <= s[i..])
    ensures at.None? ==> forall i :: 0 <= i <= |s| ==> !(tag <= s[i..])
    decreases |s| - from
  {
    if tag <= s[from..] then Some(from)
    else if from == |s| then None
    else IndexFrom(s, tag, from + 1)
  }

  predicate Contains(s: string, tag: string)
  {
    IndexOf(s, tag).Some?
  }

  /** The text between the first open tag and the first close tag, if they come in this order. */
  function ExtractSummaryBlock(content: string): Option<string>
  {
    match (IndexOf(content, SUMMARY_OPEN), IndexOf(content, SUMMARY_CLOSE))
    case (Some(start), Some(end)) =>
      if end <= start then None
      else if start + |SUMMARY_OPEN| <= end then Some(content[start + |SUMMARY_OPEN|..end])
      else Some("")
    case _ => None
  }

  function FindPreviousSummary(ms: seq<ChatMessage>): Option<string>
  {
    if ms == [] then None
    else if ms[0].role == Assistant && ms[0].content.Text? && ExtractSummaryBlock(ms[0].content.text).Some?
    then ExtractSummaryBlock(ms[0].content.text)
    else FindPreviousSummary(ms[1..])
  }

  function SummaryBlock(summary: string): ChatMessage
  {
    ChatMessage(Assistant, Text(SUMMARY_OPEN + "\n" + Trim(summary) + "\n" + SUMMARY_CLOSE), None, None, None, None)
  }

  // ----- Compaction -----

  datatype Outcome = Outcome(compacted: bool, messages: seq<ChatMessage>)

  function NonSystem(ms: seq<ChatMessage>): seq<ChatMessage>
  {
    ms[PrefixLength(ms)..]
  }

  function Preserve(preserveRecentMessages: int): nat
  {
    if preserveRecentMessages < 0 then 0 else preserveRecentMessages
  }

  /** `rest.slice(-preserve)`: with `preserve == 0` this is the whole list, because `-0` is `0`. */
  function RawTail(rest: seq<ChatMessage>, preserve: nat): seq<ChatMessage>
    requires preserve < |rest|
  {
    if preserve == 0 then rest else rest[|rest| - preserve..]
  }

  /** `summarize` stands for the model call: it sees the messages cut out and the previous summary. */
  function Compact(ms: seq<ChatMessage>, preserveRecentMessages: int,
                   summarize: (seq<ChatMessage>, Option<string>) -> string): Outcome
  {
    var rest, preserve := NonSystem(ms), Preserve(preserveRecentMessages);
    if |rest| <= preserve then Outcome(false, ms)
    else Assembled(ms, ms[..PrefixLength(ms)], rest, Trimmed(RawTail(rest, preserve)), summarize)
  }

  function Assembled(ms: seq<ChatMessage>, prefix: seq<ChatMessage>, rest: seq<ChatMessage>, tail: seq<ChatMessage>,
                     summarize: (seq<ChatMessage>, Option<string>) -> string): Outcome
    requires |tail| <= |rest|
  {
    var middle := rest[..|rest| - |tail|];
    if middle == [] then Outcome(false, ms)
    else Outcome(true, prefix + [SummaryBlock(summarize(middle, FindPreviousSummary(ms)))] + tail)
  }

  lemma SplitIsNonSystem(ms: seq<ChatMessage>, prefix: seq<ChatMessage>, rest: seq<ChatMessage>)
    requires prefix + rest == ms && |prefix| == PrefixLength(ms)
    ensures prefix == ms[..PrefixLength(ms)] && rest == NonSystem(ms)
  {
    hide PrefixLength;
  }

  /** Compaction in terms of the split and the trimmed tail. */
  lemma CompactUnfolds(ms: seq<ChatMessage>, preserveRecentMessages: int,
                       summarize: (seq<ChatMessage>, Option<string>) -> string,
                       prefix: seq<ChatMessage>, rest: seq<ChatMessage>)
    requires prefix + rest == ms && |prefix| == PrefixLength(ms)
    ensures
      var preserve := Preserve(preserveRecentMessages);
      Compact(ms, preserveRecentMessages, summarize) ==
        if |rest| <= preserve then Outcome(false, ms)
        else Assembled(ms, prefix, rest, Trimmed(RawTail(rest, preserve)), summarize)
  {
    hide PrefixLength, NonSystem, Trimmed, RawTail, Assembled;
    SplitIsNonSystem(ms, prefix, rest);
  }

  lemma IsRawTail(rest: seq<ChatMessage>, preserve: nat)
    requires preserve < |rest|
    ensures RawTail(rest, preserve) == if preserve == 0 then rest else rest[|rest| - preserve..]
  {
  }

  method CompactTranscriptIfNeeded(messages: seq<ChatMessage>, preserveRecentMessages: int,
                                   summarize: (seq<ChatMessage>, Option<string>) -> string) returns (result: Outcome)
    ensures result == Compact(messages, preserveRecentMessages, summarize)
  {
    hide PrefixLength, Trimmed, FindPreviousSummary, SummaryBlock, ExtractSummaryBlock, Trim, NonSystem, RawTail,
      Compact;
    var prefix, rest := SplitSystemPrefix(messages);
    CompactUnfolds(messages, preserveRecentMessages, summarize, prefix, rest);
    var preserve := if preserveRecentMessages < 0 then 0 else preserveRecentMessages;
    if |rest| <= preserve {
      return Outcome(false, messages);
    }
    var rawTail := if preserve == 0 then rest else rest[|rest| - preserve..];
    assert rawTail == RawTail(rest, preserve) by { IsRawTail(rest, preserve); }
    var tail := TrimOrphanedToolResults(rawTail);
    var middle := rest[..|rest| - |tail|];
    if |middle| == 0 {
      return Outcome(false, messages);
    }
    var previousSummary := FindPreviousSummary(messages);
    return Outcome(true, prefix + [SummaryBlock(summarize(middle, previousSummary))] + tail);
  }
}
