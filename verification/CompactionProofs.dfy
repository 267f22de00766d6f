/** Compaction keeps the transcript's shape: what is cut, what is kept, and when calls and results stay paired. */
module CompactionProofs {
  import opened Prelude
  import opened ChatMessages
  import opened Compaction

  type Summarizer = (seq<ChatMessage>, Option<string>) -> string

  /** The kept tail of a compaction that happens. */
  function Tail(ms: seq<ChatMessage>, preserve: int): seq<ChatMessage>
    requires Preserve(preserve) < |NonSystem(ms)|
  {
    Trimmed(RawTail(NonSystem(ms), Preserve(preserve)))
  }

  /** What is summarised away. */
  function Middle(ms: seq<ChatMessage>, preserve: int): seq<ChatMessage>
    requires Preserve(preserve) < |NonSystem(ms)|
  {
    NonSystem(ms)[..|NonSystem(ms)| - |Tail(ms, preserve)|]
  }

  /** What stands in front of the tail afterwards: the system prefix and the summary. */
  function Front(ms: seq<ChatMessage>, preserve: int, summarize: Summarizer): seq<ChatMessage>
    requires Preserve(preserve) < |NonSystem(ms)|
  {
    ms[..PrefixLength(ms)] + [SummaryBlock(summarize(Middle(ms, preserve), FindPreviousSummary(ms)))]
  }

  /** There is more than what is to be preserved, and something is left to summarise. */
  predicate Compacts(ms: seq<ChatMessage>, preserve: int)
  {
    Preserve(preserve) < |NonSystem(ms)| && |Tail(ms, preserve)| < |NonSystem(ms)|
  }

  lemma CompactsIff(ms: seq<ChatMessage>, preserve: int, summarize: Summarizer)
    ensures Compact(ms, preserve, summarize).compacted <==> Compacts(ms, preserve)
  {
    hide SummaryBlock, FindPreviousSummary, Trimmed, PrefixLength, NonSystem;
    if Preserve(preserve) < |NonSystem(ms)| {
      assert |Middle(ms, preserve)| == |NonSystem(ms)| - |Tail(ms, preserve)|;
    }
  }

  lemma CompactionParts(ms: seq<ChatMessage>, preserve: int, summarize: Summarizer)
    requires Compacts(ms, preserve)
    ensures Middle(ms, preserve) != []
    ensures Compact(ms, preserve, summarize).messages == Front(ms, preserve, summarize) + Tail(ms, preserve)
  {
    hide SummaryBlock, FindPreviousSummary, Trimmed, PrefixLength, NonSystem, RawTail;
  }

  lemma TailIsSuffix(ms: seq<ChatMessage>, preserve: int)
    requires Preserve(preserve) < |NonSystem(ms)|
    ensures
      var rest, tail := NonSystem(ms), Tail(ms, preserve);
      |tail| <= |rest| <= |ms| && tail == rest[|rest| - |tail|..] && tail == ms[|ms| - |tail|..] &&
      (preserve >= 1 ==> |tail| <= preserve)
  {
    hide Trimmed, PrefixLength;
    var rest, tail := NonSystem(ms), Tail(ms, preserve);
    SuffixOfSuffix(rest, RawTail(rest, Preserve(preserve)), tail);
    SuffixOfSuffix(ms, rest, tail);
  }

  /** The output is the system prefix, one summary and a suffix of the input, and it is never longer than the input. */
  lemma CompactionShape(ms: seq<ChatMessage>, preserve: int, summarize: Summarizer)
    requires Compacts(ms, preserve)
    ensures Compact(ms, preserve, summarize).compacted
    ensures ms == ms[..PrefixLength(ms)] + Middle(ms, preserve) + Tail(ms, preserve)
    ensures Middle(ms, preserve) != [] && Middle(ms, preserve)[0].role != System
    ensures Compact(ms, preserve, summarize).messages == Front(ms, preserve, summarize) + Tail(ms, preserve)
    ensures |Compact(ms, preserve, summarize).messages| <= |ms|
    ensures preserve >= 1 ==> |Tail(ms, preserve)| <= preserve
  {
    hide SummaryBlock, FindPreviousSummary, PrefixLength, Tail, Compact;
    CompactsIff(ms, preserve, summarize);
    CompactionParts(ms, preserve, summarize);
    TailIsSuffix(ms, preserve);
    var rest := NonSystem(ms);
    SplitAround(ms, PrefixLength(ms));
    SplitAround(rest, |rest| - |Tail(ms, preserve)|);
    Associate(ms[..PrefixLength(ms)], Middle(ms, preserve), Tail(ms, preserve));
  }

  lemma SuffixOfSuffix<T>(s: seq<T>, t: seq<T>, u: seq<T>)
    requires |u| <= |t| <= |s| && t == s[|s| - |t|..] && u == t[|t| - |u|..]
    ensures u == s[|s| - |u|..]
  {
  }

  // ----- Suffixes of paired transcripts -----

  /** Number of tool results a list starts with. */
  function LeadingTools(ms: seq<ChatMessage>): (n: nat)
    ensures n <= |ms|
    ensures forall i :: 0 <= i < n ==> ms[i].role == Tool
    ensures n < |ms| ==> ms[n].role != Tool
  {
    if ms == [] || ms[0].role != Tool then 0 else 1 + LeadingTools(ms[1..])
  }

  /** Pairs inside `ms[k..]` are the pairs of `ms` that lie behind `k`. */
  lemma AnswersInSuffix(ms: seq<ChatMessage>, k: nat, j: nat, i: nat)
    requires k <= |ms| && k + i < |ms|
    ensures Answers(ms[k..], j, i) <==> Answers(ms, k + j, k + i)
  {
    var tail := ms[k..];
    assert tail[i] == ms[k + i];
    if j < i {
      assert tail[j] == ms[k + j];
      if ToolsBetween(tail, j + 1, i) {
        forall x | k + j + 1 <= x < k + i ensures ms[x].role == Tool {
          assert tail[x - k].role == Tool;
        }
      }
      if ToolsBetween(ms, k + j + 1, k + i) {
        forall x | j + 1 <= x < i ensures tail[x].role == Tool {
          assert ms[k + x].role == Tool;
        }
      }
    }
  }

  /** Pairs do not change when other messages are put in front. */
  lemma AnswersBehind(front: seq<ChatMessage>, tail: seq<ChatMessage>, j: nat, i: nat)
    requires i < |tail|
    ensures Answers(tail, j, i) <==> Answers(front + tail, |front| + j, |front| + i)
  {
    assert (front + tail)[|front|..] == tail;
    AnswersInSuffix(front + tail, |front|, j, i);
  }

  /** Only results in the leading run of tools can be separated from their call. */
  lemma CutKeepsLaterPairs(ms: seq<ChatMessage>, k: nat, i: nat)
    requires k + i < |ms| && ms[k + i].role == Tool && HasCall(ms, k + i)
    requires LeadingTools(ms[k..]) <= i
    ensures HasCall(ms[k..], i)
  {
    var j: nat :| j < k + i && Answers(ms, j, k + i);
    var lead := LeadingTools(ms[k..]);
    assert ms[k..][lead] == ms[k + lead] && ms[k + lead].role != Tool;
    assert j >= k + lead;
    AnswersInSuffix(ms, k, j - k, i);
    assert Answers(ms[k..], j - k, i);
  }

  /** Tool results open no calls, so nothing in the leading run has its call behind the cut. */
  lemma LeadingResultHasNoCall(tail: seq<ChatMessage>, i: nat)
    requires i < LeadingTools(tail)
    ensures !HasCall(tail, i)
  {
    forall j: nat | j < i ensures !Answers(tail, j, i) {
      assert CalledIds(tail[j]) == {};
    }
  }

  /** Nothing in `front` is a tool result or opens a call. */
  ghost predicate NeutralFront(front: seq<ChatMessage>)
  {
    forall i :: 0 <= i < |front| ==> front[i].role != Tool && CalledIds(front[i]) == {}
  }

  lemma HasCallBehindNeutral(front: seq<ChatMessage>, tail: seq<ChatMessage>, p: nat)
    requires NeutralFront(front) && p < |tail|
    ensures HasCall(front + tail, |front| + p) <==> HasCall(tail, p)
  {
    var all := front + tail;
    assert all[..|front|] == front;
    if HasCall(tail, p) {
      var q: nat :| q < p && Answers(tail, q, p);
      AnswersBehind(front, tail, q, p);
      assert Answers(all, |front| + q, |front| + p);
    }
    if HasCall(all, |front| + p) {
      var j: nat :| j < |front| + p && Answers(all, j, |front| + p);
      assert j >= |front|;
      AnswersBehind(front, tail, j - |front|, p);
    }
  }

  lemma PairedBehindNeutral(front: seq<ChatMessage>, tail: seq<ChatMessage>)
    requires NeutralFront(front)
    ensures ResultsPaired(front + tail) <==> ResultsPaired(tail)
  {
    hide HasCall;
    var all := front + tail;
    assert all[..|front|] == front;
    forall p: nat | p < |tail|
      ensures all[|front| + p] == tail[p] && (HasCall(all, |front| + p) <==> HasCall(tail, p))
    {
      HasCallBehindNeutral(front, tail, p);
    }
    if ResultsPaired(tail) {
      forall i | 0 <= i < |all| && all[i].role == Tool ensures HasCall(all, i) {
        assert i >= |front|;
        assert all[|front| + (i - |front|)] == tail[i - |front|];
      }
    }
    if ResultsPaired(all) {
      forall p | 0 <= p < |tail| && tail[p].role == Tool ensures HasCall(tail, p) {
        assert all[|front| + p] == tail[p];
      }
    }
  }

  // ----- When results stay paired -----

  /** Some result whose call is cut away carries an id that a retained assistant turn claims. */
  ghost predicate ClaimsLeadingResult(tail: seq<ChatMessage>)
  {
    exists i :: 0 <= i < LeadingTools(tail) && tail[i].toolCallId.Some? && tail[i].toolCallId.value in ClaimedIds(tail)
  }

  lemma ResultsCarryIds(ms: seq<ChatMessage>, k: nat)
    requires ResultsPaired(ms) && k <= |ms|
    ensures var tail := ms[k..]; forall i :: 0 <= i < |tail| && tail[i].role == Tool ==> tail[i].toolCallId.Some?
  {
    var tail := ms[k..];
    forall i | 0 <= i < |tail| && tail[i].role == Tool ensures tail[i].toolCallId.Some? {
      assert tail[i] == ms[k + i];
      assert HasCall(ms, k + i);
    }
  }

  /** Some assistant message from `from` on makes the call. */
  ghost predicate CalledIn(ms: seq<ChatMessage>, from: nat, id: string)
  {
    exists i, k :: from <= i < |ms| && ms[i].role == Assistant && ms[i].toolCalls.Some? &&
      0 <= k < |ms[i].toolCalls.value| && ms[i].toolCalls.value[k].id == id
  }

  lemma ClaimedIff(ms: seq<ChatMessage>, from: nat, id: string)
    requires from <= |ms| && forall i :: 0 <= i < from ==> ms[i].role == Tool
    ensures id in ClaimedIds(ms) <==> CalledIn(ms, from, id)
  {
    if id in ClaimedIds(ms) {
      var m :| m in ms && id in CalledIds(m);
      var i :| 0 <= i < |ms| && ms[i] == m;
      var c :| c in m.toolCalls.value && c.id == id;
      var k :| 0 <= k < |m.toolCalls.value| && m.toolCalls.value[k] == c;
      assert from <= i;
    }
    if CalledIn(ms, from, id) {
      var i, k :| from <= i < |ms| && ms[i].role == Assistant && ms[i].toolCalls.Some? &&
                  0 <= k < |ms[i].toolCalls.value| && ms[i].toolCalls.value[k].id == id;
      assert ms[i].toolCalls.value[k].id in CalledIds(ms[i]);
      assert ms[i] in ms;
    }
  }

  /** The tail loses exactly its leading tool results that name a call no message left in the tail makes. */
  lemma TrimmedIsLongest(tail: seq<ChatMessage>)
    ensures
      var cut := |tail| - |Trimmed(tail)|;
      Trimmed(tail) == tail[cut..] &&
      (forall i :: 0 <= i < cut ==>
         tail[i].role == Tool && tail[i].toolCallId.Some? && !CalledIn(tail, cut, tail[i].toolCallId.value)) &&
      (cut < |tail| ==>
         tail[cut].role != Tool || tail[cut].toolCallId.None? || CalledIn(tail, cut, tail[cut].toolCallId.value))
  {
    hide ClaimedIds, CalledIn;
    var cut := |tail| - |Trimmed(tail)|;
    assert cut == LeadingOrphans(tail, ClaimedIds(tail));
    forall i | 0 <= i < cut ensures !CalledIn(tail, cut, tail[i].toolCallId.value) {
      ClaimedIff(tail, cut, tail[i].toolCallId.value);
    }
    if cut < |tail| && tail[cut].toolCallId.Some? {
      ClaimedIff(tail, cut, tail[cut].toolCallId.value);
    }
  }

  /** Trimming removes the whole leading run of results unless one of its ids is claimed again. */
  lemma TrimmedRun(tail: seq<ChatMessage>)
    requires forall i :: 0 <= i < |tail| && tail[i].role == Tool ==> tail[i].toolCallId.Some?
    ensures LeadingOrphans(tail, ClaimedIds(tail)) <= LeadingTools(tail)
    ensures LeadingOrphans(tail, ClaimedIds(tail)) == LeadingTools(tail) <==> !ClaimsLeadingResult(tail)
  {
    hide ClaimedIds;
    var claimed := ClaimedIds(tail);
    var n, lead := LeadingOrphans(tail, claimed), LeadingTools(tail);
    assert forall i :: 0 <= i < n ==> Orphan(tail[i], claimed);
    assert n <= lead;
    assert n < lead ==> tail[n].toolCallId.value in claimed;
  }

  /** Cutting where no result is left over keeps pairing. */
  lemma CutAtTurnIsPaired(ms: seq<ChatMessage>, k: nat, lead: nat)
    requires ResultsPaired(ms) && k <= |ms| && lead == LeadingTools(ms[k..])
    ensures ResultsPaired(ms[k + lead..])
  {
    hide HasCall;
    var kept := ms[k + lead..];
    assert kept != [] ==> kept[0] == ms[k..][lead];
    assert LeadingTools(kept) == 0;
    forall i | 0 <= i < |kept| && kept[i].role == Tool ensures HasCall(kept, i) {
      assert kept[i] == ms[k + lead + i];
      CutKeepsLaterPairs(ms, k + lead, i);
    }
  }

  lemma TailPairedIff(ms: seq<ChatMessage>, k: nat)
    requires ResultsPaired(ms) && k <= |ms|
    ensures ResultsPaired(Trimmed(ms[k..])) <==> !ClaimsLeadingResult(ms[k..])
  {
    hide ClaimsLeadingResult, ClaimedIds, HasCall, LeadingOrphans, Orphan;
    var tail := ms[k..];
    var n, lead := LeadingOrphans(tail, ClaimedIds(tail)), LeadingTools(tail);
    ResultsCarryIds(ms, k);
    TrimmedRun(tail);
    var kept := Trimmed(tail);
    DropTwice(ms, k, n);
    if n == lead {
      CutAtTurnIsPaired(ms, k, lead);
    } else {
      assert kept[0] == tail[n] && LeadingTools(kept) > 0;
      LeadingResultHasNoCall(kept, 0);
    }
  }

  lemma SystemPrefixIsNeutral(ms: seq<ChatMessage>)
    ensures NeutralFront(ms[..PrefixLength(ms)])
  {
  }

  lemma NonSystemPaired(ms: seq<ChatMessage>)
    requires ResultsPaired(ms)
    ensures ResultsPaired(NonSystem(ms))
  {
    hide ResultsPaired;
    var n := PrefixLength(ms);
    assert ms == ms[..n] + ms[n..];
    SystemPrefixIsNeutral(ms);
    PairedBehindNeutral(ms[..n], ms[n..]);
  }

  lemma SummaryCallsNothing(summary: string)
    ensures SummaryBlock(summary).role == Assistant && CalledIds(SummaryBlock(summary)) == {}
  {
    hide Trim;
  }

  lemma FrontIsNeutral(ms: seq<ChatMessage>, preserve: int, summarize: Summarizer)
    requires Preserve(preserve) < |NonSystem(ms)|
    ensures NeutralFront(Front(ms, preserve, summarize))
  {
    hide FindPreviousSummary, Middle, SummaryBlock, CalledIds, PrefixLength;
    SystemPrefixIsNeutral(ms);
    SummaryCallsNothing(summarize(Middle(ms, preserve), FindPreviousSummary(ms)));
  }

  /**
    Main result. A compaction of a paired transcript leaves every tool result paired exactly when no retained
    assistant turn claims the id of a result whose own call was cut away.
   */
  lemma ResultsStayPairedIff(ms: seq<ChatMessage>, preserve: int, summarize: Summarizer)
    requires ResultsPaired(ms) && Compacts(ms, preserve)
    ensures ResultsPaired(Compact(ms, preserve, summarize).messages)
       <==> !ClaimsLeadingResult(RawTail(NonSystem(ms), Preserve(preserve)))
  {
    hide FindPreviousSummary, Trimmed, ClaimsLeadingResult, ResultsPaired, SummaryBlock, PrefixLength, NeutralFront,
      Front;
    CompactionShape(ms, preserve, summarize);
    NonSystemPaired(ms);
    var rest := NonSystem(ms);
    var raw := RawTail(rest, Preserve(preserve));
    RawTailIsSuffix(rest, Preserve(preserve));
    TailPairedIff(rest, |rest| - |raw|);
    FrontIsNeutral(ms, preserve, summarize);
    PairedBehindNeutral(Front(ms, preserve, summarize), Trimmed(raw));
  }

  lemma CallInFrontOfCut(ms: seq<ChatMessage>, k: nat, j: nat, i: nat)
    requires k <= |ms| && k + i < |ms| && Answers(ms, j, k + i) && !HasCall(ms[k..], i)
    ensures j < k
  {
    var at := k + i;
    forall r: nat | k <= r < at ensures !Answers(ms, r, at) {
      AnswersInSuffix(ms, k, r - k, i);
    }
  }

  /** With call ids used once, a cut-away call is claimed nowhere else. */
  lemma UniqueIdsClaimNothing(ms: seq<ChatMessage>, k: nat)
    requires ResultsPaired(ms) && UniqueCallIds(ms) && k <= |ms|
    ensures !ClaimsLeadingResult(ms[k..])
  {
    var tail := ms[k..];
    forall i | 0 <= i < LeadingTools(tail) && tail[i].toolCallId.Some?
      ensures tail[i].toolCallId.value !in ClaimedIds(tail)
    {
      assert ms[k + i] == tail[i];
      assert HasCall(ms, k + i);
      var j: nat :| j < k + i && Answers(ms, j, k + i);
      assert j < k by {
        LeadingResultHasNoCall(tail, i);
        CallInFrontOfCut(ms, k, j, i);
      }
      forall m | m in tail ensures tail[i].toolCallId.value !in CalledIds(m) {
        var x :| 0 <= x < |tail| && tail[x] == m;
        assert ms[k + x] == m;
        assert CalledIds(ms[j]) !! CalledIds(ms[k + x]);
      }
    }
  }

  // ----- Calls stay answered, ids stay unique -----

  lemma CallsAnsweredBehind(ms: seq<ChatMessage>, front: seq<ChatMessage>, k: nat)
    requires CallsAnswered(ms) && NeutralFront(front) && k <= |ms|
    ensures CallsAnswered(front + ms[k..])
  {
    hide Answers;
    var tail := ms[k..];
    var all := front + tail;
    assert all[..|front|] == front;
    forall j, id | 0 <= j < |all| && id in CalledIds(all[j]) ensures HasResult(all, j, id) {
      assert j >= |front|;
      var q := j - |front|;
      assert all[j] == tail[q] == ms[k + q];
      assert HasResult(ms, k + q, id);
      var i: nat :| k + q < i < |ms| && Answers(ms, k + q, i) && ms[i].toolCallId == Some(id);
      AnswersInSuffix(ms, k, q, i - k);
      AnswersBehind(front, tail, q, i - k);
      assert all[|front| + (i - k)] == ms[i];
      assert Answers(all, j, |front| + (i - k));
    }
  }

  lemma UniqueBehind(ms: seq<ChatMessage>, front: seq<ChatMessage>, k: nat)
    requires UniqueCallIds(ms) && NeutralFront(front) && k <= |ms|
    ensures UniqueCallIds(front + ms[k..])
  {
    hide CalledIds;
    var all := front + ms[k..];
    forall i, j | 0 <= i < j < |all| ensures CalledIds(all[i]) !! CalledIds(all[j]) {
      if i < |front| {
        assert all[i] == front[i];
      } else {
        assert all[i] == ms[k + (i - |front|)] && all[j] == ms[k + (j - |front|)];
      }
    }
  }

  /** With unique ids, compaction keeps pairing and uniqueness, answered or not. */
  lemma CompactionKeepsPairs(ms: seq<ChatMessage>, preserve: int, summarize: Summarizer)
    requires ResultsPaired(ms) && UniqueCallIds(ms)
    ensures
      var after := Compact(ms, preserve, summarize).messages;
      ResultsPaired(after) && UniqueCallIds(after)
  {
    hide FindPreviousSummary, ClaimsLeadingResult, ResultsPaired, UniqueCallIds, PrefixLength,
         Front, NeutralFront, Trimmed, SummaryBlock, Tail, Middle, NonSystem, Compact;
    CompactsIff(ms, preserve, summarize);
    if Compacts(ms, preserve) {
      CompactionShape(ms, preserve, summarize);
      ResultsStayPairedIff(ms, preserve, summarize);
      var rest := NonSystem(ms);
      NonSystemKeeps(ms);
      RawTailIsSuffix(rest, Preserve(preserve));
      UniqueIdsClaimNothing(rest, |rest| - |RawTail(rest, Preserve(preserve))|);
      TailIsSuffix(ms, preserve);
      FrontIsNeutral(ms, preserve, summarize);
      UniqueBehind(ms, Front(ms, preserve, summarize), |ms| - |Tail(ms, preserve)|);
    } else {
      NotCompactedIsUnchanged(ms, preserve, summarize);
    }
  }

  /** Compaction takes well-formed transcripts to well-formed transcripts, so any number of compactions does. */
  lemma CompactionKeepsWellFormed(ms: seq<ChatMessage>, preserve: int, summarize: Summarizer)
    requires WellFormed(ms)
    ensures WellFormed(Compact(ms, preserve, summarize).messages)
  {
    hide FindPreviousSummary, ResultsPaired, CallsAnswered, UniqueCallIds, PrefixLength, Front, NeutralFront, Trimmed,
         SummaryBlock, Tail, Middle, NonSystem, Compact;
    CompactionKeepsPairs(ms, preserve, summarize);
    CompactsIff(ms, preserve, summarize);
    if Compacts(ms, preserve) {
      CompactionShape(ms, preserve, summarize);
      TailIsSuffix(ms, preserve);
      FrontIsNeutral(ms, preserve, summarize);
      CallsAnsweredBehind(ms, Front(ms, preserve, summarize), |ms| - |Tail(ms, preserve)|);
    } else {
      NotCompactedIsUnchanged(ms, preserve, summarize);
    }
  }

  lemma NotCompactedIsUnchanged(ms: seq<ChatMessage>, preserve: int, summarize: Summarizer)
    requires !Compact(ms, preserve, summarize).compacted
    ensures Compact(ms, preserve, summarize).messages == ms
  {
    hide SummaryBlock, FindPreviousSummary, Trimmed, PrefixLength, NonSystem, RawTail;
  }

  lemma NonSystemKeeps(ms: seq<ChatMessage>)
    requires ResultsPaired(ms) && UniqueCallIds(ms)
    ensures ResultsPaired(NonSystem(ms)) && UniqueCallIds(NonSystem(ms))
  {
    hide ResultsPaired, UniqueCallIds, NeutralFront, PrefixLength;
    NonSystemPaired(ms);
    NothingIsNeutral();
    UniqueBehind(ms, [], PrefixLength(ms));
    assert [] + NonSystem(ms) == NonSystem(ms);
  }

  lemma RawTailIsSuffix(rest: seq<ChatMessage>, preserve: nat)
    requires preserve < |rest|
    ensures |RawTail(rest, preserve)| <= |rest|
    ensures RawTail(rest, preserve) == rest[|rest| - |RawTail(rest, preserve)|..]
  {
  }

  lemma NothingIsNeutral()
    ensures NeutralFront([])
  {
  }

  // ----- Preserving nothing preserves everything -----

  lemma FirstIsNoResult(ms: seq<ChatMessage>)
    requires ResultsPaired(ms)
    ensures ms != [] ==> ms[0].role != Tool
  {
  }

  /** With `preserve <= 0` a paired transcript is never compacted, however long it is. */
  lemma PreserveZeroDoesNothing(ms: seq<ChatMessage>, preserve: int, summarize: Summarizer)
    requires ResultsPaired(ms) && preserve <= 0
    ensures Compact(ms, preserve, summarize) == Outcome(false, ms)
  {
    hide FindPreviousSummary, SummaryBlock;
    NonSystemPaired(ms);
    var rest := NonSystem(ms);
    FirstIsNoResult(rest);
    assert LeadingOrphans(rest, ClaimedIds(rest)) == 0;
  }

  /** A paired transcript is compacted iff a positive number of messages is to be preserved and there are more. */
  lemma CompactedIff(ms: seq<ChatMessage>, preserve: int, summarize: Summarizer)
    requires ResultsPaired(ms)
    ensures Compact(ms, preserve, summarize).compacted <==> 1 <= preserve < |NonSystem(ms)|
  {
    hide SummaryBlock, FindPreviousSummary, Compact, NonSystem, Tail, ResultsPaired;
    CompactsIff(ms, preserve, summarize);
    if preserve <= 0 {
      PreserveZeroDoesNothing(ms, preserve, summarize);
    } else if preserve < |NonSystem(ms)| {
      TailIsSuffix(ms, preserve);
    }
  }

  lemma LastOfRest<T>(s: seq<T>, k: nat, n: nat)
    requires k + n <= |s|
    ensures s[k..][|s| - k - n..] == s[|s| - n..]
  {
  }

  lemma TailIsTrimmed(ms: seq<ChatMessage>, preserve: int)
    requires 1 <= preserve < |ms| - PrefixLength(ms)
    ensures Preserve(preserve) < |NonSystem(ms)| && Tail(ms, preserve) == Trimmed(ms[|ms| - preserve..])
  {
    hide Trimmed, PrefixLength, RawTail;
    IsRawTail(NonSystem(ms), preserve);
    LastOfRest(ms, PrefixLength(ms), preserve);
  }

  /**
    What stays: the system prefix and the newest messages asked for, trimmed of results without their call; everything
    between them is summarised. In a transcript with unique ids the trimming takes all results the newest begin with.
   */
  lemma RecentMessagesStay(ms: seq<ChatMessage>, preserve: int, summarize: Summarizer)
    requires 1 <= preserve < |ms| - PrefixLength(ms)
    ensures
      var first, recent := PrefixLength(ms), ms[|ms| - preserve..];
      var cut := |ms| - |Trimmed(recent)|;
      Compact(ms, preserve, summarize) == Outcome(true,
        ms[..first] + [SummaryBlock(summarize(ms[first..cut], FindPreviousSummary(ms)))] + ms[cut..]) &&
      (ResultsPaired(ms) && UniqueCallIds(ms) ==> cut == |ms| - preserve + LeadingTools(recent))
  {
    hide Trimmed, PrefixLength, SummaryBlock, FindPreviousSummary, ResultsPaired, UniqueCallIds, LeadingTools, Compact,
      Tail, ClaimsLeadingResult;
    TailIsTrimmed(ms, preserve);
    TailIsSuffix(ms, preserve);
    CompactsIff(ms, preserve, summarize);
    CompactionShape(ms, preserve, summarize);
    var first, cut := PrefixLength(ms), |ms| - |Tail(ms, preserve)|;
    assert Middle(ms, preserve) == ms[first..cut];
    if ResultsPaired(ms) && UniqueCallIds(ms) {
      UniqueIdsClaimNothing(ms, |ms| - preserve);
      ResultsCarryIds(ms, |ms| - preserve);
      TrimmedRun(ms[|ms| - preserve..]);
      TrimmedSize(ms[|ms| - preserve..]);
    }
  }

  lemma TrimmedSize(tail: seq<ChatMessage>)
    ensures |Trimmed(tail)| == |tail| - LeadingOrphans(tail, ClaimedIds(tail))
  {
  }

  // ----- A transcript that uses a call id twice -----

  function Calling(id: string): ChatMessage
  {
    ChatMessage(Assistant, NoContent, None, None, Some([ToolCall(id, "run", "{}", None)]), None)
  }

  function ResultOf(id: string): ChatMessage
  {
    ChatMessage(Tool, Text("done"), None, Some(id), None, None)
  }

  /** Two turns of a provider that numbers its calls from zero in every response. */
  function RepeatedId(): seq<ChatMessage>
  {
    [ChatMessage(User, Text("go"), None, None, None, None),
     Calling("call_0"), ResultOf("call_0"), Calling("call_0"), ResultOf("call_0")]
  }

  lemma RepeatedIdIsPaired()
    ensures ResultsPaired(RepeatedId())
  {
    var ms := RepeatedId();
    assert Answers(ms, 1, 2);
    assert Answers(ms, 3, 4);
  }

  /** The claimed-id test keeps a result whose own call was cut away, and the output is no longer paired. */
  lemma RepeatedIdLeavesAnOrphan(summarize: Summarizer)
    ensures ResultsPaired(RepeatedId())
    ensures Compact(RepeatedId(), 3, summarize).compacted
    ensures !ResultsPaired(Compact(RepeatedId(), 3, summarize).messages)
  {
    hide SummaryBlock, FindPreviousSummary, Answers, HasCall, ClaimedIds, ResultsPaired;
    RepeatedIdIsPaired();
    var rest := NonSystem(RepeatedId());
    assert PrefixLength(RepeatedId()) == 0 && rest == RepeatedId();
    var raw := RawTail(rest, 3);
    assert raw == [ResultOf("call_0"), Calling("call_0"), ResultOf("call_0")];
    assert "call_0" in ClaimedIds(raw) by {
      ClaimedByMember(raw, 1, "call_0");
    }
    assert LeadingOrphans(raw, ClaimedIds(raw)) == 0;
    assert LeadingTools(raw) > 0;
    assert |Tail(RepeatedId(), 3)| == 3;
    CompactsIff(RepeatedId(), 3, summarize);
    ResultsStayPairedIff(RepeatedId(), 3, summarize);
  }

  lemma ClaimedByMember(ms: seq<ChatMessage>, i: nat, id: string)
    requires i < |ms| && id in CalledIds(ms[i])
    ensures id in ClaimedIds(ms)
  {
  }
}
