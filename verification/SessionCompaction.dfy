/** Compacting a stored session: take a snapshot of one segment, wait for its summary, write the result back. */
module SessionCompaction {
  import opened Prelude
  import opened ChatMessages
  import opened Compaction
  import opened CompactionProofs
  import opened TranscriptStore

  /** A rewriting of message text that leaves the message as it is when there is no text. */
  function StripBlocks(ms: seq<ChatMessage>, strip: string -> string): seq<ChatMessage>
  {
    seq(|ms|, i requires 0 <= i < |ms| => StripMessage(ms[i], strip))
  }

  function StripMessage(m: ChatMessage, strip: string -> string): ChatMessage
  {
    if m.content.Text? && m.content.text != "" then m.(content := Text(strip(m.content.text))) else m
  }

  /** What a compaction is asked for. The two strip functions and the summary stand for code outside the model. */
  datatype Request = Request(
    session: string, segment: string, preserveRecentMessages: int,
    stripImages: string -> string, stripThinking: string -> string,
    summarize: (seq<ChatMessage>, Option<string>) -> string)

  function Sanitized(rows: seq<Row>, r: Request): seq<ChatMessage>
  {
    StripBlocks(StripBlocks(LoadSessionTranscript(rows, r.session, r.segment), r.stripImages), r.stripThinking)
  }

  function Result(snapshot: seq<ChatMessage>, r: Request): Outcome
  {
    Compact(snapshot, r.preserveRecentMessages, r.summarize)
  }

  /** The table after the result of a snapshot is written over whatever the segment holds by then. */
  function WrittenBack(rows: seq<Row>, r: Request, snapshot: seq<ChatMessage>): seq<Row>
  {
    if Result(snapshot, r).compacted then Replaced(rows, r.session, r.segment, Result(snapshot, r).messages) else rows
  }

  /** Up to the await of the summary. */
  method BeginCompaction(db: Database, r: Request) returns (snapshot: seq<ChatMessage>)
    ensures snapshot == Sanitized(db.rows, r)
  {
    var loaded := LoadSessionTranscript(db.rows, r.session, r.segment);
    var sanitized := StripBlocks(loaded, r.stripImages);
    snapshot := StripBlocks(sanitized, r.stripThinking);
  }

  /** After the await, on the table as it is then. */
  method FinishCompaction(db: Database, r: Request, snapshot: seq<ChatMessage>)
    returns (compacted: bool, messageCount: nat)
    modifies db
    ensures db.rows == WrittenBack(old(db.rows), r, snapshot)
    ensures compacted == Result(snapshot, r).compacted && messageCount == |Result(snapshot, r).messages|
  {
    var result := CompactTranscriptIfNeeded(snapshot, r.preserveRecentMessages, r.summarize);
    if result.compacted {
      var _ := db.ReplaceSessionTranscript(r.session, r.segment, result.messages);
    }
    return result.compacted, |result.messages|;
  }

  // ----- Rewriting text does not touch the calls -----

  /** Same roles, same calls, same answers. */
  ghost predicate SameCalls(a: seq<ChatMessage>, b: seq<ChatMessage>)
  {
    |a| == |b| && forall i :: 0 <= i < |a| ==>
      a[i].role == b[i].role && a[i].toolCallId == b[i].toolCallId && a[i].toolCalls == b[i].toolCalls
  }

  lemma SameAnswers(a: seq<ChatMessage>, b: seq<ChatMessage>, j: nat, i: nat)
    requires SameCalls(a, b) && i < |a|
    ensures Answers(a, j, i) <==> Answers(b, j, i)
  {
    if j < i {
      assert CalledIds(a[j]) == CalledIds(b[j]);
    }
  }

  lemma SameCallsSamePairs(a: seq<ChatMessage>, b: seq<ChatMessage>)
    requires SameCalls(a, b) && ResultsPaired(a) && UniqueCallIds(a)
    ensures ResultsPaired(b) && UniqueCallIds(b)
  {
    hide Answers;
    forall i | 0 <= i < |b| && b[i].role == Tool ensures HasCall(b, i) {
      assert a[i].role == Tool && HasCall(a, i);
      var j: nat :| j < i && Answers(a, j, i);
      SameAnswers(a, b, j, i);
    }
    forall j, k | 0 <= j < k < |b| ensures CalledIds(b[j]) !! CalledIds(b[k]) {
      assert CalledIds(a[j]) == CalledIds(b[j]) && CalledIds(a[k]) == CalledIds(b[k]);
    }
  }

  lemma SameCallsSameShape(a: seq<ChatMessage>, b: seq<ChatMessage>)
    requires SameCalls(a, b) && WellFormed(a)
    ensures WellFormed(b)
  {
    hide Answers;
    SameCallsSamePairs(a, b);
    forall j, id | 0 <= j < |b| && id in CalledIds(b[j]) ensures HasResult(b, j, id) {
      assert id in CalledIds(a[j]) && HasResult(a, j, id);
      var i: nat :| j < i < |a| && Answers(a, j, i) && a[i].toolCallId == Some(id);
      SameAnswers(a, b, j, i);
    }
  }

  lemma SanitizedKeepsCalls(rows: seq<Row>, r: Request)
    ensures SameCalls(LoadSessionTranscript(rows, r.session, r.segment), Sanitized(rows, r))
  {
    hide LoadSessionTranscript;
  }

  /** A snapshot is the transcript with its texts stripped of images, then of thinking, and nothing else changed. */
  lemma SnapshotIsStripped(rows: seq<Row>, r: Request, i: nat)
    requires i < |LoadSessionTranscript(rows, r.session, r.segment)|
    ensures
      var m := LoadSessionTranscript(rows, r.session, r.segment)[i];
      |Sanitized(rows, r)| == |LoadSessionTranscript(rows, r.session, r.segment)| &&
      Sanitized(rows, r)[i] ==
        if !m.content.Text? || m.content.text == "" then m
        else
          var text := r.stripImages(m.content.text);
          m.(content := Text(if text == "" then "" else r.stripThinking(text)))
  {
    hide LoadSessionTranscript;
  }

  // ----- What is written can be read back -----

  lemma SanitizedIsCanonical(rows: seq<Row>, r: Request)
    requires NoEmptyCallLists(rows)
    ensures forall m :: m in Sanitized(rows, r) ==> Canonical(m)
  {
    hide LoadSessionTranscript, StripBlocks;
    LoadedIsCanonical(rows, r.session, r.segment);
    var loaded := LoadSessionTranscript(rows, r.session, r.segment);
    StrippedIsCanonical(loaded, r.stripImages);
    StrippedIsCanonical(StripBlocks(loaded, r.stripImages), r.stripThinking);
  }

  lemma StrippedIsCanonical(ms: seq<ChatMessage>, strip: string -> string)
    requires forall m :: m in ms ==> Canonical(m)
    ensures forall m :: m in StripBlocks(ms, strip) ==> Canonical(m)
  {
    hide Canonical;
    forall i | 0 <= i < |ms| ensures Canonical(StripMessage(ms[i], strip)) {
      assert ms[i] in ms;
      StrippedMessageIsCanonical(ms[i], strip);
    }
  }

  lemma StrippedMessageIsCanonical(m: ChatMessage, strip: string -> string)
    requires Canonical(m)
    ensures Canonical(StripMessage(m, strip))
  {
  }

  lemma CompactedIsCanonical(ms: seq<ChatMessage>, preserve: int, summarize: Summarizer)
    requires forall m :: m in ms ==> Canonical(m)
    ensures forall m :: m in Compact(ms, preserve, summarize).messages ==> Canonical(m)
  {
    hide Trimmed, PrefixLength, FindPreviousSummary, Trim;
    CompactsIff(ms, preserve, summarize);
    if Compacts(ms, preserve) {
      CompactionShape(ms, preserve, summarize);
      assert Canonical(SummaryBlock(summarize(Middle(ms, preserve), FindPreviousSummary(ms))));
      var tail := Tail(ms, preserve);
      assert tail == ms[|ms| - |tail|..];
    }
  }

  /** Over any table, whatever was stored meanwhile, writing back loads exactly the result of the snapshot. */
  lemma WrittenBackIsRead(rows: seq<Row>, r: Request, snapshot: seq<ChatMessage>)
    requires (forall m :: m in snapshot ==> Canonical(m)) && Result(snapshot, r).compacted
    ensures LoadSessionTranscript(WrittenBack(rows, r, snapshot), r.session, r.segment) == Result(snapshot, r).messages
  {
    hide LoadSessionTranscript, Replaced, Canonical, Compact;
    CompactedIsCanonical(snapshot, r.preserveRecentMessages, r.summarize);
    RoundTripIff(rows, r.session, r.segment, Result(snapshot, r).messages);
  }

  lemma {:induction false} SameRolesSamePrefix(a: seq<ChatMessage>, b: seq<ChatMessage>)
    requires SameCalls(a, b)
    ensures PrefixLength(a) == PrefixLength(b)
    decreases |a|
  {
    if a != [] {
      assert a[0].role == b[0].role;
      SameRolesSamePrefix(a[1..], b[1..]);
    }
  }

  /** A transcript too short to be compacted stays in the table as it is, with images and thinking in its texts. */
  lemma ShortTranscriptsAreLeft(before: seq<Row>, rows: seq<Row>, r: Request)
    requires
      var loaded := LoadSessionTranscript(before, r.session, r.segment);
      ResultsPaired(loaded) && UniqueCallIds(loaded) &&
      !(1 <= r.preserveRecentMessages < |loaded| - PrefixLength(loaded))
    ensures WrittenBack(rows, r, Sanitized(before, r)) == rows
  {
    hide LoadSessionTranscript, StripBlocks, ResultsPaired, UniqueCallIds, Compact, Replaced, SameCalls, PrefixLength;
    var loaded, snapshot := LoadSessionTranscript(before, r.session, r.segment), Sanitized(before, r);
    SanitizedKeepsCalls(before, r);
    SameCallsSamePairs(loaded, snapshot);
    SameRolesSamePrefix(loaded, snapshot);
    assert |loaded| == |snapshot| by {
      SameLength(loaded, snapshot);
    }
    CompactedIff(snapshot, r.preserveRecentMessages, r.summarize);
  }

  lemma SameLength(a: seq<ChatMessage>, b: seq<ChatMessage>)
    requires SameCalls(a, b)
    ensures |a| == |b|
  {
  }

  /** A snapshot of a well-formed transcript is well formed, storable without loss and as long as the transcript. */
  lemma SnapshotIsGood(rows: seq<Row>, r: Request)
    requires NoEmptyCallLists(rows)
    ensures forall m :: m in Sanitized(rows, r) ==> Canonical(m)
    ensures |Sanitized(rows, r)| == |LoadSessionTranscript(rows, r.session, r.segment)|
    ensures WellFormed(LoadSessionTranscript(rows, r.session, r.segment)) ==> WellFormed(Sanitized(rows, r))
  {
    hide LoadSessionTranscript, WellFormed, Canonical, StripBlocks;
    SanitizedIsCanonical(rows, r);
    SanitizedKeepsCalls(rows, r);
    if WellFormed(LoadSessionTranscript(rows, r.session, r.segment)) {
      SameCallsSameShape(LoadSessionTranscript(rows, r.session, r.segment), Sanitized(rows, r));
    }
  }

  lemma ResultIsGood(snapshot: seq<ChatMessage>, r: Request)
    requires WellFormed(snapshot)
    ensures WellFormed(Result(snapshot, r).messages) && |Result(snapshot, r).messages| <= |snapshot|
  {
    hide WellFormed, Compact;
    CompactionKeepsWellFormed(snapshot, r.preserveRecentMessages, r.summarize);
    CompactsIff(snapshot, r.preserveRecentMessages, r.summarize);
    if Result(snapshot, r).compacted {
      CompactionShape(snapshot, r.preserveRecentMessages, r.summarize);
    } else {
      NotCompactedIsUnchanged(snapshot, r.preserveRecentMessages, r.summarize);
    }
  }

  /** What the stored tables of all sessions keep. */
  ghost predicate TableInvariant(rows: seq<Row>)
  {
    NoEmptyCallLists(rows) && UniqueSeqs(rows)
  }

  lemma WritingBackKeepsTable(rows: seq<Row>, r: Request, snapshot: seq<ChatMessage>)
    requires TableInvariant(rows)
    ensures TableInvariant(WrittenBack(rows, r, snapshot))
  {
    hide UniqueSeqs, NoEmptyCallLists, LoadSessionTranscript, Canonical, Storable, Deleted, Compact;
    var ms := Result(snapshot, r).messages;
    NoEmptyCallListsIsKept(rows, r.session, r.segment, ms);
    if forall m :: m in ms ==> Storable(m) {
      SequenceNumbersStayUnique(rows, r.session, r.segment, ms);
    }
  }

  lemma OthersAreNotWritten(rows: seq<Row>, r: Request, snapshot: seq<ChatMessage>, session: string, segment: string)
    requires !(session == r.session && segment == r.segment)
    ensures LoadSessionTranscript(WrittenBack(rows, r, snapshot), session, segment)
         == LoadSessionTranscript(rows, session, segment)
  {
    hide LoadSessionTranscript, Replaced, Compact;
    OtherSegmentsKeepTheirMessages(rows, r.session, r.segment, Result(snapshot, r).messages, session, segment);
  }
}
