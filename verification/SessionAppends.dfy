/** Calls and results appended to a segment while compactions of the same segment are under way. */
module SessionAppends {
  import opened Prelude
  import opened ChatMessages
  import opened Compaction
  import opened CompactionProofs
  import opened TranscriptStore
  import opened SessionCompaction
  import opened SessionRuns

  /** The calls that a result at the end of the transcript can answer: those of the last turn before the results. */
  function OpenIds(ms: seq<ChatMessage>): set<string>
  {
    if ms == [] then {}
    else if ms[|ms| - 1].role == Tool then OpenIds(ms[..|ms| - 1])
    else CalledIds(ms[|ms| - 1])
  }

  predicate FindsCall(ms: seq<ChatMessage>, m: ChatMessage)
  {
    m.role == Tool ==> m.toolCallId.Some? && m.toolCallId.value in OpenIds(ms)
  }

  ghost predicate OpensAt(ms: seq<ChatMessage>, j: nat, id: string)
    requires j < |ms|
  {
    id in CalledIds(ms[j]) && ToolsBetween(ms, j + 1, |ms|)
  }

  lemma {:induction false} OpenTurn(ms: seq<ChatMessage>, id: string)
    ensures id in OpenIds(ms) <==> exists j: nat :: j < |ms| && OpensAt(ms, j, id)
    decreases |ms|
  {
    if ms != [] {
      var n := |ms| - 1;
      var front := ms[..n];
      if ms[n].role == Tool {
        OpenTurn(front, id);
        forall j: nat | j < n ensures OpensAt(front, j, id) <==> OpensAt(ms, j, id) {
          assert ToolsBetween(ms, j + 1, n + 1) ==> forall k :: j + 1 <= k < n ==> front[k] == ms[k];
        }
        assert !OpensAt(ms, n, id);
      } else {
        forall j: nat | j < n ensures !OpensAt(ms, j, id) {
          assert ms[n].role != Tool;
        }
        assert OpensAt(ms, n, id) <==> id in CalledIds(ms[n]);
      }
    }
  }

  /** Appending keeps results paired iff the message is no result, or its call is open. */
  lemma AppendIsPairedIff(ms: seq<ChatMessage>, m: ChatMessage)
    requires ResultsPaired(ms)
    ensures ResultsPaired(ms + [m]) <==> FindsCall(ms, m)
  {
    var all, n := ms + [m], |ms|;
    forall i: nat, j: nat | i < n ensures Answers(all, j, i) <==> Answers(ms, j, i) {
      SamePrefix(ms, m, j, i);
    }
    forall i | 0 <= i < n && all[i].role == Tool ensures HasCall(all, i) {
      assert all[i] == ms[i] && HasCall(ms, i);
      var j: nat :| j < i && Answers(ms, j, i);
      assert Answers(all, j, i);
    }
    assert all[n] == m;
    if m.role == Tool {
      LastHasCallIff(ms, m);
    }
  }

  lemma SamePrefix(ms: seq<ChatMessage>, m: ChatMessage, j: nat, i: nat)
    requires i < |ms|
    ensures Answers(ms + [m], j, i) <==> Answers(ms, j, i)
  {
    assert (ms + [m])[..|ms|] == ms;
  }

  lemma LastHasCallIff(ms: seq<ChatMessage>, m: ChatMessage)
    requires m.role == Tool
    ensures HasCall(ms + [m], |ms|) <==> FindsCall(ms, m)
  {
    var all, n := ms + [m], |ms|;
    if m.toolCallId.Some? {
      var id := m.toolCallId.value;
      OpenTurn(ms, id);
      forall j: nat | j < n
        ensures Answers(all, j, n) <==> OpensAt(ms, j, id)
      {
        assert all[j] == ms[j];
        assert forall k :: 0 <= k < n ==> all[k] == ms[k];
      }
    }
  }

  // ----- Runs with appends to the segment -----

  /** The message a step adds to the segment, as it will be loaded. */
  function Added(step: Step, session: string, segment: string): Option<ChatMessage>
  {
    if step.Append? && step.session == session && step.segment == segment && Storable(step.m)
    then Some(Reloaded(step.m)) else None
  }

  /** Calls appended to the segment use ids that no call before used. */
  ghost predicate FreshCalls(used: set<string>, steps: seq<Step>, session: string, segment: string)
    decreases |steps|
  {
    steps != [] ==>
      var added := Added(steps[0], session, segment);
      var ids := if added.Some? then CalledIds(added.value) else {};
      used !! ids && FreshCalls(used + ids, steps[1..], session, segment)
  }

  /** In every state of the run the results of the segment are paired. */
  ghost predicate PairedThroughout(s: State, steps: seq<Step>, session: string, segment: string)
    decreases |steps|
  {
    ResultsPaired(LoadSessionTranscript(s.rows, session, segment)) &&
    (steps != [] ==> PairedThroughout(Next(s, steps[0]), steps[1..], session, segment))
  }

  /** Each result is appended to the segment while its call is open there. */
  ghost predicate ResultsFindCalls(s: State, steps: seq<Step>, session: string, segment: string)
    decreases |steps|
  {
    steps != [] ==>
      var added := Added(steps[0], session, segment);
      (added.Some? ==> FindsCall(LoadSessionTranscript(s.rows, session, segment), added.value)) &&
      ResultsFindCalls(Next(s, steps[0]), steps[1..], session, segment)
  }

  ghost predicate Consistent(ms: seq<ChatMessage>, used: set<string>)
  {
    ResultsPaired(ms) && UniqueCallIds(ms) && ClaimedIds(ms) <= used
  }

  ghost predicate SoundFlight(f: Flight, session: string, segment: string, used: set<string>)
  {
    (forall m :: m in f.snapshot ==> Canonical(m)) &&
    (For(f.request, session, segment) ==> Consistent(f.snapshot, used))
  }

  /** The segment and the snapshots taken of it are paired and unique, answered or not, and use known ids only. */
  ghost predicate Sound(s: State, session: string, segment: string, used: set<string>)
  {
    TableInvariant(s.rows) && Consistent(LoadSessionTranscript(s.rows, session, segment), used) &&
    forall k :: 0 <= k < |s.flights| ==> SoundFlight(s.flights[k], session, segment, used)
  }

  lemma SnapshotIsConsistent(rows: seq<Row>, r: Request, used: set<string>)
    requires Consistent(LoadSessionTranscript(rows, r.session, r.segment), used)
    ensures Consistent(Sanitized(rows, r), used)
  {
    hide LoadSessionTranscript, Sanitized, Answers;
    var a, b := LoadSessionTranscript(rows, r.session, r.segment), Sanitized(rows, r);
    SanitizedKeepsCalls(rows, r);
    SameCallsSamePairs(a, b);
    forall m, id | m in b && id in CalledIds(m) ensures id in ClaimedIds(a) {
      var i :| 0 <= i < |b| && b[i] == m;
      assert CalledIds(a[i]) == CalledIds(b[i]);
      ClaimedByMember(a, i, id);
    }
  }

  lemma ResultIsConsistent(snapshot: seq<ChatMessage>, r: Request, used: set<string>)
    requires Consistent(snapshot, used)
    ensures Consistent(Result(snapshot, r).messages, used)
  {
    hide Compact, ResultsPaired, UniqueCallIds, CalledIds;
    CompactionKeepsPairs(snapshot, r.preserveRecentMessages, r.summarize);
    forall id | id !in ClaimedIds(snapshot) ensures id !in ClaimedIds(Result(snapshot, r).messages) {
      if Result(snapshot, r).compacted {
        NothingNewIsCalled(snapshot, r, id);
      } else {
        NotCompactedIsUnchanged(snapshot, r.preserveRecentMessages, r.summarize);
      }
    }
  }

  lemma BeginKeepsSound(s: State, r: Request, session: string, segment: string, used: set<string>)
    requires Sound(s, session, segment, used)
    ensures Sound(Next(s, Begin(r)), session, segment, used)
  {
    hide LoadSessionTranscript, Consistent, Sanitized, Canonical, UniqueSeqs, NoEmptyCallLists;
    SanitizedIsCanonical(s.rows, r);
    if For(r, session, segment) {
      SnapshotIsConsistent(s.rows, r, used);
    }
    assert SoundFlight(Flight(r, Sanitized(s.rows, r)), session, segment, used);
  }

  /** Writing back never breaks pairing, whatever was appended to the segment since the snapshot. */
  lemma FinishKeepsSound(s: State, k: nat, session: string, segment: string, used: set<string>)
    requires Sound(s, session, segment, used)
    ensures Sound(Next(s, Finish(k)), session, segment, used)
  {
    hide LoadSessionTranscript, Consistent, Canonical, TableInvariant, WrittenBack, Result;
    if k < |s.flights| {
      var f := s.flights[k];
      assert SoundFlight(f, session, segment, used);
      WritingBackKeepsTable(s.rows, f.request, f.snapshot);
      if !For(f.request, session, segment) {
        OthersAreNotWritten(s.rows, f.request, f.snapshot, session, segment);
      } else if Result(f.snapshot, f.request).compacted {
        WrittenBackIsRead(s.rows, f.request, f.snapshot);
        ResultIsConsistent(f.snapshot, f.request, used);
      } else {
        NothingWritten(s.rows, f.request, f.snapshot);
      }
    }
  }

  lemma AppendKeepsSound(
      s: State, to: string, toSegment: string, m: ChatMessage, session: string, segment: string, used: set<string>)
    requires Sound(s, session, segment, used)
    requires
      var added := Added(Append(to, toSegment, m), session, segment);
      added.Some? ==>
        FindsCall(LoadSessionTranscript(s.rows, session, segment), added.value) && used !! CalledIds(added.value)
    ensures
      var added := Added(Append(to, toSegment, m), session, segment);
      Sound(Next(s, Append(to, toSegment, m)), session, segment,
            used + if added.Some? then CalledIds(added.value) else {})
  {
    hide LoadSessionTranscript, Canonical, Appended, UniqueSeqs, NoEmptyCallLists, Reloaded, Storable, FindsCall,
      Consistent;
    var added := Added(Append(to, toSegment, m), session, segment);
    var more := used + if added.Some? then CalledIds(added.value) else {};
    AppendKeepsTable(s.rows, to, toSegment, m);
    LoadAfterAppend(s.rows, to, toSegment, m, session, segment);
    var loaded := LoadSessionTranscript(s.rows, session, segment);
    if added.Some? {
      ConsistentSnoc(loaded, added.value, used);
    } else {
      assert loaded + [] == loaded;
      MoreUsed(loaded, used, more);
    }
    forall k | 0 <= k < |s.flights| ensures SoundFlight(s.flights[k], session, segment, more) {
      assert SoundFlight(s.flights[k], session, segment, used);
      if For(s.flights[k].request, session, segment) {
        MoreUsed(s.flights[k].snapshot, used, more);
      }
    }
  }

  lemma MoreUsed(ms: seq<ChatMessage>, used: set<string>, more: set<string>)
    requires Consistent(ms, used) && used <= more
    ensures Consistent(ms, more)
  {
  }

  lemma ConsistentSnoc(ms: seq<ChatMessage>, m: ChatMessage, used: set<string>)
    requires Consistent(ms, used) && FindsCall(ms, m) && used !! CalledIds(m)
    ensures Consistent(ms + [m], used + CalledIds(m))
  {
    hide ResultsPaired, CalledIds, FindsCall;
    AppendIsPairedIff(ms, m);
    ClaimedSnoc(ms, m);
    var all := ms + [m];
    forall j, k | 0 <= j < k < |all| ensures CalledIds(all[j]) !! CalledIds(all[k]) {
      if k == |ms| {
        forall id | id in CalledIds(ms[j]) ensures id in used {
          ClaimedByMember(ms, j, id);
        }
      } else {
        assert CalledIds(ms[j]) !! CalledIds(ms[k]);
      }
    }
  }

  /**
    Main result. Let compactions overlap in any way, and calls with fresh ids and their results be appended at any time,
    to this segment and others: results stay paired throughout iff each is appended while its call is open. Writing
    back breaks nothing by itself, only by closing a call whose result is still to come.
   */
  lemma {:induction false} RunStaysPairedIff(
      s: State, steps: seq<Step>, session: string, segment: string, used: set<string>)
    requires Sound(s, session, segment, used) && FreshCalls(used, steps, session, segment)
    ensures PairedThroughout(s, steps, session, segment) <==> ResultsFindCalls(s, steps, session, segment)
    decreases |steps|
  {
    hide LoadSessionTranscript, Next, Sound, FindsCall, CalledIds, Added;
    SoundIsPaired(s, session, segment, used);
    if steps != [] {
      var step := steps[0];
      var next := Next(s, step);
      var added := Added(step, session, segment);
      var more := used + if added.Some? then CalledIds(added.value) else {};
      if added.Some? && !FindsCall(LoadSessionTranscript(s.rows, session, segment), added.value) {
        LostCall(s, step, session, segment);
        assert !PairedThroughout(next, steps[1..], session, segment);
      } else {
        StepKeepsSound(s, step, session, segment, used);
        RunStaysPairedIff(next, steps[1..], session, segment, more);
      }
    }
  }

  lemma SoundIsPaired(s: State, session: string, segment: string, used: set<string>)
    requires Sound(s, session, segment, used)
    ensures ResultsPaired(LoadSessionTranscript(s.rows, session, segment))
  {
    hide ResultsPaired;
  }

  lemma StepKeepsSound(s: State, step: Step, session: string, segment: string, used: set<string>)
    requires Sound(s, session, segment, used)
    requires
      var added := Added(step, session, segment);
      added.Some? ==>
        FindsCall(LoadSessionTranscript(s.rows, session, segment), added.value) && used !! CalledIds(added.value)
    ensures
      var added := Added(step, session, segment);
      Sound(Next(s, step), session, segment, used + if added.Some? then CalledIds(added.value) else {})
  {
    hide LoadSessionTranscript, Next, Sound, FindsCall, CalledIds;
    assert used + {} == used;
    match step
    case Begin(r) => BeginKeepsSound(s, r, session, segment, used);
    case Finish(k) => FinishKeepsSound(s, k, session, segment, used);
    case Append(to, toSegment, m) => AppendKeepsSound(s, to, toSegment, m, session, segment, used);
  }

  lemma LostCall(s: State, step: Step, session: string, segment: string)
    requires ResultsPaired(LoadSessionTranscript(s.rows, session, segment))
    requires Added(step, session, segment).Some?
    requires !FindsCall(LoadSessionTranscript(s.rows, session, segment), Added(step, session, segment).value)
    ensures !ResultsPaired(LoadSessionTranscript(Next(s, step).rows, session, segment))
  {
    hide LoadSessionTranscript, ResultsPaired, FindsCall, Reloaded, Storable, Appended;
    AppendIsPairedIff(LoadSessionTranscript(s.rows, session, segment), Added(step, session, segment).value);
    LoadAfterAppend(s.rows, step.session, step.segment, step.m, session, segment);
  }

  // ----- Which calls are open after a write-back -----

  lemma {:induction false} OpenPastResults(ms: seq<ChatMessage>, results: seq<ChatMessage>)
    requires forall m :: m in results ==> m.role == Tool
    ensures OpenIds(ms + results) == OpenIds(ms)
    decreases |results|
  {
    if results == [] {
      assert ms + results == ms;
    } else {
      var n := |results| - 1;
      assert (ms + results)[..|ms + results| - 1] == ms + results[..n];
      OpenPastResults(ms, results[..n]);
    }
  }

  /** A turn at the head of the kept part closes everything before it. */
  lemma {:induction false} OpenBehindTurn(front: seq<ChatMessage>, tail: seq<ChatMessage>)
    requires tail != [] && tail[0].role != Tool
    ensures OpenIds(front + tail) == OpenIds(tail)
    decreases |tail|
  {
    var n := |tail| - 1;
    assert (front + tail)[|front + tail| - 1] == tail[n];
    assert (front + tail)[..|front + tail| - 1] == front + tail[..n];
    if tail[n].role == Tool {
      OpenBehindTurn(front, tail[..n]);
    }
  }

  /** A compaction keeps open what was open, unless it keeps no message at all; then every call is closed. */
  lemma OpenAfterCompaction(ms: seq<ChatMessage>, preserve: int, summarize: Summarizer)
    requires ResultsPaired(ms) && UniqueCallIds(ms) && Compacts(ms, preserve)
    ensures OpenIds(Compact(ms, preserve, summarize).messages) == if Tail(ms, preserve) == [] then {} else OpenIds(ms)
  {
    hide SummaryBlock, FindPreviousSummary, Middle, Tail, NonSystem, PrefixLength, Compact, OpenIds, CalledIds;
    CompactionShape(ms, preserve, summarize);
    CompactionKeepsPairs(ms, preserve, summarize);
    TailIsSuffix(ms, preserve);
    var tail, front := Tail(ms, preserve), Front(ms, preserve, summarize);
    SummaryCallsNothing(summarize(Middle(ms, preserve), FindPreviousSummary(ms)));
    if tail == [] {
      assert front + tail == front;
      OpenAtTurn(front);
    } else {
      TailStartsWithTurn(front, tail);
      OpenBehindTurn(front, tail);
      OpenBehindTurn(ms[..|ms| - |tail|], tail);
      SplitAround(ms, |ms| - |tail|);
    }
  }

  lemma OpenAtTurn(ms: seq<ChatMessage>)
    requires ms != [] && ms[|ms| - 1].role != Tool
    ensures OpenIds(ms) == CalledIds(ms[|ms| - 1])
  {
  }

  lemma TailStartsWithTurn(front: seq<ChatMessage>, tail: seq<ChatMessage>)
    requires ResultsPaired(front + tail) && front != [] && tail != []
    requires front[|front| - 1].role != Tool && CalledIds(front[|front| - 1]) == {}
    ensures tail[0].role != Tool
  {
    var all, n := front + tail, |front|;
    assert all[n] == tail[0] && all[n - 1] == front[n - 1];
    forall j: nat | j < n ensures !Answers(all, j, n) {
      if j < n - 1 {
        assert all[n - 1].role != Tool;
      }
    }
    assert !HasCall(all, n);
  }

  /**
    What decides about a result: after the last write-back, with only results stored since, the open calls are those
    that were open in its snapshot, or none if the compaction kept no message. A call made after the snapshot is closed.
   */
  lemma OpenAfterWriteBack(s: State, k: nat, steps: seq<Step>, session: string, segment: string, used: set<string>)
    requires Sound(s, session, segment, used) && k < |s.flights| && For(s.flights[k].request, session, segment)
    requires Result(s.flights[k].snapshot, s.flights[k].request).compacted
    requires NoFinishOf(Next(s, Finish(k)), steps, session, segment)
    requires forall m :: m in Stored(steps, session, segment) ==> m.role == Tool
    ensures
      var f := s.flights[k];
      OpenIds(LoadSessionTranscript(Run(Next(s, Finish(k)), steps).rows, session, segment))
      == if Preserve(f.request.preserveRecentMessages) < |NonSystem(f.snapshot)| &&
            Tail(f.snapshot, f.request.preserveRecentMessages) == [] then {} else OpenIds(f.snapshot)
  {
    hide LoadSessionTranscript, Compact, WrittenBack, Stored, NoFinishOf, OpenIds, Tail, NonSystem, Canonical, Run,
      ResultsPaired, UniqueCallIds;
    var f := s.flights[k];
    assert SoundFlight(f, session, segment, used);
    var written := Next(s, Finish(k));
    WrittenBackIsRead(s.rows, f.request, f.snapshot);
    RunStores(written, steps, session, segment);
    OpenPastResults(Result(f.snapshot, f.request).messages, Stored(steps, session, segment));
    CompactsIff(f.snapshot, f.request.preserveRecentMessages, f.request.summarize);
    OpenAfterCompaction(f.snapshot, f.request.preserveRecentMessages, f.request.summarize);
  }
}
