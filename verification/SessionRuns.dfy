/** Compactions that overlap each other and what is appended while they wait for their summaries. */
module SessionRuns {
  import opened Prelude
  import opened ChatMessages
  import opened Compaction
  import opened CompactionProofs
  import opened TranscriptStore
  import opened SessionCompaction

  /** A compaction under way: what it was asked for and the snapshot it took. */
  datatype Flight = Flight(request: Request, snapshot: seq<ChatMessage>)

  datatype State = State(rows: seq<Row>, flights: seq<Flight>)

  datatype Step =
    | Begin(request: Request)
    | Finish(flight: nat)
    | Append(session: string, segment: string, m: ChatMessage)

  function Next(s: State, step: Step): State
  {
    match step
    case Begin(r) => s.(flights := s.flights + [Flight(r, Sanitized(s.rows, r))])
    case Finish(k) =>
      if k < |s.flights| then s.(rows := WrittenBack(s.rows, s.flights[k].request, s.flights[k].snapshot)) else s
    case Append(session, segment, m) => s.(rows := Appended(s.rows, session, segment, m))
  }

  function Run(s: State, steps: seq<Step>): State
    decreases |steps|
  {
    if steps == [] then s else Run(Next(s, steps[0]), steps[1..])
  }

  predicate For(r: Request, session: string, segment: string)
  {
    r.session == session && r.segment == segment
  }

  // ----- Overlapping compactions keep transcripts well formed -----

  /** A transcript, and every snapshot taken of it, is well formed and no longer than `bound`. */
  ghost predicate Good(s: State, session: string, segment: string, bound: nat)
  {
    TableInvariant(s.rows) &&
    WellFormed(LoadSessionTranscript(s.rows, session, segment)) &&
    |LoadSessionTranscript(s.rows, session, segment)| <= bound &&
    forall k :: 0 <= k < |s.flights| ==> GoodFlight(s.flights[k], session, segment, bound)
  }

  ghost predicate GoodFlight(f: Flight, session: string, segment: string, bound: nat)
  {
    (forall m :: m in f.snapshot ==> Canonical(m)) &&
    (For(f.request, session, segment) ==> WellFormed(f.snapshot) && |f.snapshot| <= bound)
  }

  lemma BeginKeepsGood(s: State, r: Request, session: string, segment: string, bound: nat)
    requires Good(s, session, segment, bound)
    ensures Good(Next(s, Begin(r)), session, segment, bound)
  {
    hide LoadSessionTranscript, WellFormed, Sanitized, Canonical, UniqueSeqs, NoEmptyCallLists;
    SnapshotIsGood(s.rows, r);
    assert GoodFlight(Flight(r, Sanitized(s.rows, r)), session, segment, bound);
  }

  lemma FinishKeepsGood(s: State, k: nat, session: string, segment: string, bound: nat)
    requires Good(s, session, segment, bound)
    ensures Good(Next(s, Finish(k)), session, segment, bound)
  {
    hide LoadSessionTranscript, WellFormed, Canonical, TableInvariant, WrittenBack, Result;
    if k < |s.flights| {
      var f := s.flights[k];
      assert GoodFlight(f, session, segment, bound);
      WritingBackKeepsTable(s.rows, f.request, f.snapshot);
      if !For(f.request, session, segment) {
        OthersAreNotWritten(s.rows, f.request, f.snapshot, session, segment);
      } else if Result(f.snapshot, f.request).compacted {
        WrittenBackIsRead(s.rows, f.request, f.snapshot);
        ResultIsGood(f.snapshot, f.request);
      } else {
        NothingWritten(s.rows, f.request, f.snapshot);
      }
    }
  }

  lemma NothingWritten(rows: seq<Row>, r: Request, snapshot: seq<ChatMessage>)
    requires !Result(snapshot, r).compacted
    ensures WrittenBack(rows, r, snapshot) == rows
  {
    hide Result;
  }

  lemma AppendElsewhereKeepsGood(
      s: State, to: string, toSegment: string, m: ChatMessage, session: string, segment: string, bound: nat)
    requires Good(s, session, segment, bound) && !(to == session && toSegment == segment)
    ensures Good(Next(s, Append(to, toSegment, m)), session, segment, bound)
  {
    hide LoadSessionTranscript, WellFormed, Canonical, Appended, UniqueSeqs, NoEmptyCallLists, GoodFlight;
    AppendKeepsTable(s.rows, to, toSegment, m);
    LoadAfterAppend(s.rows, to, toSegment, m, session, segment);
    var loaded := LoadSessionTranscript(s.rows, session, segment);
    assert loaded + [] == loaded;
  }

  /** The step adds nothing to this segment. */
  predicate Elsewhere(step: Step, session: string, segment: string)
  {
    step.Append? ==> !(step.session == session && step.segment == segment)
  }

  lemma {:induction false} RunKeepsGood(s: State, steps: seq<Step>, session: string, segment: string, bound: nat)
    requires Good(s, session, segment, bound) && forall step :: step in steps ==> Elsewhere(step, session, segment)
    ensures Good(Run(s, steps), session, segment, bound)
    decreases |steps|
  {
    hide Good, Next;
    if steps != [] {
      assert steps[0] in steps;
      match steps[0] {
        case Begin(r) => BeginKeepsGood(s, r, session, segment, bound);
        case Finish(k) => FinishKeepsGood(s, k, session, segment, bound);
        case Append(to, toSegment, m) => AppendElsewhereKeepsGood(s, to, toSegment, m, session, segment, bound);
      }
      RunKeepsGood(Next(s, steps[0]), steps[1..], session, segment, bound);
    }
  }

  /**
    Main result: however compactions of any sessions overlap, and whatever is appended to other segments meanwhile, a
    well-formed transcript stays well formed and never grows.
   */
  lemma RunsKeepTranscripts(rows: seq<Row>, steps: seq<Step>, session: string, segment: string)
    requires TableInvariant(rows) && WellFormed(LoadSessionTranscript(rows, session, segment))
    requires forall step :: step in steps ==> Elsewhere(step, session, segment)
    ensures
      var after := Run(State(rows, []), steps).rows;
      TableInvariant(after) && WellFormed(LoadSessionTranscript(after, session, segment)) &&
      |LoadSessionTranscript(after, session, segment)| <= |LoadSessionTranscript(rows, session, segment)|
  {
    hide WellFormed, TableInvariant, LoadSessionTranscript, Elsewhere, Run;
    RunKeepsGood(State(rows, []), steps, session, segment, |LoadSessionTranscript(rows, session, segment)|);
  }

  // ----- What is stored while a compaction waits -----

  /** What a run appends to one segment, as it will be loaded. */
  function Stored(steps: seq<Step>, session: string, segment: string): seq<ChatMessage>
    decreases |steps|
  {
    if steps == [] then []
    else
      (if steps[0].Append? && steps[0].session == session && steps[0].segment == segment && Storable(steps[0].m)
       then [Reloaded(steps[0].m)] else [])
      + Stored(steps[1..], session, segment)
  }

  /** No compaction of the segment comes to its end in the run. */
  ghost predicate NoFinishOf(s: State, steps: seq<Step>, session: string, segment: string)
    decreases |steps|
  {
    steps != [] ==>
      (steps[0].Finish? && steps[0].flight < |s.flights| ==>
         !For(s.flights[steps[0].flight].request, session, segment)) &&
      NoFinishOf(Next(s, steps[0]), steps[1..], session, segment)
  }

  /** Flights stay as they are while new ones join. */
  lemma {:induction false} FlightsStay(s: State, steps: seq<Step>)
    ensures |s.flights| <= |Run(s, steps).flights| && Run(s, steps).flights[..|s.flights|] == s.flights
    decreases |steps|
  {
    hide WrittenBack, Sanitized, Appended;
    if steps != [] {
      var next := Next(s, steps[0]);
      FlightsStay(next, steps[1..]);
      assert next.flights[..|s.flights|] == s.flights;
      assert Run(s, steps).flights[..|next.flights|][..|s.flights|] == Run(s, steps).flights[..|s.flights|];
    }
  }

  lemma StepStores(s: State, step: Step, session: string, segment: string)
    requires NoFinishOf(s, [step], session, segment)
    ensures LoadSessionTranscript(Next(s, step).rows, session, segment)
         == LoadSessionTranscript(s.rows, session, segment) + Stored([step], session, segment)
  {
    hide LoadSessionTranscript, Sanitized, WrittenBack, Appended, Reloaded, Storable;
    OneStored(step, session, segment);
    var loaded := LoadSessionTranscript(s.rows, session, segment);
    assert loaded + [] == loaded;
    match step
    case Begin(r) =>
    case Finish(k) =>
      if k < |s.flights| {
        OthersAreNotWritten(s.rows, s.flights[k].request, s.flights[k].snapshot, session, segment);
      }
    case Append(to, toSegment, m) => LoadAfterAppend(s.rows, to, toSegment, m, session, segment);
  }

  lemma OneStored(step: Step, session: string, segment: string)
    ensures Stored([step], session, segment) ==
      if step.Append? && step.session == session && step.segment == segment && Storable(step.m)
      then [Reloaded(step.m)] else []
  {
    hide Reloaded, Storable;
    assert [step][1..] == [];
    assert Stored([], session, segment) == [];
  }

  lemma {:induction false} RunStores(s: State, steps: seq<Step>, session: string, segment: string)
    requires NoFinishOf(s, steps, session, segment)
    ensures LoadSessionTranscript(Run(s, steps).rows, session, segment)
         == LoadSessionTranscript(s.rows, session, segment) + Stored(steps, session, segment)
    decreases |steps|
  {
    hide LoadSessionTranscript, Next, Reloaded, Storable;
    var loaded := LoadSessionTranscript(s.rows, session, segment);
    if steps == [] {
      assert loaded + [] == loaded;
    } else {
      FirstStep(s, steps, session, segment);
      StepStores(s, steps[0], session, segment);
      RunStores(Next(s, steps[0]), steps[1..], session, segment);
      OneStored(steps[0], session, segment);
      Associate(loaded, Stored([steps[0]], session, segment), Stored(steps[1..], session, segment));
    }
  }

  lemma FirstStep(s: State, steps: seq<Step>, session: string, segment: string)
    requires steps != [] && NoFinishOf(s, steps, session, segment)
    ensures NoFinishOf(s, [steps[0]], session, segment)
  {
    hide Next;
    assert [steps[0]][1..] == [];
    assert NoFinishOf(Next(s, steps[0]), [], session, segment);
  }

  /**
    Main result on what comes in between. A compaction begins, a run follows in which no other compaction of the segment
    ends, and the result is written back: the segment then holds the result of the snapshot, and nothing stored during
    the run is lost iff the run stored nothing in the segment.
   */
  lemma NothingIsLostIff(s: State, r: Request, steps: seq<Step>)
    requires NoEmptyCallLists(s.rows) && Result(Sanitized(s.rows, r), r).compacted
    requires NoFinishOf(Next(s, Begin(r)), steps, r.session, r.segment)
    ensures
      var result := Result(Sanitized(s.rows, r), r).messages;
      var before := Run(Next(s, Begin(r)), steps);
      var after := Next(before, Finish(|s.flights|));
      LoadSessionTranscript(before.rows, r.session, r.segment)
        == LoadSessionTranscript(s.rows, r.session, r.segment) + Stored(steps, r.session, r.segment) &&
      LoadSessionTranscript(after.rows, r.session, r.segment) == result &&
      (LoadSessionTranscript(after.rows, r.session, r.segment) == result + Stored(steps, r.session, r.segment)
       <==> Stored(steps, r.session, r.segment) == [])
  {
    hide LoadSessionTranscript, Result, Sanitized, Run, WrittenBack, Stored, NoFinishOf;
    var begun := Next(s, Begin(r));
    var before := Run(begun, steps);
    RunStores(begun, steps, r.session, r.segment);
    FlightsStay(begun, steps);
    assert before.flights[|s.flights|] == begun.flights[|s.flights|];
    SanitizedIsCanonical(s.rows, r);
    WrittenBackIsRead(before.rows, r, Sanitized(s.rows, r));
    var result := Result(Sanitized(s.rows, r), r).messages;
    assert result + [] == result;
  }

  // ----- A call that is made while a compaction waits -----

  /** An assistant turn that makes one call, and its result. */
  function Exchange(id: string): (ChatMessage, ChatMessage)
  {
    (Calling(id), ResultOf(id))
  }

  lemma ExchangeIsStored(id: string)
    requires id != ""
    ensures
      var (call, result) := Exchange(id);
      Storable(call) && Storable(result) &&
      CalledIds(Reloaded(call)) == {id} && Reloaded(call).role == Assistant &&
      Reloaded(result).role == Tool && Reloaded(result).toolCallId == Some(id)
  {
    var calls := Reloaded(Calling(id)).toolCalls.value;
    assert |calls| == 1 && calls[0] == ReadCall(WriteCall(ToolCall(id, "run", "{}", None)));
  }

  /** A result without a call in the transcript is not paired. */
  lemma UncalledResultIsOrphan(ms: seq<ChatMessage>, m: ChatMessage, id: string)
    requires m.role == Tool && m.toolCallId == Some(id)
    requires forall c :: c in ms ==> id !in CalledIds(c)
    ensures !ResultsPaired(ms + [m])
  {
    var all := ms + [m];
    forall j: nat | j < |ms| ensures !Answers(all, j, |ms|) {
      assert all[j] == ms[j] && ms[j] in ms;
    }
    assert !HasCall(all, |ms|);
    assert all[|ms|].role == Tool;
  }

  lemma CalledResultIsPaired(ms: seq<ChatMessage>, call: ChatMessage, m: ChatMessage, id: string)
    requires ResultsPaired(ms) && call.role == Assistant && id in CalledIds(call)
    requires m.role == Tool && m.toolCallId == Some(id)
    ensures ResultsPaired(ms + [call] + [m])
  {
    var all := ms + [call] + [m];
    forall i | 0 <= i < |all| && all[i].role == Tool ensures HasCall(all, i) {
      if i < |ms| {
        assert all[i] == ms[i] && HasCall(ms, i);
        var j: nat :| j < i && Answers(ms, j, i);
        assert Answers(all, j, i);
      } else {
        assert all[|ms|] == call;
        assert Answers(all, |ms|, |ms| + 1);
      }
    }
  }

  lemma NothingNewIsCalled(snapshot: seq<ChatMessage>, r: Request, id: string)
    requires Result(snapshot, r).compacted && forall c :: c in snapshot ==> id !in CalledIds(c)
    ensures forall c :: c in Result(snapshot, r).messages ==> id !in CalledIds(c)
  {
    hide CalledIds, SummaryBlock, FindPreviousSummary, Trimmed, PrefixLength, Compact;
    CompactsIff(snapshot, r.preserveRecentMessages, r.summarize);
    CompactionShape(snapshot, r.preserveRecentMessages, r.summarize);
    TailIsSuffix(snapshot, r.preserveRecentMessages);
    SummaryCallsNothing(r.summarize(Middle(snapshot, r.preserveRecentMessages), FindPreviousSummary(snapshot)));
  }

  lemma SanitizedCalls(rows: seq<Row>, r: Request, id: string)
    requires forall c :: c in LoadSessionTranscript(rows, r.session, r.segment) ==> id !in CalledIds(c)
    ensures forall c :: c in Sanitized(rows, r) ==> id !in CalledIds(c)
  {
    hide LoadSessionTranscript, Sanitized;
    SanitizedKeepsCalls(rows, r);
    var loaded, sanitized := LoadSessionTranscript(rows, r.session, r.segment), Sanitized(rows, r);
    forall i | 0 <= i < |sanitized| ensures id !in CalledIds(sanitized[i]) {
      assert loaded[i] in loaded && CalledIds(loaded[i]) == CalledIds(sanitized[i]);
    }
  }

  /**
    A call stored while a compaction waits and its result, stored when it has ended, are paired iff the compaction did
    not take place; then the call is lost and the result is an orphan. Without the overlap they are always paired.
   */
  lemma OverlapOrphansResultIff(rows: seq<Row>, r: Request, id: string)
    requires TableInvariant(rows) && ResultsPaired(LoadSessionTranscript(rows, r.session, r.segment))
    requires id != ""
    requires forall c :: c in LoadSessionTranscript(rows, r.session, r.segment) ==> id !in CalledIds(c)
    ensures
      var (call, result) := Exchange(id);
      var append, answer := Append(r.session, r.segment, call), Append(r.session, r.segment, result);
      var overlapped := Run(State(rows, []), [Begin(r), append, Finish(0), answer]).rows;
      var alone := Run(State(rows, []), [append, answer]).rows;
      (ResultsPaired(LoadSessionTranscript(overlapped, r.session, r.segment))
       <==> !Result(Sanitized(rows, r), r).compacted) &&
      ResultsPaired(LoadSessionTranscript(alone, r.session, r.segment))
  {
    hide LoadSessionTranscript, Result, Sanitized, WrittenBack, Appended, Reloaded, Storable, ResultsPaired, CalledIds,
         Exchange, Run;
    var (call, result) := Exchange(id);
    ExchangeIsStored(id);
    FourSteps(State(rows, []), r, Append(r.session, r.segment, call), Append(r.session, r.segment, result));
    var appended := Appended(rows, r.session, r.segment, call);
    var written := WrittenBack(appended, r, Sanitized(rows, r));
    LoadAfterAppend(rows, r.session, r.segment, call, r.session, r.segment);
    LoadAfterAppend(appended, r.session, r.segment, result, r.session, r.segment);
    LoadAfterAppend(written, r.session, r.segment, result, r.session, r.segment);
    CalledResultIsPaired(LoadSessionTranscript(rows, r.session, r.segment), Reloaded(call), Reloaded(result), id);
    if Result(Sanitized(rows, r), r).compacted {
      SanitizedIsCanonical(rows, r);
      WrittenBackIsRead(appended, r, Sanitized(rows, r));
      SanitizedCalls(rows, r, id);
      NothingNewIsCalled(Sanitized(rows, r), r, id);
      UncalledResultIsOrphan(LoadSessionTranscript(written, r.session, r.segment), Reloaded(result), id);
    } else {
      NothingWritten(appended, r, Sanitized(rows, r));
    }
  }

  lemma FourSteps(s: State, r: Request, append: Step, answer: Step)
    requires s.flights == [] && append.Append? && answer.Append?
    ensures Run(s, [Begin(r), append, Finish(0), answer]).rows ==
      Appended(WrittenBack(Appended(s.rows, append.session, append.segment, append.m), r, Sanitized(s.rows, r)),
               answer.session, answer.segment, answer.m)
    ensures Run(s, [append, answer]).rows ==
      Appended(Appended(s.rows, append.session, append.segment, append.m), answer.session, answer.segment, answer.m)
  {
    hide WrittenBack, Appended, Sanitized;
    var all := [Begin(r), append, Finish(0), answer];
    assert all[1..] == [append, Finish(0), answer] && [append, Finish(0), answer][1..] == [Finish(0), answer];
    assert [Finish(0), answer][1..] == [answer] && [answer][1..] == [] && [append, answer][1..] == [answer];
    var s1 := Next(s, Begin(r));
    assert s1.flights == [Flight(r, Sanitized(s.rows, r))];
    var s2 := Next(s1, append);
    var s3 := Next(s2, Finish(0));
    assert Run(s3, [answer]) == Run(Next(s3, answer), []);
    assert Run(s2, [Finish(0), answer]) == Run(s3, [answer]);
    assert Run(Next(s, append), [answer]) == Run(Next(Next(s, append), answer), []);
  }
}
