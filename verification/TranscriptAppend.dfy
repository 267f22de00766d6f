/** Appending to a transcript: before anything but a tool result, open calls of the last turn get aborted results. */
module TranscriptAppend {
  import opened Prelude
  import opened ChatMessages
  import opened TranscriptStore

  const RECENT := 50

  const ABORTED := "[Tool call aborted — no result available]"

  function CallIds(calls: seq<ToolCall>): (ids: seq<string>)
    ensures |ids| == |calls|
  {
    seq(|calls|, i requires 0 <= i < |calls| => calls[i].id)
  }

  function Without(ids: seq<string>, answered: set<string>): seq<string>
  {
    if ids == [] then []
    else (if ids[0] in answered then [] else [ids[0]]) + Without(ids[1..], answered)
  }

  /** The calls without a result, looking back over at most `window` messages. */
  function Missing(ms: seq<ChatMessage>, window: nat, answered: set<string>): seq<string>
    decreases |ms|
  {
    if ms == [] || window == 0 then []
    else
      var n := |ms| - 1;
      if ms[n].role == Tool && ms[n].toolCallId.Some? then
        Missing(ms[..n], window - 1, answered + {ms[n].toolCallId.value})
      else if ms[n].role == Assistant && ms[n].toolCalls.Some? then Without(CallIds(ms[n].toolCalls.value), answered)
      else []
  }

  method CollectMissing(ms: seq<ChatMessage>) returns (missing: seq<string>)
    ensures missing == Missing(ms, RECENT, {})
  {
    var collectedToolResultIds: set<string> := {};
    missing := [];
    var i := |ms|;
    assert ms[..i] == ms;
    while i > 0 && |ms| - i < RECENT
      invariant 0 <= i <= |ms| && |ms| - i <= RECENT && missing == []
      invariant Missing(ms, RECENT, {}) == Missing(ms[..i], RECENT - (|ms| - i), collectedToolResultIds)
    {
      var r := ms[i - 1];
      assert ms[..i][..i - 1] == ms[..i - 1];
      if r.role == Tool && r.toolCallId.Some? {
        collectedToolResultIds := collectedToolResultIds + {r.toolCallId.value};
      } else if r.role == Assistant && r.toolCalls.Some? {
        missing := FilterMissing(CallIds(r.toolCalls.value), collectedToolResultIds);
        return;
      } else {
        return;
      }
      i := i - 1;
    }
  }

  method FilterMissing(ids: seq<string>, answered: set<string>) returns (missing: seq<string>)
    ensures missing == Without(ids, answered)
  {
    missing := [];
    for i := 0 to |ids|
      invariant Without(ids, answered) == missing + Without(ids[i..], answered)
    {
      assert ids[i..][1..] == ids[i + 1..];
      if ids[i] !in answered {
        missing := missing + [ids[i]];
      }
    }
  }

  function AbortedResult(id: string): ChatMessage
  {
    ChatMessage(Tool, Text(ABORTED), None, Some(id), None, None)
  }

  function AbortedResults(ids: seq<string>): (ms: seq<ChatMessage>)
    ensures |ms| == |ids|
  {
    seq(|ids|, i requires 0 <= i < |ids| => AbortedResult(ids[i]))
  }

  function Repaired(ms: seq<ChatMessage>): seq<ChatMessage>
  {
    ms + AbortedResults(Missing(ms, RECENT, {}))
  }

  /** A tool result goes in directly; anything else repairs first. */
  function WithAppended(ms: seq<ChatMessage>, m: ChatMessage): seq<ChatMessage>
  {
    (if m.role == Tool && Truthy(m.toolCallId).Some? then ms else Repaired(ms)) + [m]
  }

  // ----- On the table -----

  function AllAppended(rows: seq<Row>, session: string, segment: string, ms: seq<ChatMessage>): seq<Row>
    decreases |ms|
  {
    if ms == [] then rows else AllAppended(Appended(rows, session, segment, ms[0]), session, segment, ms[1..])
  }

  /** `append`: the results of the open calls, if any are due, and the message. */
  function AppendedRepaired(rows: seq<Row>, session: string, segment: string, m: ChatMessage): seq<Row>
  {
    var loaded := LoadSessionTranscript(rows, session, segment);
    var repaired :=
      if m.role == Tool && Truthy(m.toolCallId).Some? then rows
      else AllAppended(rows, session, segment, AbortedResults(Missing(loaded, RECENT, {})));
    Appended(repaired, session, segment, m)
  }

  lemma AbortedIsReadBack(id: string)
    requires id != ""
    ensures Storable(AbortedResult(id)) && Reloaded(AbortedResult(id)) == AbortedResult(id)
  {
  }

  lemma {:induction false} LoadAllAborted(rows: seq<Row>, session: string, segment: string, ids: seq<string>)
    requires forall i :: 0 <= i < |ids| ==> ids[i] != ""
    ensures LoadSessionTranscript(AllAppended(rows, session, segment, AbortedResults(ids)), session, segment)
         == LoadSessionTranscript(rows, session, segment) + AbortedResults(ids)
    decreases |ids|
  {
    hide LoadSessionTranscript, Appended, Reloaded, Storable, AbortedResult;
    var loaded := LoadSessionTranscript(rows, session, segment);
    if ids == [] {
      assert loaded + [] == loaded;
    } else {
      var first := AbortedResult(ids[0]);
      AbortedIsReadBack(ids[0]);
      LoadAfterAppend(rows, session, segment, first, session, segment);
      assert AbortedResults(ids)[1..] == AbortedResults(ids[1..]);
      LoadAllAborted(Appended(rows, session, segment, first), session, segment, ids[1..]);
      Associate(loaded, [first], AbortedResults(ids[1..]));
      HeadAndTail(AbortedResults(ids));
    }
  }

  /** What is loaded after an append is the transcript with the message appended, repaired if that is due. */
  lemma LoadAfterRepair(rows: seq<Row>, session: string, segment: string, m: ChatMessage)
    requires Storable(m) && Reloaded(m) == m
    requires forall c, id :: c in LoadSessionTranscript(rows, session, segment) && id in CalledIds(c) ==> id != ""
    ensures LoadSessionTranscript(AppendedRepaired(rows, session, segment, m), session, segment)
         == WithAppended(LoadSessionTranscript(rows, session, segment), m)
  {
    hide LoadSessionTranscript, Appended, Reloaded, Storable, AllAppended, Missing, AbortedResult;
    var loaded := LoadSessionTranscript(rows, session, segment);
    var ids := Missing(loaded, RECENT, {});
    MissingAreCalled(loaded, RECENT, {});
    forall i | 0 <= i < |ids| ensures ids[i] != "" {
      assert ids[i] in ids;
    }
    LoadAllAborted(rows, session, segment, ids);
    LoadAfterAppend(rows, session, segment, m, session, segment);
    LoadAfterAppend(AllAppended(rows, session, segment, AbortedResults(ids)), session, segment, m, session, segment);
  }

  lemma {:induction false} WithoutAre(ids: seq<string>, answered: set<string>)
    ensures forall id :: id in Without(ids, answered) <==> id in ids && id !in answered
    decreases |ids|
  {
    if ids != [] {
      WithoutAre(ids[1..], answered);
      assert forall id :: id in ids <==> id == ids[0] || id in ids[1..];
    }
  }

  lemma {:induction false} MissingAreCalled(ms: seq<ChatMessage>, window: nat, answered: set<string>)
    ensures forall id :: id in Missing(ms, window, answered) ==> exists c :: c in ms && id in CalledIds(c)
    decreases |ms|
  {
    if ms != [] && window > 0 {
      var n := |ms| - 1;
      if ms[n].role == Tool && ms[n].toolCallId.Some? {
        MissingAreCalled(ms[..n], window - 1, answered + {ms[n].toolCallId.value});
      } else if ms[n].role == Assistant && ms[n].toolCalls.Some? {
        WithoutAre(CallIds(ms[n].toolCalls.value), answered);
        CalledByTurn(ms[n]);
        assert ms[n] in ms;
      }
    }
  }

  lemma CalledByTurn(m: ChatMessage)
    requires m.role == Assistant && m.toolCalls.Some?
    ensures forall id :: id in CallIds(m.toolCalls.value) <==> id in CalledIds(m)
  {
    var calls, ids := m.toolCalls.value, CallIds(m.toolCalls.value);
    forall id | id in CalledIds(m) ensures id in ids {
      var i :| 0 <= i < |calls| && calls[i].id == id;
      assert ids[i] == id;
    }
  }

  // ----- What the repair achieves -----

  /** Number of results at the end. */
  function TrailingResults(ms: seq<ChatMessage>): (k: nat)
    ensures k <= |ms| && ToolsBetween(ms, |ms| - k, |ms|)
    ensures k < |ms| ==> ms[|ms| - k - 1].role != Tool
  {
    if ms == [] || ms[|ms| - 1].role != Tool then 0 else 1 + TrailingResults(ms[..|ms| - 1])
  }

  /** All calls are answered but those of a last turn that only results follow. */
  ghost predicate Settled(ms: seq<ChatMessage>)
  {
    forall j, id :: 0 <= j < |ms| && id in CalledIds(ms[j]) ==> HasResult(ms, j, id) || ToolsBetween(ms, j + 1, |ms|)
  }

  /** The ids of the last `k` messages, all of them results. */
  function LastIds(ms: seq<ChatMessage>, k: nat): set<string>
    requires k <= |ms|
  {
    set i | |ms| - k <= i < |ms| && ms[i].toolCallId.Some? :: ms[i].toolCallId.value
  }

  /** The repair sees the last turn iff fewer than fifty results follow it. */
  lemma {:induction false} MissingIs(ms: seq<ChatMessage>, window: nat, answered: set<string>)
    requires forall i :: 0 <= i < |ms| && ms[i].role == Tool ==> ms[i].toolCallId.Some?
    ensures
      var k := TrailingResults(ms);
      if k < window && k < |ms| && ms[|ms| - k - 1].role == Assistant && ms[|ms| - k - 1].toolCalls.Some?
      then
        forall id :: id in Missing(ms, window, answered) <==>
          id in CalledIds(ms[|ms| - k - 1]) && id !in answered + LastIds(ms, k)
      else Missing(ms, window, answered) == []
    decreases |ms|
  {
    hide CalledIds;
    if ms != [] && window > 0 {
      var n := |ms| - 1;
      if ms[n].role == Tool {
        var front, more, k := ms[..n], answered + {ms[n].toolCallId.value}, TrailingResults(ms[..n]);
        MissingIs(front, window - 1, more);
        assert more + LastIds(front, k) == answered + LastIds(ms, k + 1) by {
          LastIdsSnoc(ms, k);
        }
      } else if ms[n].role == Assistant && ms[n].toolCalls.Some? {
        WithoutAre(CallIds(ms[n].toolCalls.value), answered);
        CalledByTurn(ms[n]);
        assert LastIds(ms, 0) == {};
      }
    }
  }

  lemma LastIdsSnoc(ms: seq<ChatMessage>, k: nat)
    requires ms != [] && k < |ms| && ms[|ms| - 1].toolCallId.Some?
    ensures LastIds(ms, k + 1) == LastIds(ms[..|ms| - 1], k) + {ms[|ms| - 1].toolCallId.value}
  {
    var n := |ms| - 1;
    var front := ms[..n];
    forall id | id in LastIds(ms, k + 1) ensures id in LastIds(front, k) + {ms[n].toolCallId.value} {
      var i :| n - k <= i <= n && ms[i].toolCallId == Some(id);
      assert i < n ==> front[i] == ms[i];
    }
    forall id | id in LastIds(front, k) ensures id in LastIds(ms, k + 1) {
      var i :| n - k <= i < n && front[i].toolCallId == Some(id);
      assert ms[i] == front[i];
    }
    assert ms[n].toolCallId.value in LastIds(ms, k + 1);
  }

  lemma AnswersInFront(ms: seq<ChatMessage>, more: seq<ChatMessage>, j: nat, i: nat)
    requires i < |ms|
    ensures Answers(ms + more, j, i) <==> Answers(ms, j, i)
  {
    assert (ms + more)[..|ms|] == ms;
  }

  lemma ResultStays(ms: seq<ChatMessage>, more: seq<ChatMessage>, j: nat, id: string)
    requires j < |ms| && HasResult(ms, j, id)
    ensures HasResult(ms + more, j, id)
  {
    var i: nat :| j < i < |ms| && Answers(ms, j, i) && ms[i].toolCallId == Some(id);
    AnswersInFront(ms, more, j, i);
    assert (ms + more)[i] == ms[i];
  }

  /** A call of the last turn is answered by the results behind it, or gets an aborted result. */
  lemma LastTurnAnswered(ms: seq<ChatMessage>, id: string)
    requires ResultsPaired(ms)
    requires
      var k := TrailingResults(ms);
      k < RECENT && k < |ms| && id in CalledIds(ms[|ms| - k - 1])
    ensures HasResult(Repaired(ms), |ms| - TrailingResults(ms) - 1, id)
  {
    hide Missing, HasResult, ResultsPaired, CalledIds;
    var k := TrailingResults(ms);
    var t, ids, all := |ms| - k - 1, Missing(ms, RECENT, {}), Repaired(ms);
    ResultsHaveIds(ms);
    MissingIs(ms, RECENT, {});
    TurnMakesCalls(ms[t], id);
    assert forall x :: 0 <= x < |ms| ==> all[x] == ms[x];
    assert forall x :: |ms| <= x < |all| ==> all[x] == AbortedResult(ids[x - |ms|]);
    assert ToolsBetween(all, t + 1, |all|);
    if id in LastIds(ms, k) {
      var i :| |ms| - k <= i < |ms| && ms[i].toolCallId == Some(id);
      AnsweredBehind(all, t, i, id);
    } else {
      assert id in ids;
      var x :| 0 <= x < |ids| && ids[x] == id;
      AnsweredBehind(all, t, |ms| + x, id);
    }
  }

  lemma TurnMakesCalls(m: ChatMessage, id: string)
    requires id in CalledIds(m)
    ensures m.role == Assistant && m.toolCalls.Some?
  {
  }

  lemma AnsweredBehind(ms: seq<ChatMessage>, t: nat, i: nat, id: string)
    requires t < i < |ms| && id in CalledIds(ms[t]) && ToolsBetween(ms, t + 1, |ms|) && ms[i].toolCallId == Some(id)
    ensures HasResult(ms, t, id)
  {
    assert Answers(ms, t, i);
  }

  lemma ResultsHaveIds(ms: seq<ChatMessage>)
    requires ResultsPaired(ms)
    ensures forall i :: 0 <= i < |ms| && ms[i].role == Tool ==> ms[i].toolCallId.Some?
  {
    forall i | 0 <= i < |ms| && ms[i].role == Tool ensures ms[i].toolCallId.Some? {
      assert HasCall(ms, i);
    }
  }

  /** The repair answers every call iff all were answered, or fewer than fifty results follow the last turn. */
  lemma RepairAnswersIff(ms: seq<ChatMessage>)
    requires ResultsPaired(ms) && Settled(ms)
    ensures CallsAnswered(Repaired(ms)) <==> CallsAnswered(ms) || TrailingResults(ms) < RECENT
  {
    hide Missing, HasResult, ResultsPaired;
    var k, all := TrailingResults(ms), Repaired(ms);
    ResultsHaveIds(ms);
    MissingIs(ms, RECENT, {});
    var results := AbortedResults(Missing(ms, RECENT, {}));
    if k >= RECENT {
      assert all == ms;
    }
    if CallsAnswered(ms) || k < RECENT {
      forall j, id | 0 <= j < |all| && id in CalledIds(all[j]) ensures HasResult(all, j, id) {
        assert j < |ms| && all[j] == ms[j];
        if HasResult(ms, j, id) {
          ResultStays(ms, results, j, id);
        } else {
          assert ToolsBetween(ms, j + 1, |ms|);
          assert j == |ms| - k - 1;
          LastTurnAnswered(ms, id);
        }
      }
    }
  }

  /** Aborted results answer the last turn. */
  lemma RepairKeepsPaired(ms: seq<ChatMessage>)
    requires ResultsPaired(ms)
    ensures ResultsPaired(Repaired(ms))
  {
    hide Missing;
    var k, ids, all := TrailingResults(ms), Missing(ms, RECENT, {}), Repaired(ms);
    ResultsHaveIds(ms);
    MissingIs(ms, RECENT, {});
    assert forall x :: 0 <= x < |ms| ==> all[x] == ms[x];
    assert forall x :: |ms| <= x < |all| ==> all[x] == AbortedResult(ids[x - |ms|]);
    forall i | 0 <= i < |all| && all[i].role == Tool ensures HasCall(all, i) {
      if i < |ms| {
        assert HasCall(ms, i);
        var j: nat :| j < i && Answers(ms, j, i);
        AnswersInFront(ms, AbortedResults(ids), j, i);
      } else {
        assert ids[i - |ms|] in ids;
        assert Answers(all, |ms| - k - 1, i);
      }
    }
  }

  /**
    Main result. Appending keeps all calls but those of the last turn answered iff a result is appended, or nothing was
    unanswered, or fewer than fifty results follow the last turn: only so far back does the repair look.
   */
  lemma AppendKeepsSettledIff(ms: seq<ChatMessage>, m: ChatMessage)
    requires ResultsPaired(ms) && Settled(ms) && (m.role == Tool ==> Truthy(m.toolCallId).Some?)
    ensures Settled(WithAppended(ms, m)) <==>
      m.role == Tool || CallsAnswered(ms) || TrailingResults(ms) < RECENT
  {
    hide Repaired, HasResult, ResultsPaired;
    if m.role == Tool {
      ResultKeepsSettled(ms, m);
    } else {
      RepairAnswersIff(ms);
      TurnSettlesIff(Repaired(ms), m);
    }
  }

  lemma ResultKeepsSettled(ms: seq<ChatMessage>, m: ChatMessage)
    requires Settled(ms) && m.role == Tool
    ensures Settled(ms + [m])
  {
    hide HasResult;
    var all := ms + [m];
    forall j, id | 0 <= j < |all| && id in CalledIds(all[j])
      ensures HasResult(all, j, id) || ToolsBetween(all, j + 1, |all|)
    {
      assert j < |ms| && all[j] == ms[j];
      if HasResult(ms, j, id) {
        ResultStays(ms, [m], j, id);
      } else {
        assert forall x :: j + 1 <= x < |ms| ==> all[x] == ms[x];
      }
    }
  }

  /** Behind a message that is no result, only what was answered before counts as answered. */
  lemma TurnSettlesIff(ms: seq<ChatMessage>, m: ChatMessage)
    requires m.role != Tool
    ensures Settled(ms + [m]) <==> CallsAnswered(ms)
  {
    var all, n := ms + [m], |ms|;
    assert all[n] == m;
    forall j: nat, id | j < n ensures HasResult(all, j, id) <==> HasResult(ms, j, id) {
      if HasResult(ms, j, id) {
        ResultStays(ms, [m], j, id);
      }
      if HasResult(all, j, id) {
        var i: nat :| j < i < |all| && Answers(all, j, i) && all[i].toolCallId == Some(id);
        assert i < n;
        AnswersInFront(ms, [m], j, i);
        assert ms[i] == all[i];
      }
    }
    forall j: nat | j < n ensures all[j] == ms[j] && !ToolsBetween(all, j + 1, n + 1) {
    }
    assert ToolsBetween(all, n + 1, n + 1);
    if CallsAnswered(ms) {
      forall j, id | 0 <= j < |all| && id in CalledIds(all[j])
        ensures HasResult(all, j, id) || ToolsBetween(all, j + 1, |all|)
      {
        if j < n {
          assert id in CalledIds(ms[j]);
        }
      }
    }
    if Settled(all) {
      forall j, id | 0 <= j < n && id in CalledIds(ms[j]) ensures HasResult(ms, j, id) {
        assert id in CalledIds(all[j]);
      }
    }
  }
}
