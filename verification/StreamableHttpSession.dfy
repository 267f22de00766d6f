/** A JSON-RPC session over streamable HTTP: responses come from POST bodies and from event streams. */
module StreamableHttpSession {
  import opened Prelude
  import opened PendingRequests
  import opened JsonRpcMessages

  const CANCELLED: string := "notifications/cancelled"

  // ----- One inbound message -----

  /** The pending request a cancellation names. */
  function CancelTarget(pending: map<int, Pending>, m: Message): Option<int>
  {
    if m.name == Some(CANCELLED) && m.params.Some? && m.params.value.requestId.Numeric? &&
       m.params.value.requestId.n in pending
    then Some(m.params.value.requestId.n) else None
  }

  /** What a message does to the table: settle one request, or nothing; then it is forwarded. */
  function MessageOp(pending: map<int, Pending>, m: Message): Option<Op>
  {
    var target := CancelTarget(pending, m);
    if target.Some? then
      Some(Settle(target.value, Rejected(Cancelled(NonEmpty(OrEmpty(m.params.value.reason))))))
    else if m.id.Numeric? && m.id.n in pending then Some(Settle(m.id.n, ResponseOutcome(m)))
    else None
  }

  /** The messages of a value, batches flattened; anything that is no object is dropped. */
  function Leaves(msg: Json): seq<Message>
    decreases msg
  {
    match msg
    case Scalar => []
    case Object(m) => [m]
    case Batch(items) => LeavesOf(items)
  }

  function LeavesOf(items: seq<Json>): seq<Message>
    decreases items
  {
    if items == [] then [] else Leaves(items[0]) + LeavesOf(items[1..])
  }

  /** Table, settlements and forwarded messages after these messages. */
  function Dispatched(t: Table, ms: seq<Message>, timeout: int): (Table, seq<Settlements>, seq<Message>)
    decreases |ms|
  {
    if ms == [] then (t, [], [])
    else
      match MessageOp(t.pending, ms[0])
      case None =>
        var (last, log, forwarded) := Dispatched(t, ms[1..], timeout);
        (last, log, [ms[0]] + forwarded)
      case Some(op) =>
        var (next, settled) := Do(t, op, timeout);
        var (last, log, forwarded) := Dispatched(next, ms[1..], timeout);
        (last, [settled] + log, forwarded)
  }

  /** The table operations these messages amount to. */
  function DispatchOps(t: Table, ms: seq<Message>, timeout: int): seq<Op>
    decreases |ms|
  {
    if ms == [] then []
    else
      match MessageOp(t.pending, ms[0])
      case None => DispatchOps(t, ms[1..], timeout)
      case Some(op) => [op] + DispatchOps(Do(t, op, timeout).0, ms[1..], timeout)
  }

  lemma {:induction false} DispatchIsRun(t: Table, ms: seq<Message>, timeout: int)
    ensures
      var (after, log, forwarded) := Dispatched(t, ms, timeout);
      (after, log) == Run(t, DispatchOps(t, ms, timeout), timeout)
    decreases |ms|
  {
    hide Do, MessageOp;
    if ms != [] {
      match MessageOp(t.pending, ms[0])
      case None => DispatchIsRun(t, ms[1..], timeout);
      case Some(op) =>
        var next := Do(t, op, timeout).0;
        DispatchIsRun(next, ms[1..], timeout);
        assert ([op] + DispatchOps(next, ms[1..], timeout))[1..] == DispatchOps(next, ms[1..], timeout);
    }
  }

  lemma {:induction false} DispatchedAppend(t: Table, a: seq<Message>, b: seq<Message>, timeout: int)
    ensures
      var (t1, log1, forwarded1) := Dispatched(t, a, timeout);
      var (t2, log2, forwarded2) := Dispatched(t1, b, timeout);
      Dispatched(t, a + b, timeout) == (t2, log1 + log2, forwarded1 + forwarded2)
    decreases |a|
  {
    hide Do, MessageOp;
    if a == [] {
      var (t2, log2, forwarded2) := Dispatched(t, b, timeout);
      assert a + b == b && [] + log2 == log2 && [] + forwarded2 == forwarded2;
    } else {
      assert (a + b)[1..] == a[1..] + b;
      match MessageOp(t.pending, a[0])
      case None =>
        DispatchedAppend(t, a[1..], b, timeout);
        var (t1, log1, forwarded1) := Dispatched(t, a[1..], timeout);
        var forwarded2 := Dispatched(t1, b, timeout).2;
        assert ([a[0]] + forwarded1) + forwarded2 == [a[0]] + (forwarded1 + forwarded2);
      case Some(op) =>
        var (next, settled) := Do(t, op, timeout);
        DispatchedAppend(next, a[1..], b, timeout);
        var (t1, log1, forwarded1) := Dispatched(next, a[1..], timeout);
        var log2 := Dispatched(t1, b, timeout).1;
        assert ([settled] + log1) + log2 == [settled] + (log1 + log2);
    }
  }

  /** A message settles exactly one request, which was pending, or is forwarded; never both, never neither. */
  lemma SettledOrForwarded(t: Table, m: Message, timeout: int)
    ensures
      var (after, log, forwarded) := Dispatched(t, [m], timeout);
      (forwarded == [] && |log| == 1 && |log[0]| == 1 && log[0].Keys <= t.pending.Keys &&
       after.pending == t.pending - log[0].Keys) ||
      (forwarded == [m] && log == [] && after == t)
  {
    assert [m][1..] == [];
    match MessageOp(t.pending, m)
    case None =>
    case Some(op) =>
      var (next, settled) := Do(t, op, timeout);
      assert settled == map[op.id := op.outcome];
      assert Dispatched(t, [m], timeout) == (next, [settled] + [], []);
  }

  /** Over a whole batch: as many settlements as messages not forwarded. */
  lemma {:induction false} DispatchConserves(t: Table, ms: seq<Message>, timeout: int)
    ensures
      var (after, log, forwarded) := Dispatched(t, ms, timeout);
      |log| + |forwarded| == |ms| && |after.pending| + |log| == |t.pending| && (forall s :: s in log ==> |s| == 1)
    decreases |ms|
  {
    hide Do, MessageOp;
    if ms != [] {
      match MessageOp(t.pending, ms[0])
      case None => DispatchConserves(t, ms[1..], timeout);
      case Some(op) =>
        OneSettled(t, ms[0], timeout);
        DispatchConserves(Do(t, op, timeout).0, ms[1..], timeout);
    }
  }

  lemma OneSettled(t: Table, m: Message, timeout: int)
    requires MessageOp(t.pending, m).Some?
    ensures
      var (next, settled) := Do(t, MessageOp(t.pending, m).value, timeout);
      |settled| == 1 && |next.pending| + 1 == |t.pending|
  {
    hide ResponseOutcome;
    var op := MessageOp(t.pending, m).value;
    assert op.Settle? && op.id in t.pending;
    var next := Do(t, op, timeout).0;
    assert next.pending == t.pending - {op.id};
    assert t.pending.Keys == next.pending.Keys + {op.id};
    PendingCount(t.pending);
    PendingCount(next.pending);
  }

  lemma PendingCount(pending: map<int, Pending>)
    ensures |pending| == |pending.Keys|
  {
  }

  // ----- What a POST can come to -----

  datatype StreamItem = StreamItem(eventId: Option<string>, json: Json)

  /** The events an SSE body yields, and the error it breaks off with, if any. */
  datatype EventStream = EventStream(items: seq<StreamItem>, failure: Option<string>)

  datatype Retry = RetryFailed(error: string) | RetryStream(stream: EventStream)

  /** What the server answers when a body is resumed behind an event, named by its id. */
  type Resumption = string -> Retry

  datatype PostResponse =
    | FetchFailed(error: string)
    | Accepted(getDisabled: bool)
    | HttpError(error: string)
    | JsonBody(parsed: Option<Json>)
    | SseBody(first: EventStream, retry: Resumption)
    | OtherContent(contentType: string)

  const NOT_JSON := "MCP HTTP response is not JSON"
  const NO_MATCHING_ID := "MCP HTTP JSON response missing matching JSON-RPC id"
  const NO_GET := "MCP HTTP 202 response requires GET SSE, but GET is not supported (server returned 405/404)"

  // ----- The session -----

  datatype Event =
    | RequestMade(name: string, now: int)
    | Inbound(msg: Json)
    | PostFails(id: int, reason: Reason)
    | TimerFires(id: int)
    | SweepRuns(now: int)
    | CloseCalled

  /** A request made after closing still uses up an id, and is rejected at once. */
  function OpsOf(t: Table, e: Event, timeout: int): seq<Op>
  {
    match e
    case RequestMade(name, now) => [if t.closed then Refuse(SessionClosed) else Issue(now, name)]
    case Inbound(msg) => DispatchOps(t, Leaves(msg), timeout)
    case PostFails(id, reason) => [Settle(id, Rejected(reason))]
    case TimerFires(id) => [Expire(id)]
    case SweepRuns(now) => [Sweep(now)]
    case CloseCalled => [Close]
  }

  function RunSession(t: Table, events: seq<Event>, timeout: int): (Table, seq<Settlements>)
    decreases |events|
  {
    if events == [] then (t, [])
    else
      var (t1, log1) := Run(t, OpsOf(t, events[0], timeout), timeout);
      var (t2, log2) := RunSession(t1, events[1..], timeout);
      (t2, log1 + log2)
  }

  // ----- A POST between its awaits -----

  /**
    How far the handling of a POST has come. A body being read has a `resumption` when it may still be resumed;
    `Done(true)` leaves the request to the standing event stream.
   */
  datatype Post =
    | Arrived(response: PostResponse)
    | Reading(
        items: seq<StreamItem>, failure: Option<string>, lastEventId: Option<string>, resumption: Option<Resumption>)
    | Resuming(retry: Retry)
    | Done(left: bool)

  function LatestId(item: StreamItem, lastEventId: Option<string>): Option<string>
  {
    if item.eventId.Some? && item.eventId.value != "" then item.eventId else lastEventId
  }

  function EndReason(failure: Option<string>): Reason
  {
    if failure.Some? then TransportFailed(failure.value) else StreamEnded
  }

  /** The work up to the next await: what the session goes through, and what is left to do. */
  function PostStep(t: Table, rid: int, p: Post, timeout: int): (Post, seq<Event>)
  {
    match p
    case Done(_) => (p, [])
    case Resuming(RetryFailed(error)) => (Done(false), [PostFails(rid, TransportFailed(error))])
    case Resuming(RetryStream(stream)) => (Reading(stream.items, stream.failure, None, None), [])
    case Reading(items, failure, lastEventId, retry) =>
      if items != [] then
        var e := Inbound(items[0].json);
        (if rid in RunSession(t, [e], timeout).0.pending
         then Reading(items[1..], failure, LatestId(items[0], lastEventId), retry) else Done(false), [e])
      else if retry.Some? && lastEventId.Some? && (failure.None? || rid in t.pending)
      then (Resuming(retry.value(lastEventId.value)), [])
      else (Done(false), [PostFails(rid, EndReason(failure))])
    case Arrived(FetchFailed(error)) => (Done(false), [PostFails(rid, TransportFailed(error))])
    case Arrived(HttpError(error)) => (Done(false), [PostFails(rid, TransportFailed(error))])
    case Arrived(Accepted(getDisabled)) =>
      (Done(!getDisabled), if getDisabled then [PostFails(rid, TransportFailed(NO_GET))] else [])
    case Arrived(JsonBody(None)) => (Done(false), [PostFails(rid, TransportFailed(NOT_JSON))])
    case Arrived(JsonBody(Some(msg))) => (Done(false), [Inbound(msg), PostFails(rid, TransportFailed(NO_MATCHING_ID))])
    case Arrived(SseBody(first, retry)) => (Reading(first.items, first.failure, None, Some(retry)), [])
    case Arrived(OtherContent(contentType)) =>
      (Done(false), [PostFails(rid, TransportFailed(UnsupportedContent(contentType)))])
  }

  function UnsupportedContent(contentType: string): string
  {
    "Unsupported MCP HTTP Content-Type: " + if contentType == "" then "(empty)" else contentType
  }

  /** The last event id that is not empty. */
  function NewestId(items: seq<StreamItem>): Option<string>
  {
    if items == [] then None
    else
      var n := |items| - 1;
      if items[n].eventId.Some? && items[n].eventId != Some("") then items[n].eventId else NewestId(items[..n])
  }

  /** The id a body is resumed behind once its events are read. */
  function ResumedFrom(items: seq<StreamItem>, lastEventId: Option<string>): Option<string>
  {
    if NewestId(items).Some? then NewestId(items) else lastEventId
  }

  lemma {:induction false} FirstIdIsOlder(items: seq<StreamItem>, lastEventId: Option<string>)
    requires items != []
    ensures ResumedFrom(items[1..], LatestId(items[0], lastEventId)) == ResumedFrom(items, lastEventId)
    decreases |items|
  {
    var n := |items| - 1;
    if n == 0 {
      assert items[1..] == [] && items[..0] == [];
      assert NewestId([]) == None;
    } else {
      assert items[1..][n - 1] == items[n] && items[1..][..n - 1] == items[..n][1..];
      FirstIdIsOlder(items[..n], lastEventId);
    }
  }

  /** An upper bound on the steps left. */
  function StepsLeft(p: Post): nat
  {
    match p
    case Done(_) => 0
    case Reading(items, _, lastEventId, resumption) => |items| + 1 + ResumptionSteps(items, lastEventId, resumption)
    case Resuming(retry) => RetrySteps(retry)
    case Arrived(SseBody(first, retry)) => |first.items| + 2 + ResumptionSteps(first.items, None, Some(retry))
    case Arrived(_) => 1
  }

  function ResumptionSteps(items: seq<StreamItem>, lastEventId: Option<string>, resumption: Option<Resumption>): nat
  {
    if resumption.None? || ResumedFrom(items, lastEventId).None? then 0
    else RetrySteps(resumption.value(ResumedFrom(items, lastEventId).value))
  }

  function RetrySteps(retry: Retry): nat
  {
    if retry.RetryFailed? then 1 else |retry.stream.items| + 2
  }

  lemma StepsShrink(t: Table, rid: int, p: Post, timeout: int)
    requires !p.Done?
    ensures StepsLeft(PostStep(t, rid, p, timeout).0) < StepsLeft(p)
  {
    hide RunSession, RetrySteps, NewestId;
    if p.Reading? {
      if p.items != [] {
        FirstIdIsOlder(p.items, p.lastEventId);
      } else {
        NoNewestId();
      }
    }
    RetriesTakeSteps(p);
  }

  lemma OneMoreId(items: seq<StreamItem>, i: nat)
    requires i < |items|
    ensures NewestId(items[..i + 1]) == LatestId(items[i], NewestId(items[..i]))
  {
    assert items[..i + 1][..i] == items[..i];
  }

  lemma NoNewestId()
    ensures NewestId([]) == None
  {
  }

  lemma RetriesTakeSteps(p: Post)
    ensures p.Resuming? ==>
      RetrySteps(p.retry) == if p.retry.RetryFailed? then 1 else |p.retry.stream.items| + 2
  {
  }

  /** What the session goes through when no other event comes in between. */
  function Uninterrupted(t: Table, rid: int, p: Post, timeout: int): seq<Event>
    decreases StepsLeft(p)
  {
    if p.Done? then []
    else
      var (next, events) := PostStep(t, rid, p, timeout);
      StepsShrink(t, rid, p, timeout);
      events + Uninterrupted(RunSession(t, events, timeout).0, rid, next, timeout)
  }

  // ----- What the peer said about a request -----

  /** The message calls the request off. */
  predicate CallsOff(m: Message, id: int)
  {
    m.name == Some("notifications/cancelled") && m.params.Some? && m.params.value.requestId == Numeric(id)
  }

  /** The pending request a message is about: the one it calls off, else the one it answers. */
  function About(pending: set<int>, m: Message): Option<int>
  {
    if m.params.Some? && m.params.value.requestId.Numeric? && CallsOff(m, m.params.value.requestId.n) &&
       m.params.value.requestId.n in pending
    then Some(m.params.value.requestId.n)
    else if m.id.Numeric? && m.id.n in pending then Some(m.id.n)
    else None
  }

  /** Called off with the reason if there is one, else rejected with an error the answer carries, else resolved. */
  function SaidOf(m: Message, id: int): Outcome
  {
    if CallsOff(m, id) then
      Rejected(Cancelled(match m.params.value.reason
                         case Some(reason) => if reason == "" then None else Some(reason)
                         case None => None))
    else
      match m.error
      case Some(error) => Rejected(RpcError(error))
      case None => Resolved(m.result)
  }

  /** The first message about the request says what becomes of it. */
  function Said(pending: set<int>, ms: seq<Message>, id: int): Option<Outcome>
    decreases |ms|
  {
    if ms == [] then None
    else if About(pending, ms[0]) == Some(id) then Some(SaidOf(ms[0], id))
    else Said(StillOpen(pending, ms[0]), ms[1..], id)
  }

  function StillOpen(pending: set<int>, m: Message): set<int>
  {
    match About(pending, m)
    case Some(id) => pending - {id}
    case None => pending
  }

  function AllStillOpen(pending: set<int>, ms: seq<Message>): set<int>
    decreases |ms|
  {
    if ms == [] then pending else AllStillOpen(StillOpen(pending, ms[0]), ms[1..])
  }

  /** Messages about no pending request are passed on. */
  function PassedOn(pending: set<int>, ms: seq<Message>): seq<Message>
    decreases |ms|
  {
    if ms == [] then []
    else (if About(pending, ms[0]).None? then [ms[0]] else []) + PassedOn(StillOpen(pending, ms[0]), ms[1..])
  }

  lemma OneIsJudged(t: Table, m: Message, timeout: int)
    ensures
      var op, about := MessageOp(t.pending, m), About(t.pending.Keys, m);
      (op.None? <==> about.None?) &&
      (op.Some? ==> op.value == Settle(about.value, SaidOf(m, about.value)) && about.value in t.pending &&
                    Do(t, op.value, timeout).0.pending.Keys == StillOpen(t.pending.Keys, m) &&
                    Do(t, op.value, timeout).1 == map[about.value := SaidOf(m, about.value)])
  {
  }

  /** Dispatching settles each pending request as the first message about it says, and passes the rest on. */
  lemma {:induction false} MessagesAreJudged(t: Table, ms: seq<Message>, timeout: int, id: int)
    ensures
      var (after, log, forwarded) := Dispatched(t, ms, timeout);
      var said := if id in t.pending then Said(t.pending.Keys, ms, id) else None;
      (id in after.pending <==> id in t.pending && said.None?) &&
      after.pending.Keys == AllStillOpen(t.pending.Keys, ms) && forwarded == PassedOn(t.pending.Keys, ms) &&
      OutcomesOf(id, log) == if said.Some? then [said.value] else []
    decreases |ms|
  {
    hide Do, MessageOp, About, SaidOf, OutcomesOf;
    NoOutcomes(id);
    if ms != [] {
      OneIsJudged(t, ms[0], timeout);
      match MessageOp(t.pending, ms[0]) {
        case None => MessagesAreJudged(t, ms[1..], timeout, id);
        case Some(op) =>
          var (next, settled) := Do(t, op, timeout);
          MessagesAreJudged(next, ms[1..], timeout, id);
          OutcomesCons(id, settled, Dispatched(next, ms[1..], timeout).1);
      }
    }
  }

  // ----- What becomes of the request of a POST -----

  /** The messages of a body, in order. */
  function AllLeaves(items: seq<StreamItem>): seq<Message>
  {
    if items == [] then [] else Leaves(items[0].json) + AllLeaves(items[1..])
  }

  function Broken(failure: Option<string>): Outcome
  {
    match failure
    case Some(error) => Rejected(TransportFailed(error))
    case None => Rejected(StreamEnded)
  }

  /** What the first body says, else what is answered behind its last event id if there is one, else how it ended. */
  function BodySaid(pending: set<int>, items: seq<StreamItem>, failure: Option<string>, lastEventId: Option<string>,
      resumption: Option<Resumption>, id: int): Outcome
  {
    var ms := AllLeaves(items);
    match Said(pending, ms, id)
    case Some(said) => said
    case None =>
      if resumption.None? || ResumedFrom(items, lastEventId).None? then Broken(failure)
      else
        match resumption.value(ResumedFrom(items, lastEventId).value)
        case RetryFailed(error) => Rejected(TransportFailed(error))
        case RetryStream(stream) =>
          match Said(AllStillOpen(pending, ms), AllLeaves(stream.items), id)
          case Some(said) => said
          case None => Broken(stream.failure)
  }

  /** What becomes of a pending request when its POST comes to this, other events apart; none if it stays pending. */
  function PostSaid(pending: set<int>, response: PostResponse, id: int): Option<Outcome>
  {
    match response
    case FetchFailed(error) => Some(Rejected(TransportFailed(error)))
    case HttpError(error) => Some(Rejected(TransportFailed(error)))
    case OtherContent(contentType) => Some(Rejected(TransportFailed(UnsupportedContent(contentType))))
    case Accepted(getDisabled) => if getDisabled then Some(Rejected(TransportFailed(NO_GET))) else None
    case JsonBody(None) => Some(Rejected(TransportFailed(NOT_JSON)))
    case JsonBody(Some(msg)) =>
      Some(match Said(pending, Leaves(msg), id)
           case Some(said) => said
           case None => Rejected(TransportFailed(NO_MATCHING_ID)))
    case SseBody(first, retry) => Some(BodySaid(pending, first.items, first.failure, None, Some(retry), id))
  }

  class McpStreamableHttpSession {
    const timeoutMs: int
    var nextId: int
    var pending: map<int, Pending>
    var timers: set<int>
    var closed: bool
    var lastSseEventId: Option<string>

    ghost function Value(): Table
      reads this
    {
      Table(nextId, pending, timers, closed, false)
    }

    constructor (requestTimeout: TimeoutOption)
      ensures Value() == EMPTY && timeoutMs == EffectiveTimeout(requestTimeout)
    {
      timeoutMs := EffectiveTimeout(requestTimeout);
      nextId, pending, timers, closed, lastSseEventId := 1, map[], {}, false, None;
    }

    method Request(name: string, now: int) returns (id: int, settled: Settlements)
      modifies this
      ensures id == old(nextId)
      ensures (Value(), settled)
           == Do(old(Value()), if old(closed) then Refuse(SessionClosed) else Issue(now, name), timeoutMs)
    {
      id := nextId;
      nextId := nextId + 1;
      settled := map[];
      if closed {
        settled := map[id := Rejected(SessionClosed)];
        return;
      }
      pending := pending[id := Pending(now, name)];
      if timeoutMs > 0 {
        timers := timers + {id};
      }
    }

    /** The guarded removal every failing path of a POST uses. */
    method FailIfPending(id: int, reason: Reason) returns (settled: Settlements)
      modifies this`pending, this`timers
      ensures (Value(), settled) == Do(old(Value()), Settle(id, Rejected(reason)), timeoutMs)
      ensures id !in pending
    {
      settled := map[];
      if id in pending {
        pending := pending - {id};
        if id in timers {
          timers := timers - {id};
        }
        assert timers == old(timers) - {id};
        settled := map[id := Rejected(reason)];
      }
    }

    method TryRejectPendingFromCancelledNotification(m: Message) returns (matched: bool, settled: Settlements)
      modifies this`pending, this`timers
      ensures matched == CancelTarget(old(pending), m).Some?
      ensures matched ==> (Value(), settled) == Do(old(Value()), MessageOp(old(pending), m).value, timeoutMs)
      ensures !matched ==> Value() == old(Value()) && settled == map[]
    {
      settled := map[];
      if m.name != Some(CANCELLED) || m.params.None? || !m.params.value.requestId.Numeric? {
        return false, settled;
      }
      var rid := m.params.value.requestId.n;
      if rid !in pending {
        return false, settled;
      }
      settled := FailIfPending(rid, Cancelled(NonEmpty(OrEmpty(m.params.value.reason))));
      return true, settled;
    }

    method DispatchIncomingMessage(msg: Json) returns (log: seq<Settlements>, forwarded: seq<Message>)
      modifies this`pending, this`timers
      ensures (Value(), log, forwarded) == Dispatched(old(Value()), Leaves(msg), timeoutMs)
      decreases msg
    {
      hide Do, MessageOp, CancelTarget;
      log, forwarded := [], [];
      match msg {
        case Scalar =>
        case Batch(items) =>
          for i := 0 to |items|
            invariant LeavesOf(items) == LeavesOf(items[..i]) + LeavesOf(items[i..])
            invariant (Value(), log, forwarded) == Dispatched(old(Value()), LeavesOf(items[..i]), timeoutMs)
          {
            LeavesStep(items, i);
            DispatchedAppend(old(Value()), LeavesOf(items[..i]), Leaves(items[i]), timeoutMs);
            var moreLog, moreForwarded := DispatchIncomingMessage(items[i]);
            log := log + moreLog;
            forwarded := forwarded + moreForwarded;
          }
          assert items[..|items|] == items;
        case Object(m) =>
          log, forwarded := DispatchObject(m);
      }
    }

    method DispatchObject(m: Message) returns (log: seq<Settlements>, forwarded: seq<Message>)
      modifies this`pending, this`timers
      ensures (Value(), log, forwarded) == Dispatched(old(Value()), [m], timeoutMs)
    {
      log, forwarded := [], [];
      DispatchedOne(Value(), m, timeoutMs);
      var matched, settled := TryRejectPendingFromCancelledNotification(m);
      if matched {
        return [settled], forwarded;
      }
      if !m.id.Numeric? || m.id.n !in pending {
        return log, [m];
      }
      var id := m.id.n;
      pending := pending - {id};
      if id in timers {
        timers := timers - {id};
      }
      assert timers == old(timers) - {id};
      log := [map[id := ResponseOutcome(m)]];
    }

    method TimerFires(id: int) returns (settled: Settlements)
      modifies this
      ensures (Value(), settled) == Do(old(Value()), Expire(id), timeoutMs)
    {
      settled := map[];
      if id in timers && id in pending {
        pending := pending - {id};
        timers := timers - {id};
        settled := map[id := Rejected(TimedOut)];
      }
    }

    /** Reject everything and drop every timer; there are timers for pending requests only. */
    method CloseSession() returns (settled: Settlements)
      requires Valid(Value(), timeoutMs)
      modifies this
      ensures (Value(), settled) == Do(old(Value()), Close, timeoutMs)
    {
      settled := map[];
      if closed {
        return;
      }
      closed := true;
      var left := pending.Keys;
      while left != {}
        invariant left + settled.Keys == pending.Keys && left !! settled.Keys
        invariant forall id :: id in settled ==> settled[id] == Rejected(SessionClosed)
        decreases left
      {
        assert (forall k :: k !in left) ==> left == {};
        var id :| id in left;
        left := left - {id};
        settled := settled[id := Rejected(SessionClosed)];
      }
      IsAlike(settled, pending.Keys, Rejected(SessionClosed));
      assert old(pending) - old(pending).Keys == map[] && old(timers) - old(pending).Keys == {};
      pending := map[];
      timers := {};
    }

    // ----- POST responses -----

    /** Dispatch the events of a body until the request is answered. `trace` is what the session went through. */
    method ReadEvents(rid: int, items: seq<StreamItem>, ghost failure: Option<string>, ghost retry: Option<Resumption>)
      returns (log: seq<Settlements>, lastEventId: Option<string>, answered: bool, ghost trace: seq<Event>)
      modifies this`pending, this`timers, this`lastSseEventId
      ensures (Value(), log) == RunSession(old(Value()), trace, timeoutMs)
      ensures answered ==> rid !in pending
      ensures |trace| <= |items| && lastEventId == NewestId(items[..|trace|])
      ensures lastSseEventId == if lastEventId.Some? then lastEventId else old(lastSseEventId)
      ensures Uninterrupted(old(Value()), rid, Reading(items, failure, None, retry), timeoutMs)
           == trace + if answered then []
                      else Uninterrupted(Value(), rid, Reading([], failure, lastEventId, retry), timeoutMs)
    {
      hide Run, OpsOf, Do, Uninterrupted, RunSession;
      log, lastEventId, answered, trace := [], None, false, [];
      NothingRun(Value(), timeoutMs);
      assert items[0..] == items;
      for i := 0 to |items|
        invariant (Value(), log) == RunSession(old(Value()), trace, timeoutMs)
        invariant |trace| == i && lastEventId == NewestId(items[..i])
        invariant lastSseEventId == if lastEventId.Some? then lastEventId else old(lastSseEventId)
        invariant Uninterrupted(old(Value()), rid, Reading(items, failure, None, retry), timeoutMs)
               == trace + Uninterrupted(Value(), rid, Reading(items[i..], failure, lastEventId, retry), timeoutMs)
      {
        ghost var before, rest := Value(), Reading(items[i..], failure, lastEventId, retry);
        ReadStep(before, rid, rest, timeoutMs);
        InboundStep(old(Value()), trace, items[i].json, timeoutMs);
        NothingRun(before, timeoutMs);
        InboundStep(before, [], items[i].json, timeoutMs);
        assert [] + [Inbound(items[i].json)] == [Inbound(items[i].json)];
        OneMoreId(items, i);
        if items[i].eventId.Some? && items[i].eventId.value != "" {
          lastEventId := items[i].eventId;
          lastSseEventId := items[i].eventId;
        }
        var more, forwarded := DispatchIncomingMessage(items[i].json);
        ghost var e := Inbound(items[i].json);
        Associate(trace, [e], Uninterrupted(Value(), rid, PostStep(before, rid, rest, timeoutMs).0, timeoutMs));
        log := log + more;
        trace := trace + [e];
        if rid !in pending {
          answered := true;
          return;
        }
        assert items[i..][1..] == items[i + 1..];
      }
      assert items[|items|..] == [];
    }

    method Reject(rid: int, reason: Reason, log: seq<Settlements>, ghost start: Table, ghost trace: seq<Event>)
      returns (newLog: seq<Settlements>, ghost newTrace: seq<Event>)
      requires (Value(), log) == RunSession(start, trace, timeoutMs)
      modifies this`pending, this`timers
      ensures (Value(), newLog) == RunSession(start, newTrace, timeoutMs)
      ensures newTrace == trace + [PostFails(rid, reason)] && rid !in pending
    {
      hide Run, OpsOf, Do;
      FailStep(start, trace, rid, reason, timeoutMs);
      var settled := FailIfPending(rid, reason);
      newLog := log + [settled];
      newTrace := trace + [PostFails(rid, reason)];
    }

    /** An event-stream body; one resumption when it ended early after an event with an id. */
    method ReadSseRpcFromPostBodyWithRetry(rid: int, first: EventStream, resume: Resumption)
      returns (log: seq<Settlements>, ghost trace: seq<Event>)
      modifies this`pending, this`timers, this`lastSseEventId
      ensures (Value(), log) == RunSession(old(Value()), trace, timeoutMs)
      ensures trace == Uninterrupted(old(Value()), rid, Arrived(SseBody(first, resume)), timeoutMs)
      ensures rid !in pending
    {
      hide Run, OpsOf, Do, RunSession, Uninterrupted;
      ghost var start := Value();
      BodyStep(start, rid, first, resume, timeoutMs);
      var lastEventId, answered;
      log, lastEventId, answered, trace := ReadEvents(rid, first.items, first.failure, Some(resume));
      if answered {
        return;
      }
      if lastEventId.None? || (first.failure.Some? && rid !in pending) {
        BodyEnds(Value(), rid, first.failure, lastEventId, Some(resume), timeoutMs);
        log, trace := Reject(rid, EndReason(first.failure), log, start, trace);
        return;
      }
      var retry := resume(lastEventId.value);
      ResumeStep(Value(), rid, first.failure, lastEventId, resume, timeoutMs);
      if retry.RetryFailed? {
        log, trace := Reject(rid, TransportFailed(retry.error), log, start, trace);
        return;
      }
      var more, ignored;
      ghost var heard;
      ghost var resumed := Reading(retry.stream.items, retry.stream.failure, None, None);
      ghost var later := Uninterrupted(Value(), rid, resumed, timeoutMs);
      more, ignored, answered, heard := ReadEvents(rid, retry.stream.items, retry.stream.failure, None);
      SessionAppend(start, trace, heard, timeoutMs);
      Associate(trace, heard, if answered then []
        else Uninterrupted(Value(), rid, Reading([], retry.stream.failure, ignored, None), timeoutMs));
      log, trace := log + more, trace + heard;
      if answered {
        return;
      }
      BodyEnds(Value(), rid, retry.stream.failure, ignored, None, timeoutMs);
      log, trace := Reject(rid, EndReason(retry.stream.failure), log, start, trace);
    }

    /** Everything that can follow the POST of a request. Only a 202 with a working event stream leaves it pending. */
    method FinishPost(rid: int, response: PostResponse) returns (log: seq<Settlements>, ghost trace: seq<Event>)
      modifies this`pending, this`timers, this`lastSseEventId
      ensures (Value(), log) == RunSession(old(Value()), trace, timeoutMs)
      ensures trace == Uninterrupted(old(Value()), rid, Arrived(response), timeoutMs) && OwnTrace(rid, trace)
      ensures rid in pending ==> response.Accepted? && !response.getDisabled
      ensures rid in old(pending) ==>
        var said := PostSaid(old(pending).Keys, response, rid);
        OutcomesOf(rid, log) == if said.Some? then [said.value] else []
    {
      if rid in pending {
        PostIsJudged(Value(), rid, response, timeoutMs);
      }
      hide Run, OpsOf, Do, RunSession, Uninterrupted, PostSaid, OutcomesOf;
      log, trace := [], [];
      ghost var start := Value();
      NothingRun(start, timeoutMs);
      AloneFailsNoOther(start, rid, Arrived(response), timeoutMs);
      if !response.SseBody? {
        OnlyStep(start, rid, response, timeoutMs);
      }
      match response {
        case FetchFailed(error) => log, trace := Reject(rid, TransportFailed(error), log, start, trace);
        case HttpError(error) => log, trace := Reject(rid, TransportFailed(error), log, start, trace);
        case OtherContent(contentType) =>
          log, trace := Reject(rid, TransportFailed(UnsupportedContent(contentType)), log, start, trace);
        case Accepted(getDisabled) =>
          if getDisabled {
            log, trace := Reject(rid, TransportFailed(NO_GET), log, start, trace);
          }
        case JsonBody(parsed) =>
          if parsed.None? {
            log, trace := Reject(rid, TransportFailed(NOT_JSON), log, start, trace);
          } else {
            InboundStep(start, trace, parsed.value, timeoutMs);
            var more, forwarded := DispatchIncomingMessage(parsed.value);
            log, trace := log + more, trace + [Inbound(parsed.value)];
            log, trace := Reject(rid, TransportFailed(NO_MATCHING_ID), log, start, trace);
          }
        case SseBody(first, retry) =>
          log, trace := ReadSseRpcFromPostBodyWithRetry(rid, first, retry);
      }
    }
  }

  lemma NothingRun(t: Table, timeout: int)
    ensures RunSession(t, [], timeout) == (t, [])
  {
  }

  /** One event of a body. */
  lemma ReadStep(t: Table, rid: int, p: Post, timeout: int)
    requires p.Reading? && p.items != []
    ensures
      var e := Inbound(p.items[0].json);
      var after := RunSession(t, [e], timeout).0;
      Uninterrupted(t, rid, p, timeout) == [e] + Uninterrupted(after, rid, PostStep(t, rid, p, timeout).0, timeout) &&
      PostStep(t, rid, p, timeout).0 ==
        (if rid in after.pending
         then Reading(p.items[1..], p.failure, LatestId(p.items[0], p.lastEventId), p.resumption) else Done(false)) &&
      (rid !in after.pending ==> Uninterrupted(after, rid, PostStep(t, rid, p, timeout).0, timeout) == [])
  {
    hide RunSession;
  }

  lemma BodyStep(t: Table, rid: int, first: EventStream, retry: Resumption, timeout: int)
    ensures Uninterrupted(t, rid, Arrived(SseBody(first, retry)), timeout)
         == Uninterrupted(t, rid, Reading(first.items, first.failure, None, Some(retry)), timeout)
  {
    NothingRun(t, timeout);
    NothingBefore(Uninterrupted(t, rid, Reading(first.items, first.failure, None, Some(retry)), timeout));
  }

  lemma NothingBefore(es: seq<Event>)
    ensures [] + es == es == es + []
  {
  }

  lemma BodyEnds(t: Table, rid: int, failure: Option<string>, lastEventId: Option<string>, retry: Option<Resumption>,
      timeout: int)
    requires retry.None? || lastEventId.None? || (failure.Some? && rid !in t.pending)
    ensures Uninterrupted(t, rid, Reading([], failure, lastEventId, retry), timeout)
         == [PostFails(rid, EndReason(failure))]
  {
    hide RunSession;
    NothingBefore([PostFails(rid, EndReason(failure))]);
    var after := RunSession(t, [PostFails(rid, EndReason(failure))], timeout).0;
    assert Uninterrupted(after, rid, Done(false), timeout) == [];
  }

  lemma ResumeStep(t: Table, rid: int, failure: Option<string>, lastEventId: Option<string>, resume: Resumption,
      timeout: int)
    requires lastEventId.Some? && (failure.None? || rid in t.pending)
    ensures
      var retry := resume(lastEventId.value);
      Uninterrupted(t, rid, Reading([], failure, lastEventId, Some(resume)), timeout) ==
        if retry.RetryFailed? then [PostFails(rid, TransportFailed(retry.error))]
        else Uninterrupted(t, rid, Reading(retry.stream.items, retry.stream.failure, None, None), timeout)
  {
    hide RunSession;
    var retry := resume(lastEventId.value);
    NothingRun(t, timeout);
    NothingBefore(Uninterrupted(t, rid, Resuming(retry), timeout));
    match retry
    case RetryFailed(error) =>
      var after := RunSession(t, [PostFails(rid, TransportFailed(error))], timeout).0;
      assert Uninterrupted(after, rid, Done(false), timeout) == [];
      NothingBefore([PostFails(rid, TransportFailed(error))]);
    case RetryStream(stream) =>
      NothingBefore(Uninterrupted(t, rid, Reading(stream.items, stream.failure, None, None), timeout));
  }

  lemma OnlyStep(t: Table, rid: int, response: PostResponse, timeout: int)
    requires !response.SseBody?
    ensures Uninterrupted(t, rid, Arrived(response), timeout) == PostStep(t, rid, Arrived(response), timeout).1
  {
    hide RunSession;
    var (next, events) := PostStep(t, rid, Arrived(response), timeout);
    assert Uninterrupted(RunSession(t, events, timeout).0, rid, next, timeout) == [];
    NothingBefore(events);
  }

  lemma {:induction false} AloneFailsNoOther(t: Table, rid: int, p: Post, timeout: int)
    ensures OwnTrace(rid, Uninterrupted(t, rid, p, timeout))
    decreases StepsLeft(p)
  {
    hide RunSession;
    if !p.Done? {
      var (next, events) := PostStep(t, rid, p, timeout);
      StepsShrink(t, rid, p, timeout);
      AloneFailsNoOther(RunSession(t, events, timeout).0, rid, next, timeout);
      assert OwnTrace(rid, events);
    }
  }

  /** Failing a request rejects it if it is pending. */
  lemma FailureIsReported(t: Table, rid: int, reason: Reason, timeout: int)
    ensures OutcomesOf(rid, RunSession(t, [PostFails(rid, reason)], timeout).1)
         == if rid in t.pending then [Rejected(reason)] else []
  {
    hide RunSession, OutcomesOf;
    NothingRun(t, timeout);
    FailStep(t, [], rid, reason, timeout);
    assert [] + [PostFails(rid, reason)] == [PostFails(rid, reason)];
    var settled := Do(t, Settle(rid, Rejected(reason)), timeout).1;
    assert [] + [settled] == [settled] + [];
    OutcomesCons(rid, settled, []);
    NoOutcomes(rid);
  }

  /** An inbound value is judged by its messages. */
  lemma InboundIsJudged(t: Table, msg: Json, timeout: int, id: int)
    requires id in t.pending
    ensures
      var (after, log) := RunSession(t, [Inbound(msg)], timeout);
      var said := Said(t.pending.Keys, Leaves(msg), id);
      (id in after.pending <==> said.None?) && after.pending.Keys == AllStillOpen(t.pending.Keys, Leaves(msg)) &&
      OutcomesOf(id, log) == if said.Some? then [said.value] else []
  {
    hide RunSession, Said, AllStillOpen, OutcomesOf, Dispatched;
    NothingRun(t, timeout);
    InboundStep(t, [], msg, timeout);
    assert [] + [Inbound(msg)] == [Inbound(msg)];
    MessagesAreJudged(t, Leaves(msg), timeout, id);
    var log := Dispatched(t, Leaves(msg), timeout).1;
    assert [] + log == log;
  }

  lemma {:induction false} SaidAppend(pending: set<int>, a: seq<Message>, b: seq<Message>, id: int)
    ensures Said(pending, a + b, id) ==
      if Said(pending, a, id).Some? then Said(pending, a, id) else Said(AllStillOpen(pending, a), b, id)
    ensures AllStillOpen(pending, a + b) == AllStillOpen(AllStillOpen(pending, a), b)
    decreases |a|
  {
    hide About, SaidOf, StillOpen;
    if a == [] {
      assert a + b == b;
    } else {
      assert (a + b)[1..] == a[1..] + b;
      SaidAppend(StillOpen(pending, a[0]), a[1..], b, id);
    }
  }

  /** Running two stretches of events reports the outcomes of both. */
  lemma TwoStretches(t: Table, a: seq<Event>, b: seq<Event>, timeout: int, id: int)
    ensures
      var (mid, log) := RunSession(t, a, timeout);
      OutcomesOf(id, RunSession(t, a + b, timeout).1)
      == OutcomesOf(id, log) + OutcomesOf(id, RunSession(mid, b, timeout).1)
  {
    hide RunSession, OutcomesOf;
    SessionAppend(t, a, b, timeout);
    OutcomesAppend(id, RunSession(t, a, timeout).1, RunSession(RunSession(t, a, timeout).0, b, timeout).1);
  }

  lemma AllLeavesFirst(items: seq<StreamItem>)
    requires items != []
    ensures AllLeaves(items) == Leaves(items[0].json) + AllLeaves(items[1..])
  {
    hide Leaves;
  }

  /** A body that nothing interrupts settles its request as it says. */
  lemma {:induction false} BodyIsJudged(t: Table, rid: int, items: seq<StreamItem>, failure: Option<string>,
      lastEventId: Option<string>, resumption: Option<Resumption>, timeout: int)
    requires rid in t.pending
    ensures
      OutcomesOf(rid, RunSession(t, Uninterrupted(t, rid, Reading(items, failure, lastEventId, resumption), timeout),
        timeout).1) == [BodySaid(t.pending.Keys, items, failure, lastEventId, resumption, rid)]
    decreases StepsLeft(Reading(items, failure, lastEventId, resumption))
  {
    hide RunSession, OutcomesOf, Uninterrupted, Said, AllStillOpen, Leaves, AllLeaves, NewestId;
    var p := Reading(items, failure, lastEventId, resumption);
    var pending := t.pending.Keys;
    if items == [] {
      NoLeaves(pending, rid);
      NoNewestId();
      if resumption.Some? && lastEventId.Some? {
        ResumeStep(t, rid, failure, lastEventId, resumption.value, timeout);
        match resumption.value(lastEventId.value)
        case RetryFailed(error) => FailureIsReported(t, rid, TransportFailed(error), timeout);
        case RetryStream(stream) => BodyIsJudged(t, rid, stream.items, stream.failure, None, None, timeout);
      } else {
        BodyEnds(t, rid, failure, lastEventId, resumption, timeout);
        FailureIsReported(t, rid, EndReason(failure), timeout);
      }
    } else {
      var e, rest := Inbound(items[0].json), items[1..];
      var (after, log) := RunSession(t, [e], timeout);
      ReadStep(t, rid, p, timeout);
      InboundIsJudged(t, items[0].json, timeout, rid);
      AllLeavesFirst(items);
      FirstIdIsOlder(items, lastEventId);
      SaidAppend(pending, Leaves(items[0].json), AllLeaves(rest), rid);
      TwoStretches(t, [e], Uninterrupted(after, rid, PostStep(t, rid, p, timeout).0, timeout), timeout, rid);
      if rid in after.pending {
        BodyIsJudged(after, rid, rest, failure, LatestId(items[0], lastEventId), resumption, timeout);
        assert [] + OutcomesOf(rid, RunSession(after,
          Uninterrupted(after, rid, PostStep(t, rid, p, timeout).0, timeout), timeout).1)
          == OutcomesOf(rid, RunSession(after,
          Uninterrupted(after, rid, PostStep(t, rid, p, timeout).0, timeout), timeout).1);
      } else {
        NothingRun(after, timeout);
        NoOutcomes(rid);
      }
    }
  }

  lemma NoLeaves(pending: set<int>, id: int)
    ensures AllLeaves([]) == [] && Said(pending, [], id) == None && AllStillOpen(pending, []) == pending
  {
  }

  /** Main result on POSTs: left alone, a POST settles its request exactly as its response says. */
  lemma PostIsJudged(t: Table, rid: int, response: PostResponse, timeout: int)
    requires rid in t.pending
    ensures
      var said := PostSaid(t.pending.Keys, response, rid);
      OutcomesOf(rid, RunSession(t, Uninterrupted(t, rid, Arrived(response), timeout), timeout).1)
      == if said.Some? then [said.value] else []
  {
    hide RunSession, OutcomesOf, Uninterrupted, Said, AllStillOpen, Leaves, BodySaid;
    match response {
      case SseBody(first, retry) =>
        BodyStep(t, rid, first, retry, timeout);
        BodyIsJudged(t, rid, first.items, first.failure, None, Some(retry), timeout);
      case JsonBody(parsed) =>
        OnlyStep(t, rid, response, timeout);
        if parsed.Some? {
          var e, fails := Inbound(parsed.value), PostFails(rid, TransportFailed(NO_MATCHING_ID));
          var after := RunSession(t, [e], timeout).0;
          assert [e] + [fails] == [e, fails];
          TwoStretches(t, [e], [fails], timeout, rid);
          InboundIsJudged(t, parsed.value, timeout, rid);
          FailureIsReported(after, rid, TransportFailed(NO_MATCHING_ID), timeout);
        } else {
          FailureIsReported(t, rid, TransportFailed(NOT_JSON), timeout);
        }
      case Accepted(getDisabled) =>
        OnlyStep(t, rid, response, timeout);
        FailureIsReported(t, rid, TransportFailed(NO_GET), timeout);
        NothingRun(t, timeout);
        NoOutcomes(rid);
      case FetchFailed(error) =>
        OnlyStep(t, rid, response, timeout);
        FailureIsReported(t, rid, TransportFailed(error), timeout);
      case HttpError(error) =>
        OnlyStep(t, rid, response, timeout);
        FailureIsReported(t, rid, TransportFailed(error), timeout);
      case OtherContent(contentType) =>
        OnlyStep(t, rid, response, timeout);
        FailureIsReported(t, rid, TransportFailed(UnsupportedContent(contentType)), timeout);
    }
  }

  // ----- In terms of single messages -----

  /** Notifications carry no id, as JSON-RPC 2.0 has it (section 4.1). */
  predicate NoNamedNotification(ms: seq<Message>)
  {
    forall i :: 0 <= i < |ms| && ms[i].name == Some("notifications/cancelled") ==> !ms[i].id.Numeric?
  }

  /** Nothing is said about a request iff no message has its id or calls it off. */
  lemma {:induction false} NothingSaidIff(pending: set<int>, ms: seq<Message>, id: int)
    requires id in pending && NoNamedNotification(ms)
    ensures Said(pending, ms, id) == None <==>
      forall i :: 0 <= i < |ms| ==> ms[i].id != Numeric(id) && !CallsOff(ms[i], id)
    decreases |ms|
  {
    if ms != [] {
      assert CallsOff(ms[0], id) ==> !ms[0].id.Numeric?;
      assert ms[0].id == Numeric(id) ==> ms[0].name != Some("notifications/cancelled");
      assert About(pending, ms[0]) == Some(id) <==> ms[0].id == Numeric(id) || CallsOff(ms[0], id);
      if About(pending, ms[0]) != Some(id) {
        var rest := ms[1..];
        assert NoNamedNotification(rest) by {
          assert forall i :: 0 <= i < |rest| ==> rest[i] == ms[i + 1];
        }
        NothingSaidIff(StillOpen(pending, ms[0]), rest, id);
        assert forall i :: 0 <= i < |ms| ==> i == 0 || ms[i] == rest[i - 1];
        assert forall i :: 0 <= i < |rest| ==> rest[i] == ms[i + 1];
      }
    }
  }

  /** Over JSON, a POST reports that no message matches iff none has the id of its request or calls it off. */
  lemma NoMatchIsReportedIff(t: Table, rid: int, msg: Json, timeout: int)
    requires rid in t.pending && NoNamedNotification(Leaves(msg))
    ensures
      var log := RunSession(t, Uninterrupted(t, rid, Arrived(JsonBody(Some(msg))), timeout), timeout).1;
      OutcomesOf(rid, log) == [Rejected(TransportFailed(NO_MATCHING_ID))] <==>
        (forall i :: 0 <= i < |Leaves(msg)| ==> Leaves(msg)[i].id != Numeric(rid) && !CallsOff(Leaves(msg)[i], rid))
  {
    hide RunSession, Uninterrupted, Leaves;
    PostIsJudged(t, rid, JsonBody(Some(msg)), timeout);
    NothingSaidIff(t.pending.Keys, Leaves(msg), rid);
    SaidIsNoFailure(t.pending.Keys, Leaves(msg), rid);
  }

  lemma {:induction false} SaidIsNoFailure(pending: set<int>, ms: seq<Message>, id: int)
    ensures Said(pending, ms, id).Some? ==>
      var o := Said(pending, ms, id).value; o.Rejected? ==> !o.reason.TransportFailed?
    decreases |ms|
  {
    if ms != [] {
      SaidIsNoFailure(StillOpen(pending, ms[0]), ms[1..], id);
    }
  }

  /** A POST dispatches what it receives, and on its own account fails no request but its own. */
  ghost predicate OwnTrace(rid: int, trace: seq<Event>)
  {
    forall e :: e in trace ==> e.Inbound? || (e.PostFails? && e.id == rid)
  }

  lemma {:induction false} SessionAppend(t: Table, a: seq<Event>, b: seq<Event>, timeout: int)
    ensures
      var (t1, log1) := RunSession(t, a, timeout);
      var (t2, log2) := RunSession(t1, b, timeout);
      RunSession(t, a + b, timeout) == (t2, log1 + log2)
    decreases |a|
  {
    hide Run, OpsOf;
    if a == [] {
      var (t2, log2) := RunSession(t, b, timeout);
      assert a + b == b && [] + log2 == log2;
    } else {
      assert (a + b)[1..] == a[1..] + b;
      var (next, log0) := Run(t, OpsOf(t, a[0], timeout), timeout);
      SessionAppend(next, a[1..], b, timeout);
      var (t1, log1) := RunSession(next, a[1..], timeout);
      var log2 := RunSession(t1, b, timeout).1;
      assert (log0 + log1) + log2 == log0 + (log1 + log2);
    }
  }

  lemma OneEvent(t: Table, e: Event, timeout: int)
    ensures RunSession(t, [e], timeout) == Run(t, OpsOf(t, e, timeout), timeout)
  {
    hide Run, OpsOf;
    var (next, log) := Run(t, OpsOf(t, e, timeout), timeout);
    assert [e][1..] == [];
    assert RunSession(next, [], timeout) == (next, []);
    assert log + [] == log;
  }

  lemma InboundStep(start: Table, trace: seq<Event>, msg: Json, timeout: int)
    ensures
      var (t, log) := RunSession(start, trace, timeout);
      var (after, more, forwarded) := Dispatched(t, Leaves(msg), timeout);
      RunSession(start, trace + [Inbound(msg)], timeout) == (after, log + more)
  {
    hide Run, Do;
    var t := RunSession(start, trace, timeout).0;
    SessionAppend(start, trace, [Inbound(msg)], timeout);
    OneEvent(t, Inbound(msg), timeout);
    DispatchIsRun(t, Leaves(msg), timeout);
  }

  lemma FailStep(start: Table, trace: seq<Event>, rid: int, reason: Reason, timeout: int)
    ensures
      var (t, log) := RunSession(start, trace, timeout);
      var (after, settled) := Do(t, Settle(rid, Rejected(reason)), timeout);
      RunSession(start, trace + [PostFails(rid, reason)], timeout) == (after, log + [settled])
  {
    hide Do;
    var t := RunSession(start, trace, timeout).0;
    var op := Settle(rid, Rejected(reason));
    SessionAppend(start, trace, [PostFails(rid, reason)], timeout);
    OneEvent(t, PostFails(rid, reason), timeout);
    RunOne(t, op, timeout);
  }

  // ----- Whole runs -----

  function AllOps(t: Table, events: seq<Event>, timeout: int): seq<Op>
    decreases |events|
  {
    if events == [] then []
    else
      var ops := OpsOf(t, events[0], timeout);
      ops + AllOps(Run(t, ops, timeout).0, events[1..], timeout)
  }

  lemma {:induction false} SessionRunIsTableRun(t: Table, events: seq<Event>, timeout: int)
    ensures RunSession(t, events, timeout) == Run(t, AllOps(t, events, timeout), timeout)
    decreases |events|
  {
    hide OpsOf;
    if events == [] {
      assert Run(t, [], timeout) == (t, []);
    } else {
      var ops := OpsOf(t, events[0], timeout);
      var next := Run(t, ops, timeout).0;
      SessionRunIsTableRun(next, events[1..], timeout);
      RunAppend(t, ops, AllOps(next, events[1..], timeout), timeout);
    }
  }

  /** Main result: in every run each issued request is pending, or was settled exactly once; closing leaves none. */
  lemma RequestsSettleOnce(events: seq<Event>, timeout: int, id: int)
    requires 1 <= id < RunSession(EMPTY, events, timeout).0.nextId
    ensures
      var (after, log) := RunSession(EMPTY, events, timeout);
      |OutcomesOf(id, log)| == (if id in after.pending then 0 else 1) &&
      after.timers == (if timeout > 0 then after.pending.Keys else {}) &&
      (after.closed ==> after.pending == map[])
  {
    hide RunSession, Run, AllOps;
    SessionRunIsTableRun(EMPTY, events, timeout);
    SettledExactlyOnce(AllOps(EMPTY, events, timeout), id, timeout);
    RunKeepsValid(EMPTY, AllOps(EMPTY, events, timeout), timeout);
  }

  lemma LeavesStep(items: seq<Json>, i: nat)
    requires i < |items|
    ensures LeavesOf(items[..i + 1]) == LeavesOf(items[..i]) + Leaves(items[i])
    ensures LeavesOf(items[i..]) == Leaves(items[i]) + LeavesOf(items[i + 1..])
    ensures LeavesOf(items) == LeavesOf(items[..i + 1]) + LeavesOf(items[i + 1..])
  {
    hide Leaves, LeavesOf;
    LeavesAppend(items[..i], [items[i]]);
    TakeOneMore(items, i);
    LeavesOfOne(items[i]);
    LeavesAppend([items[i]], items[i + 1..]);
    DropOne(items, i);
    LeavesAppend(items[..i + 1], items[i + 1..]);
    SplitAround(items, i + 1);
  }

  lemma DropOne(items: seq<Json>, i: nat)
    requires i < |items|
    ensures items[i..] == [items[i]] + items[i + 1..]
  {
  }

  lemma LeavesOfOne(item: Json)
    ensures LeavesOf([item]) == Leaves(item)
  {
    hide Leaves;
    assert [item][1..] == [];
    assert LeavesOf([]) == [];
    assert Leaves(item) + [] == Leaves(item);
  }

  lemma {:induction false} LeavesAppend(a: seq<Json>, b: seq<Json>)
    ensures LeavesOf(a + b) == LeavesOf(a) + LeavesOf(b)
    decreases |a|
  {
    hide Leaves;
    if a == [] {
      assert a + b == b;
    } else {
      LeavesAppend(a[1..], b);
      assert (a + b)[1..] == a[1..] + b;
    }
  }

  lemma DispatchedOne(t: Table, m: Message, timeout: int)
    ensures
      var op := MessageOp(t.pending, m);
      Dispatched(t, [m], timeout) ==
        if op.None? then (t, [], [m]) else (Do(t, op.value, timeout).0, [Do(t, op.value, timeout).1], [])
  {
    hide Do, MessageOp;
    assert [m][1..] == [];
    match MessageOp(t.pending, m)
    case None =>
      assert Dispatched(t, [], timeout) == (t, [], []);
      assert [m] + [] == [m];
    case Some(op) =>
      var (next, settled) := Do(t, op, timeout);
      assert Dispatched(next, [], timeout) == (next, [], []);
      assert [settled] + [] == [settled];
  }
}
