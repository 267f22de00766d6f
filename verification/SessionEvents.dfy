/** What each event of a session does to a waiting request, over both transports. */
module SessionEvents {
  import opened Prelude
  import opened PendingRequests
  import opened JsonRpcMessages
  import Stdio = JsonRpcSession
  import Http = StreamableHttpSession

  /** Alone an event is one operation, and reports what that settles. */
  lemma OneOperation(t: Table, op: Op, timeout: int, id: int)
    requires Valid(t, timeout) && id in t.pending
    ensures
      var (after, log) := Run(t, [op], timeout);
      var settled := Do(t, op, timeout).1;
      after == Do(t, op, timeout).0 && OutcomesOf(id, log) == (if id in settled then [settled[id]] else [])
  {
    hide Do, Valid;
    RunOne(t, op, timeout);
    OutcomesCons(id, Do(t, op, timeout).1, []);
    NoOutcomes(id);
    assert [Do(t, op, timeout).1] + [] == [Do(t, op, timeout).1];
  }

  /** What rejects the waiting request `id`, made at `p.createdAt`, when no line arrives. */
  function StdioReason(e: Stdio.Event, p: Pending, id: int, timeout: int): Option<Reason>
  {
    match e
    case TimerFires(other) => if other == id && timeout > 0 then Some(TimedOut) else None
    case SweepRuns(now) => if timeout > 0 && p.createdAt + timeout < now then Some(Stale) else None
    case InputEnds => Some(StreamEnded)
    case InputFails(error) => Some(ReaderFailed(error))
    case WriteFails(other, error) => if other == id then Some(TransportFailed(error)) else None
    case CloseCalled => Some(SessionClosed)
    case _ => None
  }

  /** Over text: each event rejects a waiting request for its own reason, or leaves it waiting. */
  lemma StdioEventRejects(s: Stdio.Session, e: Stdio.Event, parse: Stdio.Parser, timeout: int, id: int)
    requires Valid(s.table, timeout) && id in s.table.pending && !e.ChunkArrives?
    ensures
      var (after, log) := Stdio.Next(s, e, parse, timeout);
      var reason := StdioReason(e, s.table.pending[id], id, timeout);
      OutcomesOf(id, log) == (if reason.Some? then [Rejected(reason.value)] else []) &&
      (id in after.table.pending <==> reason.None?) &&
      (id in after.table.pending ==> after.table.pending[id] == s.table.pending[id]) &&
      after.buffer == s.buffer && (after.table.closed <==> e.CloseCalled?) &&
      (after.table.ended <==> e.InputEnds?)
  {
    hide Run, OutcomesOf;
    var op := Stdio.OpsOf(s, e, parse)[0];
    assert Stdio.OpsOf(s, e, parse) == [op];
    OneOperation(s.table, op, timeout, id);
  }

  /** A request made in an open session waits under the next id; one that cannot be written is rejected at once. */
  lemma StdioRequestWaits(
      s: Stdio.Session, name: string, now: int, serializable: bool, parse: Stdio.Parser, timeout: int)
    requires Valid(s.table, timeout)
    ensures
      var (after, log) := Stdio.Next(s, Stdio.RequestMade(name, now, serializable), parse, timeout);
      var id := s.table.nextId;
      if s.table.closed || s.table.ended then after == s && OutcomesOf(id, log) == []
      else
        after.table.nextId == id + 1 && after.table.pending.Keys - {id} == s.table.pending.Keys &&
        (if serializable
         then id in after.table.pending && after.table.pending[id] == Pending(now, name) && OutcomesOf(id, log) == []
         else id !in after.table.pending && OutcomesOf(id, log) == [Rejected(Unserializable)])
  {
    hide OutcomesOf;
    var op := if serializable || s.table.closed || s.table.ended then Issue(now, name) else Refuse(Unserializable);
    RunOne(s.table, op, timeout);
    var settled := Do(s.table, op, timeout).1;
    OutcomesCons(s.table.nextId, settled, []);
    NoOutcomes(s.table.nextId);
    assert [settled] + [] == [settled];
  }

  function HttpReason(e: Http.Event, p: Pending, id: int, timeout: int): Option<Reason>
  {
    match e
    case TimerFires(other) => if other == id && timeout > 0 then Some(TimedOut) else None
    case SweepRuns(now) => if timeout > 0 && p.createdAt + timeout < now then Some(Stale) else None
    case PostFails(other, reason) => if other == id then Some(reason) else None
    case CloseCalled => Some(SessionClosed)
    case _ => None
  }

  lemma HttpStep(t: Table, e: Http.Event, timeout: int)
    ensures Http.RunSession(t, [e], timeout) == Run(t, Http.OpsOf(t, e, timeout), timeout)
  {
    hide Run;
    Http.OneEvent(t, e, timeout);
  }

  /** The same over HTTP, where inbound messages are judged one by one. */
  lemma HttpEventRejects(t: Table, e: Http.Event, timeout: int, id: int)
    requires Valid(t, timeout) && id in t.pending && !e.Inbound?
    ensures
      var (after, log) := Http.RunSession(t, [e], timeout);
      var reason := HttpReason(e, t.pending[id], id, timeout);
      OutcomesOf(id, log) == (if reason.Some? then [Rejected(reason.value)] else []) &&
      (id in after.pending <==> reason.None?) && (id in after.pending ==> after.pending[id] == t.pending[id]) &&
      (after.closed <==> e.CloseCalled?)
  {
    hide Run, OutcomesOf;
    HttpStep(t, e, timeout);
    var op := Http.OpsOf(t, e, timeout)[0];
    assert Http.OpsOf(t, e, timeout) == [op];
    OneOperation(t, op, timeout, id);
  }

  /** A request made after closing uses up an id and is rejected; before, it waits. */
  lemma HttpRequestWaits(t: Table, name: string, now: int, timeout: int)
    requires Valid(t, timeout)
    ensures
      var (after, log) := Http.RunSession(t, [Http.RequestMade(name, now)], timeout);
      var id := t.nextId;
      (t.closed || !t.ended ==> after.nextId == id + 1) &&
      (t.closed ==> after.pending == t.pending && OutcomesOf(id, log) == [Rejected(SessionClosed)]) &&
      (!t.closed && !t.ended ==> after.pending == t.pending[id := Pending(now, name)] && OutcomesOf(id, log) == [])
  {
    hide OutcomesOf;
    HttpStep(t, Http.RequestMade(name, now), timeout);
    var op := if t.closed then Refuse(SessionClosed) else Issue(now, name);
    RunOne(t, op, timeout);
    var settled := Do(t, op, timeout).1;
    OutcomesCons(t.nextId, settled, []);
    NoOutcomes(t.nextId);
    assert [settled] + [] == [settled];
  }

  // ----- Batches -----

  /** The value at a path of positions. */
  function At(msg: Json, path: seq<nat>): Option<Json>
    decreases |path|
  {
    if path == [] then Some(msg)
    else if msg.Batch? && path[0] < |msg.items| then At(msg.items[path[0]], path[1..])
    else None
  }

  ghost predicate Found(msg: Json, m: Message)
  {
    exists path :: At(msg, path) == Some(Object(m))
  }

  /** The messages of a value are those found anywhere in its batches. */
  lemma {:induction false} LeavesAreFound(msg: Json, m: Message)
    ensures m in Http.Leaves(msg) <==> Found(msg, m)
    decreases msg
  {
    match msg
    case Scalar =>
    case Object(own) => assert At(msg, []) == Some(Object(own));
    case Batch(items) =>
      LeavesOfAreFound(items, m);
      if k: nat :| k < |items| && Found(items[k], m) {
        var path :| At(items[k], path) == Some(Object(m));
        assert ([k] + path)[1..] == path;
        assert At(msg, [k] + path) == Some(Object(m));
      }
      if path :| At(msg, path) == Some(Object(m)) {
        assert At(items[path[0]], path[1..]) == Some(Object(m));
        assert Found(items[path[0]], m);
      }
  }

  lemma {:induction false} LeavesOfAreFound(items: seq<Json>, m: Message)
    ensures m in Http.LeavesOf(items) <==> exists k: nat :: k < |items| && Found(items[k], m)
    decreases items
  {
    hide Found;
    if items != [] {
      var rest := items[1..];
      LeavesAreFound(items[0], m);
      LeavesOfAreFound(rest, m);
      if k: nat :| k < |rest| && Found(rest[k], m) {
        assert items[k + 1] == rest[k];
      }
      if k: nat :| k < |items| && Found(items[k], m) {
        assert k > 0 ==> rest[k - 1] == items[k];
      }
    }
  }
}
