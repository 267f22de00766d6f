/** A JSON-RPC session over newline-delimited text: stdio or TCP. */
module JsonRpcSession {
  import opened Prelude
  import opened LineFraming
  import opened PendingRequests
  import opened JsonRpcMessages

  type Parser = string -> Option<Json>

  // ----- One line -----

  function LineText(line: string): string
  {
    Trim(DropCarriageReturn(line))
  }

  datatype Effect =
    | Nothing | ProtocolError(line: string) | Notify(m: Message) | Respond(id: int, outcome: Outcome)

  /** What a line asks for: text that is no JSON is reported, id-less calls go to the tap, the rest are responses. */
  function LineEffect(line: string, parse: Parser): Effect
  {
    var text := LineText(line);
    if text == "" then Nothing
    else match parse(text)
      case None => ProtocolError(text)
      case Some(Object(m)) =>
        if m.id.Missing? then (if m.name.Some? then Notify(m) else Nothing)
        else if m.id.Unusable? then Nothing
        else Respond(m.id.n, ResponseOutcome(m))
      case Some(_) => Nothing
  }

  function EffectOps(e: Effect): seq<Op>
  {
    if e.Respond? then [Settle(e.id, e.outcome)] else []
  }

  function EffectReports(e: Effect): seq<Effect>
  {
    if e.Notify? || e.ProtocolError? then [e] else []
  }

  function LineOps(lines: seq<string>, parse: Parser): seq<Op>
    decreases |lines|
  {
    if lines == [] then [] else EffectOps(LineEffect(lines[0], parse)) + LineOps(lines[1..], parse)
  }

  /** What the lines report to the outside: notifications and protocol errors, in order. */
  function LineReports(lines: seq<string>, parse: Parser): seq<Effect>
    decreases |lines|
  {
    if lines == [] then [] else EffectReports(LineEffect(lines[0], parse)) + LineReports(lines[1..], parse)
  }

  // ----- The session as a value -----

  datatype Session = Session(table: Table, buffer: string)

  /** A chunk of decoded text: complete lines are handled, the rest is kept. */
  function Received(s: Session, chunk: string, parse: Parser, timeout: int): (Session, seq<Settlements>, seq<Effect>)
  {
    if s.table.closed then (s, [], [])
    else
      var text := s.buffer + chunk;
      var (table, log) := Run(s.table, LineOps(Lines(text), parse), timeout);
      (Session(table, Unfinished(text)), log, LineReports(Lines(text), parse))
  }

  class McpJsonRpcSession {
    const timeoutMs: int
    var nextId: int
    var pending: map<int, Pending>
    var timers: set<int>
    var buffer: string
    var closed: bool
    var inputEnded: bool

    ghost function TableValue(): Table
      reads this
    {
      Table(nextId, pending, timers, closed, inputEnded)
    }

    ghost function Value(): Session
      reads this
    {
      Session(TableValue(), buffer)
    }

    constructor (requestTimeout: TimeoutOption)
      ensures Value() == Session(EMPTY, "") && timeoutMs == EffectiveTimeout(requestTimeout)
    {
      timeoutMs := EffectiveTimeout(requestTimeout);
      nextId, pending, timers, buffer, closed, inputEnded := 1, map[], {}, "", false, false;
    }

    /** `id` is absent when the session refuses to send at all. */
    method Request(name: string, now: int, serializable: bool) returns (id: Option<int>, settled: Settlements)
      modifies this
      ensures buffer == old(buffer)
      ensures (TableValue(), settled)
           == Do(old(TableValue()),
                 if serializable || old(closed || inputEnded) then Issue(now, name) else Refuse(Unserializable),
                 timeoutMs)
      ensures id == if old(closed || inputEnded) then None else Some(old(nextId))
    {
      settled := map[];
      if closed || inputEnded {
        return None, settled;
      }
      id := Some(nextId);
      nextId := nextId + 1;
      if !serializable {
        settled := map[id.value := Rejected(Unserializable)];
        return;
      }
      pending := pending[id.value := Pending(now, name)];
      if timeoutMs > 0 {
        timers := timers + {id.value};
      }
    }

    /** An armed timer runs out. */
    method TimerFires(id: int) returns (settled: Settlements)
      modifies this
      ensures buffer == old(buffer)
      ensures (TableValue(), settled) == Do(old(TableValue()), Expire(id), timeoutMs)
    {
      settled := map[];
      if id in timers && id in pending {
        pending := pending - {id};
        timers := timers - {id};
        settled := map[id := Rejected(TimedOut)];
      }
    }

    /** Take one request out of the table and disarm its timer: the common part of all settlers. */
    method TakeOut(id: int, outcome: Outcome) returns (settled: Settlements)
      modifies this`pending, this`timers
      ensures (TableValue(), settled) == Do(old(TableValue()), Settle(id, outcome), timeoutMs)
    {
      settled := map[];
      if id in pending {
        pending := pending - {id};
        if id in timers {
          timers := timers - {id};
        }
        assert timers == old(timers) - {id};
        settled := map[id := outcome];
      }
    }

    method StaleCleanup(now: int) returns (settled: Settlements)
      modifies this
      ensures buffer == old(buffer)
      ensures (TableValue(), settled) == Do(old(TableValue()), PendingRequests.Sweep(now), timeoutMs)
    {
      settled := map[];
      if closed || timeoutMs <= 0 {
        return;
      }
      var left := pending.Keys;
      ghost var seen: set<int> := {};
      ghost var before := TableValue();
      while left != {}
        invariant left + seen == before.pending.Keys && left !! seen
        invariant seen * Overdue(before, now, timeoutMs) == settled.Keys
        invariant TableValue() == Without(before, settled.Keys)
        invariant forall id :: id in settled ==> settled[id] == Rejected(Stale)
        invariant buffer == old(buffer)
        decreases left
      {
        assert (forall k :: k !in left) ==> left == {};
        var id :| id in left;
        left := left - {id};
        seen := seen + {id};
        if now - pending[id].createdAt > timeoutMs {
          var one := TakeOut(id, Rejected(Stale));
          settled := settled[id := Rejected(Stale)];
        }
      }
      ghost var overdue := Overdue(before, now, timeoutMs);
      assert settled.Keys == overdue;
      IsAlike(settled, overdue, Rejected(Stale));
    }

    method FailAll(reason: Reason) returns (settled: Settlements)
      modifies this`pending, this`timers
      ensures TableValue() == Without(old(TableValue()), old(pending).Keys)
      ensures settled == AllRejected(old(TableValue()), reason)
    {
      settled := map[];
      var left := pending.Keys;
      while left != {}
        invariant left + settled.Keys == pending.Keys && left !! settled.Keys && pending == old(pending)
        invariant timers == old(timers) - settled.Keys
        invariant forall id :: id in settled ==> settled[id] == Rejected(reason)
        decreases left
      {
        assert (forall k :: k !in left) ==> left == {};
        var id :| id in left;
        left := left - {id};
        if id in timers {
          timers := timers - {id};
        }
        settled := settled[id := Rejected(reason)];
      }
      assert settled.Keys == old(pending).Keys;
      IsAlike(settled, old(pending).Keys, Rejected(reason));
      pending := map[];
    }

    method OnChunk(chunk: string, parse: Parser) returns (log: seq<Settlements>, reports: seq<Effect>)
      modifies this
      ensures (Value(), log, reports) == Received(old(Value()), chunk, parse, timeoutMs)
    {
      hide LineOps, LineReports, Run, Lines, Unfinished, LineEffect, Do, EffectOps;
      log, reports := [], [];
      if closed {
        return;
      }
      buffer := buffer + chunk;
      ghost var text, start := buffer, TableValue();
      ghost var done: seq<string> := [];
      NoLinesYet(start, parse, timeoutMs);
      while LineFeed(buffer) < |buffer|
        invariant closed == old(closed)
        invariant done + Lines(buffer) == Lines(text) && Unfinished(buffer) == Unfinished(text)
        invariant (TableValue(), log) == Run(start, LineOps(done, parse), timeoutMs)
        invariant reports == LineReports(done, parse)
        decreases |buffer|
      {
        FirstLine(buffer);
        var nl := LineFeed(buffer);
        var line := buffer[..nl];
        buffer := buffer[nl + 1..];
        OneMoreLine(start, done, line, parse, timeoutMs);
        Associate(done, [line], Lines(buffer));
        done := done + [line];
        var e := LineEffect(line, parse);
        if e.Respond? {
          var settled := TakeOut(e.id, e.outcome);
          log := log + [settled];
        } else if e.Notify? || e.ProtocolError? {
          reports := reports + [e];
        }
      }
      NoMoreLines(buffer);
      assert done + [] == done;
    }

    method OnEnd() returns (settled: Settlements)
      modifies this
      ensures buffer == old(buffer)
      ensures (TableValue(), settled) == Do(old(TableValue()), PendingRequests.End, timeoutMs)
    {
      inputEnded := true;
      settled := map[];
      if !closed {
        settled := FailAll(StreamEnded);
      }
    }

    method OnErr(error: string) returns (settled: Settlements)
      modifies this
      ensures buffer == old(buffer)
      ensures (TableValue(), settled) == Do(old(TableValue()), Fail(ReaderFailed(error)), timeoutMs)
    {
      settled := map[];
      if !closed {
        settled := FailAll(ReaderFailed(error));
      }
    }

    method WriteFails(id: int, error: string) returns (settled: Settlements)
      modifies this
      ensures buffer == old(buffer)
      ensures (TableValue(), settled) == Do(old(TableValue()), Settle(id, Rejected(TransportFailed(error))), timeoutMs)
    {
      settled := TakeOut(id, Rejected(TransportFailed(error)));
    }

    method CloseSession() returns (settled: Settlements)
      modifies this
      ensures buffer == old(buffer)
      ensures (TableValue(), settled) == Do(old(TableValue()), PendingRequests.Close, timeoutMs)
    {
      settled := map[];
      if closed {
        return;
      }
      closed := true;
      settled := FailAll(SessionClosed);
    }
  }

  lemma NoLinesYet(start: Table, parse: Parser, timeout: int)
    ensures Run(start, LineOps([], parse), timeout) == (start, []) && LineReports([], parse) == []
  {
  }

  lemma {:induction false} LineOpsAppend(a: seq<string>, b: seq<string>, parse: Parser)
    ensures LineOps(a + b, parse) == LineOps(a, parse) + LineOps(b, parse)
    ensures LineReports(a + b, parse) == LineReports(a, parse) + LineReports(b, parse)
    decreases |a|
  {
    hide LineEffect, EffectOps, EffectReports;
    if a == [] {
      assert a + b == b;
    } else {
      LineOpsAppend(a[1..], b, parse);
      assert (a + b)[1..] == a[1..] + b;
      var first := LineEffect(a[0], parse);
      Associate(EffectOps(first), LineOps(a[1..], parse), LineOps(b, parse));
      Associate(EffectReports(first), LineReports(a[1..], parse), LineReports(b, parse));
    }
  }

  lemma OneMoreLine(start: Table, done: seq<string>, line: string, parse: Parser, timeout: int)
    ensures
      var e := LineEffect(line, parse);
      var (t, log) := Run(start, LineOps(done, parse), timeout);
      Run(start, LineOps(done + [line], parse), timeout) ==
        (if e.Respond?
         then (Do(t, Settle(e.id, e.outcome), timeout).0, log + [Do(t, Settle(e.id, e.outcome), timeout).1])
         else (t, log))
    ensures LineReports(done + [line], parse) == LineReports(done, parse) + EffectReports(LineEffect(line, parse))
  {
    hide LineEffect, Do;
    var e := LineEffect(line, parse);
    LineOpsAppend(done, [line], parse);
    OneLine(line, parse);
    RunAppend(start, LineOps(done, parse), EffectOps(e), timeout);
    var (t, log) := Run(start, LineOps(done, parse), timeout);
    if e.Respond? {
      RunOne(t, Settle(e.id, e.outcome), timeout);
    } else {
      assert log + [] == log;
    }
  }

  lemma OneLine(line: string, parse: Parser)
    ensures LineOps([line], parse) == EffectOps(LineEffect(line, parse))
    ensures LineReports([line], parse) == EffectReports(LineEffect(line, parse))
  {
    hide LineEffect, EffectOps, EffectReports;
    assert [line][1..] == [];
  }

  // ----- Framing does not depend on chunks -----

  lemma {:induction false} ResponsesKeepOpen(t: Table, ops: seq<Op>, timeout: int)
    requires forall i :: 0 <= i < |ops| ==> ops[i].Settle?
    ensures Run(t, ops, timeout).0.closed == t.closed
    decreases |ops|
  {
    if ops != [] {
      assert ops[0].Settle?;
      ResponsesKeepOpen(Do(t, ops[0], timeout).0, ops[1..], timeout);
    }
  }

  lemma {:induction false} LinesOnlyRespond(lines: seq<string>, parse: Parser)
    ensures forall i :: 0 <= i < |LineOps(lines, parse)| ==> LineOps(lines, parse)[i].Settle?
    decreases |lines|
  {
    hide LineEffect;
    if lines != [] {
      LinesOnlyRespond(lines[1..], parse);
    }
  }

  function ReceivedAll(s: Session, chunks: seq<string>, parse: Parser, timeout: int)
    : (Session, seq<Settlements>, seq<Effect>)
    decreases |chunks|
  {
    if chunks == [] then (s, [], [])
    else
      var (s1, log1, reports1) := Received(s, chunks[0], parse, timeout);
      var (s2, log2, reports2) := ReceivedAll(s1, chunks[1..], parse, timeout);
      (s2, log1 + log2, reports1 + reports2)
  }

  lemma ReceivedTwice(s: Session, a: string, b: string, parse: Parser, timeout: int)
    ensures
      var (s1, log1, reports1) := Received(s, a, parse, timeout);
      var (s2, log2, reports2) := Received(s1, b, parse, timeout);
      Received(s, a + b, parse, timeout) == (s2, log1 + log2, reports1 + reports2)
  {
    hide LineOps, LineReports, Run, Lines, Unfinished;
    var text := s.buffer + a;
    assert s.buffer + (a + b) == text + b;
    LinesAppend(text, b);
    LineOpsAppend(Lines(text), Lines(Unfinished(text) + b), parse);
    RunAppend(s.table, LineOps(Lines(text), parse), LineOps(Lines(Unfinished(text) + b), parse), timeout);
    LinesOnlyRespond(Lines(text), parse);
    ResponsesKeepOpen(s.table, LineOps(Lines(text), parse), timeout);
    if !s.table.closed {
      var (s1, log1, reports1) := Received(s, a, parse, timeout);
      var (s2, log2, reports2) := Received(s1, b, parse, timeout);
      assert (s2.table, log1 + log2) == Run(s.table, LineOps(Lines(text + b), parse), timeout);
    } else {
      var nothing: (seq<Settlements>, seq<Effect>) := ([], []);
      assert nothing.0 + nothing.0 == [] && nothing.1 + nothing.1 == [];
    }
  }

  /** Main result on framing: however decoded text is cut, the session ends in the same state and reports the same. */
  lemma {:induction false} FramingIsChunkInvariant(s: Session, chunks: seq<string>, parse: Parser, timeout: int)
    requires s.buffer == Unfinished(s.buffer)
    ensures ReceivedAll(s, chunks, parse, timeout) == Received(s, Flatten(chunks), parse, timeout)
    decreases |chunks|
  {
    hide Received;
    if chunks == [] {
      NothingReceived(s, parse, timeout);
    } else {
      var s1 := Received(s, chunks[0], parse, timeout).0;
      RemainderIsUnfinished(s, chunks[0], parse, timeout);
      FramingIsChunkInvariant(s1, chunks[1..], parse, timeout);
      ReceivedTwice(s, chunks[0], Flatten(chunks[1..]), parse, timeout);
    }
  }

  lemma RemainderIsUnfinished(s: Session, chunk: string, parse: Parser, timeout: int)
    requires s.buffer == Unfinished(s.buffer)
    ensures var s1 := Received(s, chunk, parse, timeout).0; s1.buffer == Unfinished(s1.buffer)
  {
    UnfinishedHasNoLines(s.buffer + chunk);
  }

  lemma NothingReceived(s: Session, parse: Parser, timeout: int)
    requires s.buffer == Unfinished(s.buffer)
    ensures Received(s, "", parse, timeout) == (s, [], [])
  {
    UnfinishedHasNoLines(s.buffer);
    assert s.buffer + "" == s.buffer;
  }

  // ----- Whole runs -----

  datatype Event =
    | RequestMade(name: string, now: int, serializable: bool)
    | ChunkArrives(text: string)
    | TimerFires(id: int)
    | SweepRuns(now: int)
    | InputEnds
    | InputFails(error: string)
    | WriteFails(id: int, error: string)
    | CloseCalled

  /** The table operations an event amounts to. */
  function OpsOf(s: Session, e: Event, parse: Parser): seq<Op>
  {
    match e
    case RequestMade(name, now, serializable) =>
      [if serializable || s.table.closed || s.table.ended then Issue(now, name) else Refuse(Unserializable)]
    case ChunkArrives(text) => if s.table.closed then [] else LineOps(Lines(s.buffer + text), parse)
    case TimerFires(id) => [Expire(id)]
    case SweepRuns(now) => [Sweep(now)]
    case InputEnds => [End]
    case InputFails(error) => [Fail(ReaderFailed(error))]
    case WriteFails(id, error) => [Settle(id, Rejected(TransportFailed(error)))]
    case CloseCalled => [Close]
  }

  function Next(s: Session, e: Event, parse: Parser, timeout: int): (Session, seq<Settlements>)
  {
    var (table, log) := Run(s.table, OpsOf(s, e, parse), timeout);
    (Session(table, if e.ChunkArrives? && !s.table.closed then Unfinished(s.buffer + e.text) else s.buffer), log)
  }

  /** In a run, a chunk does what the read loop makes of it. */
  lemma ChunkIsReceived(s: Session, text: string, parse: Parser, timeout: int)
    ensures
      var (after, log, _) := Received(s, text, parse, timeout);
      Next(s, ChunkArrives(text), parse, timeout) == (after, log)
  {
    hide LineOps, LineReports, Lines, Unfinished;
  }

  function RunSession(s: Session, events: seq<Event>, parse: Parser, timeout: int): (Session, seq<Settlements>)
    decreases |events|
  {
    if events == [] then (s, [])
    else
      var (s1, log1) := Next(s, events[0], parse, timeout);
      var (s2, log2) := RunSession(s1, events[1..], parse, timeout);
      (s2, log1 + log2)
  }

  /** The operations of a whole run, to which everything proved about the table applies. */
  function AllOps(s: Session, events: seq<Event>, parse: Parser, timeout: int): seq<Op>
    decreases |events|
  {
    if events == [] then []
    else OpsOf(s, events[0], parse) + AllOps(Next(s, events[0], parse, timeout).0, events[1..], parse, timeout)
  }

  lemma {:induction false} SessionRunIsTableRun(s: Session, events: seq<Event>, parse: Parser, timeout: int)
    ensures
      var (after, log) := RunSession(s, events, parse, timeout);
      (after.table, log) == Run(s.table, AllOps(s, events, parse, timeout), timeout)
    decreases |events|
  {
    hide OpsOf;
    if events != [] {
      var next := Next(s, events[0], parse, timeout).0;
      SessionRunIsTableRun(next, events[1..], parse, timeout);
      RunAppend(s.table, OpsOf(s, events[0], parse), AllOps(next, events[1..], parse, timeout), timeout);
    }
  }

  /** Main result: in every run of a session each issued request is pending, or was settled exactly once. */
  lemma RequestsSettleOnce(events: seq<Event>, parse: Parser, timeout: int, id: int)
    requires 1 <= id < RunSession(Session(EMPTY, ""), events, parse, timeout).0.table.nextId
    ensures
      var (after, log) := RunSession(Session(EMPTY, ""), events, parse, timeout);
      |OutcomesOf(id, log)| == (if id in after.table.pending then 0 else 1) &&
      after.table.timers == (if timeout > 0 then after.table.pending.Keys else {}) &&
      (after.table.closed || after.table.ended ==> after.table.pending == map[])
  {
    hide RunSession, Run, AllOps;
    var start := Session(EMPTY, "");
    SessionRunIsTableRun(start, events, parse, timeout);
    SettledExactlyOnce(AllOps(start, events, parse, timeout), id, timeout);
    RunKeepsValid(EMPTY, AllOps(start, events, parse, timeout), timeout);
  }
}
