/**
  The requests a JSON-RPC client (JSON-RPC 2.0, sections 4 to 6) waits for. Responses, timers, sweeps, write failures,
  cancellations, stream ends and closing race to settle them; whoever removes a request from the table settles it.
 */
module PendingRequests {
  import opened Prelude

  datatype Pending = Pending(createdAt: int, name: string)

  datatype Reason =
    | TimedOut | Stale | StreamEnded | SessionClosed | Unserializable
    | ReaderFailed(error: string) | TransportFailed(error: string) | RpcError(error: string)
    | Cancelled(reason: Option<string>)

  datatype Outcome = Resolved(result: string) | Rejected(reason: Reason)

  /** `timers` holds the ids whose timer is armed. */
  datatype Table = Table(nextId: int, pending: map<int, Pending>, timers: set<int>, closed: bool, ended: bool)

  const EMPTY := Table(1, map[], {}, false, false)

  type Settlements = map<int, Outcome>

  datatype Op =
    | Issue(now: int, name: string)
    | Refuse(reason: Reason)
    | Settle(id: int, outcome: Outcome)
    | Expire(id: int)
    | Sweep(now: int)
    | Fail(reason: Reason)
    | End
    | Close

  // ----- The timeout option -----

  datatype TimeoutOption = Unset | NullTimeout | Milliseconds(ms: int)

  const DEFAULT_REQUEST_TIMEOUT_MS := 60_000

  /** `requestTimeout ?? DEFAULT_REQUEST_TIMEOUT_MS`. */
  function EffectiveTimeout(option: TimeoutOption): int
  {
    if option.Milliseconds? then option.ms else DEFAULT_REQUEST_TIMEOUT_MS
  }

  // ----- Steps -----

  function Without(t: Table, ids: set<int>): Table
  {
    t.(pending := t.pending - ids, timers := t.timers - ids)
  }

  /** All these requests settled alike. */
  function Alike(ids: set<int>, outcome: Outcome): Settlements
  {
    map id | id in ids :: outcome
  }

  lemma IsAlike(settled: Settlements, ids: set<int>, outcome: Outcome)
    requires settled.Keys == ids && forall id :: id in settled ==> settled[id] == outcome
    ensures settled == Alike(ids, outcome)
  {
    var alike := Alike(ids, outcome);
    forall id | id in settled.Keys ensures id in alike && alike[id] == settled[id] {
    }
    forall id | id in alike.Keys ensures id in settled && alike[id] == settled[id] {
    }
    assert settled.Keys == alike.Keys;
  }

  function AllRejected(t: Table, reason: Reason): Settlements
  {
    Alike(t.pending.Keys, Rejected(reason))
  }

  predicate TooOld(p: Pending, now: int, timeout: int)
  {
    now - p.createdAt > timeout
  }

  function Overdue(t: Table, now: int, timeout: int): set<int>
  {
    set id | id in t.pending && TooOld(t.pending[id], now, timeout)
  }

  function Do(t: Table, op: Op, timeout: int): (Table, Settlements)
  {
    match op
    case Issue(now, name) =>
      if t.closed || t.ended then (t, map[])
      else
        (t.(nextId := t.nextId + 1, pending := t.pending[t.nextId := Pending(now, name)],
            timers := if timeout > 0 then t.timers + {t.nextId} else t.timers), map[])
    case Refuse(reason) => (t.(nextId := t.nextId + 1), map[t.nextId := Rejected(reason)])
    case Settle(id, outcome) => if id in t.pending then (Without(t, {id}), map[id := outcome]) else (t, map[])
    case Expire(id) =>
      if id in t.timers && id in t.pending then (Without(t, {id}), map[id := Rejected(TimedOut)]) else (t, map[])
    case Sweep(now) =>
      if t.closed || timeout <= 0 then (t, map[])
      else
        var overdue := Overdue(t, now, timeout);
        (Without(t, overdue), Alike(overdue, Rejected(Stale)))
    case Fail(reason) => if t.closed then (t, map[]) else (Without(t, t.pending.Keys), AllRejected(t, reason))
    case End =>
      if t.closed then (t.(ended := true), map[])
      else (Without(t, t.pending.Keys).(ended := true), AllRejected(t, StreamEnded))
    case Close =>
      if t.closed then (t, map[])
      else (Without(t, t.pending.Keys).(closed := true), AllRejected(t, SessionClosed))
  }

  /** The table after a run, and what each step settled. */
  function Run(t: Table, ops: seq<Op>, timeout: int): (Table, seq<Settlements>)
    decreases |ops|
  {
    if ops == [] then (t, [])
    else
      var (next, settled) := Do(t, ops[0], timeout);
      var (last, log) := Run(next, ops[1..], timeout);
      (last, [settled] + log)
  }

  lemma {:induction false} RunAppend(t: Table, a: seq<Op>, b: seq<Op>, timeout: int)
    ensures Run(t, a + b, timeout)
         == (Run(Run(t, a, timeout).0, b, timeout).0, Run(t, a, timeout).1 + Run(Run(t, a, timeout).0, b, timeout).1)
    decreases |a|
  {
    hide Do;
    if a == [] {
      assert a + b == b && [] + Run(t, b, timeout).1 == Run(t, b, timeout).1;
    } else {
      assert (a + b)[1..] == a[1..] + b;
      var (next, settled) := Do(t, a[0], timeout);
      RunAppend(next, a[1..], b, timeout);
      var front, back := Run(next, a[1..], timeout).1, Run(Run(t, a, timeout).0, b, timeout).1;
      assert ([settled] + front) + back == [settled] + (front + back);
    }
  }

  lemma RunOne(t: Table, op: Op, timeout: int)
    ensures Run(t, [op], timeout) == (Do(t, op, timeout).0, [Do(t, op, timeout).1])
  {
    hide Do;
    var (next, settled) := Do(t, op, timeout);
    assert [op][1..] == [];
    assert Run(next, [], timeout) == (next, []);
    assert [settled] + [] == [settled];
  }

  /** In every reachable table timers are armed for exactly the pending requests, or for none if timeouts are off. */
  ghost predicate Valid(t: Table, timeout: int)
  {
    t.nextId >= 1 && (forall id :: id in t.pending ==> 1 <= id < t.nextId) &&
    t.timers == (if timeout > 0 then t.pending.Keys else {}) &&
    (t.closed || t.ended ==> t.pending == map[])
  }

  lemma DoKeepsValid(t: Table, op: Op, timeout: int)
    requires Valid(t, timeout)
    ensures Valid(Do(t, op, timeout).0, timeout)
    ensures t.closed ==> Do(t, op, timeout).0.closed
  {
  }

  lemma {:induction false} RunKeepsValid(t: Table, ops: seq<Op>, timeout: int)
    requires Valid(t, timeout)
    ensures Valid(Run(t, ops, timeout).0, timeout)
    decreases |ops|
  {
    hide Do, Valid;
    if ops != [] {
      DoKeepsValid(t, ops[0], timeout);
      RunKeepsValid(Do(t, ops[0], timeout).0, ops[1..], timeout);
    }
  }

  /** A null timeout, documented to disable timeouts, acts like the default: only a limit of zero or less disables. */
  lemma TimersAreOffIff(option: TimeoutOption)
    ensures
      (forall ops :: Run(EMPTY, ops, EffectiveTimeout(option)).0.timers == {})
      <==> option.Milliseconds? && option.ms <= 0
    ensures EffectiveTimeout(NullTimeout) == EffectiveTimeout(Unset) == 60_000
  {
    var timeout := EffectiveTimeout(option);
    if timeout > 0 {
      var ops := [Issue(0, "initialize")];
      assert ops[1..] == [];
      assert 1 in Run(EMPTY, ops, timeout).0.timers;
    } else {
      forall ops ensures Run(EMPTY, ops, timeout).0.timers == {} {
        RunKeepsValid(EMPTY, ops, timeout);
      }
    }
  }

  // ----- One request at a time -----

  /** What a single request can be. */
  datatype Cell = Unissued | Waiting(p: Pending) | Settled(outcome: Outcome)

  /** All that matters for request `id`: its cell, and what decides whether and when it is issued. */
  datatype Life = Life(nextId: int, closed: bool, ended: bool, cell: Cell)

  /** Settle if waiting: the first to come wins, later ones change nothing. */
  function Won(l: Life, outcome: Outcome): Life
  {
    if l.cell.Waiting? then l.(cell := Settled(outcome)) else l
  }

  /** How one step looks from request `id`. */
  function Touch(l: Life, id: int, op: Op, timeout: int): Life
  {
    match op
    case Issue(now, name) =>
      if l.closed || l.ended then l
      else l.(nextId := l.nextId + 1, cell := if l.nextId == id then Waiting(Pending(now, name)) else l.cell)
    case Refuse(reason) =>
      l.(nextId := l.nextId + 1, cell := if l.nextId == id then Settled(Rejected(reason)) else l.cell)
    case Settle(other, outcome) => if other == id then Won(l, outcome) else l
    case Expire(other) => if other == id && timeout > 0 then Won(l, Rejected(TimedOut)) else l
    case Sweep(now) =>
      if !l.closed && timeout > 0 && l.cell.Waiting? && TooOld(l.cell.p, now, timeout)
      then Won(l, Rejected(Stale)) else l
    case Fail(reason) => if l.closed then l else Won(l, Rejected(reason))
    case End => (if l.closed then l else Won(l, Rejected(StreamEnded))).(ended := true)
    case Close => (if l.closed then l else Won(l, Rejected(SessionClosed))).(closed := true)
  }

  function LifeAfter(l: Life, id: int, ops: seq<Op>, timeout: int): Life
    decreases |ops|
  {
    if ops == [] then l else LifeAfter(Touch(l, id, ops[0], timeout), id, ops[1..], timeout)
  }

  /** The outcomes a log reports for request `id`, in order. */
  function OutcomesOf(id: int, log: seq<Settlements>): seq<Outcome>
  {
    if log == [] then [] else (if id in log[0] then [log[0][id]] else []) + OutcomesOf(id, log[1..])
  }

  /** The table as request `id` sees it; a settled request is told by what was reported. */
  ghost predicate Sees(t: Table, l: Life, id: int)
  {
    l.nextId == t.nextId && l.closed == t.closed && l.ended == t.ended &&
    (l.cell.Waiting? <==> id in t.pending) && (id in t.pending ==> l.cell.p == t.pending[id]) &&
    (l.cell.Unissued? <==> id >= t.nextId)
  }

  /** One step of the table is one step of every request, and reports exactly the change from waiting to settled. */
  lemma DoIsTouch(t: Table, l: Life, id: int, op: Op, timeout: int)
    requires Valid(t, timeout) && id >= 1 && Sees(t, l, id)
    ensures
      var (after, settled) := Do(t, op, timeout);
      var touched := Touch(l, id, op, timeout);
      Sees(after, touched, id) &&
      (if id in settled then !l.cell.Settled? && touched.cell == Settled(settled[id]) else
       touched.cell.Settled? ==> touched.cell == l.cell) &&
      (l.cell.Settled? ==> touched.cell == l.cell)
  {
  }

  lemma TouchKeepsSettled(l: Life, id: int, op: Op, timeout: int)
    requires l.cell.Settled? && id < l.nextId
    ensures Touch(l, id, op, timeout).cell == l.cell && id < Touch(l, id, op, timeout).nextId
  {
  }

  lemma {:induction false} LifeKeepsSettled(l: Life, id: int, ops: seq<Op>, timeout: int)
    requires l.cell.Settled? && id < l.nextId
    ensures LifeAfter(l, id, ops, timeout).cell == l.cell
    decreases |ops|
  {
    hide Touch;
    if ops != [] {
      TouchKeepsSettled(l, id, ops[0], timeout);
      LifeKeepsSettled(Touch(l, id, ops[0], timeout), id, ops[1..], timeout);
    }
  }

  lemma {:induction false} RunIsLife(t: Table, l: Life, id: int, ops: seq<Op>, timeout: int)
    requires Valid(t, timeout) && id >= 1 && Sees(t, l, id)
    ensures
      var (after, log) := Run(t, ops, timeout);
      var life := LifeAfter(l, id, ops, timeout);
      Sees(after, life, id) &&
      OutcomesOf(id, log) == if life.cell.Settled? && !l.cell.Settled? then [life.cell.outcome] else []
    decreases |ops|
  {
    hide Do, Touch, Valid, Sees;
    if ops != [] {
      var (next, settled) := Do(t, ops[0], timeout);
      var touched := Touch(l, id, ops[0], timeout);
      DoIsTouch(t, l, id, ops[0], timeout);
      DoKeepsValid(t, ops[0], timeout);
      RunIsLife(next, touched, id, ops[1..], timeout);
      var log := Run(next, ops[1..], timeout).1;
      OutcomesCons(id, settled, log);
      if touched.cell.Settled? {
        SeenIsIssued(next, touched, id);
        LifeKeepsSettled(touched, id, ops[1..], timeout);
      }
    }
  }

  lemma OutcomesCons(id: int, settled: Settlements, log: seq<Settlements>)
    ensures OutcomesOf(id, [settled] + log)
         == if id in settled then [settled[id]] + OutcomesOf(id, log) else OutcomesOf(id, log)
  {
    assert ([settled] + log)[1..] == log;
  }

  lemma NoOutcomes(id: int)
    ensures OutcomesOf(id, []) == []
  {
  }

  lemma {:induction false} OutcomesAppend(id: int, a: seq<Settlements>, b: seq<Settlements>)
    ensures OutcomesOf(id, a + b) == OutcomesOf(id, a) + OutcomesOf(id, b)
    decreases |a|
  {
    hide OutcomesOf;
    NoOutcomes(id);
    if a == [] {
      assert a + b == b && [] + OutcomesOf(id, b) == OutcomesOf(id, b);
    } else {
      HeadAndTail(a);
      Associate([a[0]], a[1..], b);
      OutcomesCons(id, a[0], a[1..] + b);
      OutcomesCons(id, a[0], a[1..]);
      OutcomesAppend(id, a[1..], b);
      if id in a[0] {
        Associate([a[0][id]], OutcomesOf(id, a[1..]), OutcomesOf(id, b));
      }
    }
  }

  lemma SeenIsIssued(t: Table, l: Life, id: int)
    requires Sees(t, l, id) && l.cell.Settled?
    ensures id < l.nextId
  {
  }

  const UNBORN := Life(1, false, false, Unissued)

  /**
    Main result: over every run and every interleaving, what happens to a request is decided by its own automaton:
    it is pending iff waiting there, and the outcomes reported for it are the one it settled with, or none.
   */
  lemma EveryRequestHasOneLife(ops: seq<Op>, id: int, timeout: int)
    requires id >= 1
    ensures
      var (after, log) := Run(EMPTY, ops, timeout);
      var life := LifeAfter(UNBORN, id, ops, timeout);
      (id in after.pending <==> life.cell.Waiting?) &&
      (life.cell.Unissued? <==> id >= after.nextId) &&
      OutcomesOf(id, log) == if life.cell.Settled? then [life.cell.outcome] else []
  {
    RunIsLife(EMPTY, UNBORN, id, ops, timeout);
  }

  /** Each issued id is pending and unsettled, or absent and settled exactly once; nothing is left after closing. */
  lemma SettledExactlyOnce(ops: seq<Op>, id: int, timeout: int)
    requires 1 <= id < Run(EMPTY, ops, timeout).0.nextId
    ensures
      var (after, log) := Run(EMPTY, ops, timeout);
      |OutcomesOf(id, log)| == (if id in after.pending then 0 else 1) &&
      after.timers <= after.pending.Keys && (after.closed ==> id !in after.pending)
  {
    EveryRequestHasOneLife(ops, id, timeout);
    RunKeepsValid(EMPTY, ops, timeout);
  }

  /** The winner is the first: once settled, no continuation of the run reports anything more for the request. */
  lemma FirstSettlerWins(ops: seq<Op>, more: seq<Op>, id: int, timeout: int)
    requires id >= 1 && OutcomesOf(id, Run(EMPTY, ops, timeout).1) != []
    ensures OutcomesOf(id, Run(EMPTY, ops + more, timeout).1) == OutcomesOf(id, Run(EMPTY, ops, timeout).1)
  {
    hide Run, Touch;
    EveryRequestHasOneLife(ops, id, timeout);
    EveryRequestHasOneLife(ops + more, id, timeout);
    LifeAppend(UNBORN, id, ops, more, timeout);
    LifeKeepsSettled(LifeAfter(UNBORN, id, ops, timeout), id, more, timeout) by {
      RunIsLife(EMPTY, UNBORN, id, ops, timeout);
    }
  }

  lemma {:induction false} LifeAppend(l: Life, id: int, a: seq<Op>, b: seq<Op>, timeout: int)
    ensures LifeAfter(l, id, a + b, timeout) == LifeAfter(LifeAfter(l, id, a, timeout), id, b, timeout)
    decreases |a|
  {
    hide Touch;
    if a == [] {
      assert a + b == b;
    } else {
      assert (a + b)[1..] == a[1..] + b;
      LifeAppend(Touch(l, id, a[0], timeout), id, a[1..], b, timeout);
    }
  }
}
