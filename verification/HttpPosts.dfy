/** A POST in the middle of a session: between its awaits, anything else may happen to the same table. */
module HttpPosts {
  import opened PendingRequests
  import opened StreamableHttpSession

  datatype Move = Own | Outside(e: Event)

  /** The table, and how far the POST has come. */
  datatype Scene = Scene(t: Table, post: Post)

  /** What one move makes of the scene, and what the session goes through. */
  function Moved(s: Scene, rid: int, move: Move, timeout: int): (Scene, seq<Event>)
  {
    match move
    case Outside(e) => (s.(t := RunSession(s.t, [e], timeout).0), [e])
    case Own =>
      var (next, events) := PostStep(s.t, rid, s.post, timeout);
      (Scene(RunSession(s.t, events, timeout).0, next), events)
  }

  function Play(s: Scene, rid: int, moves: seq<Move>, timeout: int): (Scene, seq<Event>)
    decreases |moves|
  {
    if moves == [] then (s, [])
    else
      var (next, events) := Moved(s, rid, moves[0], timeout);
      var (last, more) := Play(next, rid, moves[1..], timeout);
      (last, events + more)
  }

  function OwnMoves(moves: seq<Move>): nat
  {
    if moves == [] then 0 else (if moves[0].Own? then 1 else 0) + OwnMoves(moves[1..])
  }

  /** The table is the one of the session that went through the same events. */
  lemma {:induction false} PlayIsSession(s: Scene, rid: int, moves: seq<Move>, timeout: int)
    ensures Play(s, rid, moves, timeout).0.t == RunSession(s.t, Play(s, rid, moves, timeout).1, timeout).0
    decreases |moves|
  {
    hide RunSession, PostStep;
    if moves == [] {
      NothingRun(s.t, timeout);
    } else {
      var (next, events) := Moved(s, rid, moves[0], timeout);
      PlayIsSession(next, rid, moves[1..], timeout);
      SessionAppend(s.t, events, Play(next, rid, moves[1..], timeout).1, timeout);
    }
  }

  // ----- A settled request stays settled -----

  lemma {:induction false} RunStaysOver(t: Table, ops: seq<Op>, rid: int, timeout: int)
    requires rid < t.nextId
    ensures rid < Run(t, ops, timeout).0.nextId
    ensures rid !in t.pending ==> rid !in Run(t, ops, timeout).0.pending
    decreases |ops|
  {
    hide Do;
    if ops != [] {
      DoStaysOver(t, ops[0], rid, timeout);
      RunStaysOver(Do(t, ops[0], timeout).0, ops[1..], rid, timeout);
    }
  }

  lemma DoStaysOver(t: Table, op: Op, rid: int, timeout: int)
    requires rid < t.nextId
    ensures rid < Do(t, op, timeout).0.nextId
    ensures rid !in t.pending ==> rid !in Do(t, op, timeout).0.pending
  {
  }

  lemma StaysOver(t: Table, events: seq<Event>, rid: int, timeout: int)
    requires rid < t.nextId
    ensures rid < RunSession(t, events, timeout).0.nextId
    ensures rid !in t.pending ==> rid !in RunSession(t, events, timeout).0.pending
  {
    hide Run, RunSession;
    SessionRunIsTableRun(t, events, timeout);
    RunStaysOver(t, AllOps(t, events, timeout), rid, timeout);
  }

  lemma FailureSettles(t: Table, before: seq<Event>, rid: int, reason: Reason, timeout: int)
    ensures rid !in RunSession(t, before + [PostFails(rid, reason)], timeout).0.pending
  {
    hide RunSession;
    FailStep(t, before, rid, reason, timeout);
  }

  // ----- The POST comes to an end, and its request with it -----

  /** A POST that is done without leaving its request to the standing stream has seen it settled. */
  ghost predicate InHand(s: Scene, rid: int, leaves: bool)
  {
    rid < s.t.nextId && (s.post == Done(false) ==> rid !in s.t.pending) && (s.post == Done(true) ==> leaves) &&
    (s.post == Arrived(Accepted(false)) ==> leaves)
  }

  lemma OwnStepSettles(t: Table, rid: int, p: Post, timeout: int)
    requires !p.Done? && PostStep(t, rid, p, timeout).0 == Done(false)
    ensures rid !in RunSession(t, PostStep(t, rid, p, timeout).1, timeout).0.pending
  {
    hide RunSession;
    var events := PostStep(t, rid, p, timeout).1;
    if p.Reading? && p.items != [] {
    } else {
      var n := |events| - 1;
      assert events[n].PostFails?;
      assert events == events[..n] + [PostFails(rid, events[n].reason)];
      FailureSettles(t, events[..n], rid, events[n].reason, timeout);
    }
  }

  lemma MoveKeepsInHand(s: Scene, rid: int, move: Move, timeout: int, leaves: bool)
    requires InHand(s, rid, leaves)
    ensures InHand(Moved(s, rid, move, timeout).0, rid, leaves)
    ensures StepsLeft(Moved(s, rid, move, timeout).0.post) <= StepsLeft(s.post)
    ensures move.Own? && !s.post.Done? ==> StepsLeft(Moved(s, rid, move, timeout).0.post) < StepsLeft(s.post)
  {
    hide RunSession, PostStep, StepsLeft;
    StaysOver(s.t, Moved(s, rid, move, timeout).1, rid, timeout);
    if move.Own? {
      if s.post.Done? {
        DoneIsDone(s, rid, timeout);
      } else {
        StepsShrink(s.t, rid, s.post, timeout);
        OnlyAcceptedLeaves(s.t, rid, s.post, timeout);
        if PostStep(s.t, rid, s.post, timeout).0 == Done(false) {
          OwnStepSettles(s.t, rid, s.post, timeout);
        }
      }
    }
  }

  lemma DoneIsDone(s: Scene, rid: int, timeout: int)
    requires s.post.Done?
    ensures Moved(s, rid, Own, timeout) == (s, [])
  {
    hide RunSession;
    NothingRun(s.t, timeout);
  }

  lemma OnlyAcceptedLeaves(t: Table, rid: int, p: Post, timeout: int)
    requires !p.Done?
    ensures PostStep(t, rid, p, timeout).0 == Done(true) ==> p == Arrived(Accepted(false))
    ensures !PostStep(t, rid, p, timeout).0.Arrived?
  {
    hide RunSession;
  }

  lemma {:induction false} PlayKeepsInHand(s: Scene, rid: int, moves: seq<Move>, timeout: int, leaves: bool)
    requires InHand(s, rid, leaves)
    ensures InHand(Play(s, rid, moves, timeout).0, rid, leaves)
    ensures OwnMoves(moves) >= StepsLeft(s.post) ==> Play(s, rid, moves, timeout).0.post.Done?
    decreases |moves|
  {
    hide InHand, Moved, PostStep, RunSession;
    if moves == [] {
      DoneWhenNothingLeft(s.post);
    } else {
      var next := Moved(s, rid, moves[0], timeout).0;
      MoveKeepsInHand(s, rid, moves[0], timeout, leaves);
      PlayKeepsInHand(next, rid, moves[1..], timeout, leaves);
      DoneWhenNothingLeft(s.post);
      DoneWhenNothingLeft(next.post);
    }
  }

  lemma DoneWhenNothingLeft(p: Post)
    ensures StepsLeft(p) == 0 <==> p.Done?
  {
  }

  /**
    Main result. Whatever happens in a session before a POST and between its awaits (answers to it or to others,
    cancellations, timers, sweeps, other POSTs failing, closing), once the POST has made its steps the request is
    settled, and was settled exactly once; only a 202 with a working standing stream may leave it pending.
   */
  lemma PostSettlesItsRequest(before: seq<Event>, rid: int, response: PostResponse, moves: seq<Move>, timeout: int)
    requires 1 <= rid < RunSession(EMPTY, before, timeout).0.nextId
    requires OwnMoves(moves) >= StepsLeft(Arrived(response))
    ensures
      var start := Scene(RunSession(EMPTY, before, timeout).0, Arrived(response));
      var (end, events) := Play(start, rid, moves, timeout);
      var (after, log) := RunSession(EMPTY, before + events, timeout);
      end.post.Done? && end.t == after &&
      |OutcomesOf(rid, log)| == (if rid in after.pending then 0 else 1) &&
      (rid in after.pending ==> response == Accepted(false))
  {
    hide RunSession, Play, PostStep;
    var start := Scene(RunSession(EMPTY, before, timeout).0, Arrived(response));
    var (end, events) := Play(start, rid, moves, timeout);
    PlayKeepsInHand(start, rid, moves, timeout, response == Accepted(false));
    PlayIsSession(start, rid, moves, timeout);
    SessionAppend(EMPTY, before, events, timeout);
    RequestsSettleOnce(before + events, timeout, rid);
  }

  /** Left alone, the POST goes through exactly the events of its uninterrupted form. */
  lemma {:induction false} PlayedAlone(s: Scene, rid: int, moves: seq<Move>, timeout: int)
    requires (forall m :: m in moves ==> m.Own?) && |moves| >= StepsLeft(s.post)
    ensures Play(s, rid, moves, timeout).1 == Uninterrupted(s.t, rid, s.post, timeout)
    decreases |moves|
  {
    hide RunSession, PostStep, StepsLeft;
    if moves == [] {
      DoneWhenNothingLeft(s.post);
    } else if s.post.Done? {
      DoneIsDone(s, rid, timeout);
      DoneWhenNothingLeft(s.post);
      PlayedAlone(s, rid, moves[1..], timeout);
    } else {
      StepsShrink(s.t, rid, s.post, timeout);
      PlayedAlone(Moved(s, rid, moves[0], timeout).0, rid, moves[1..], timeout);
    }
  }
}
