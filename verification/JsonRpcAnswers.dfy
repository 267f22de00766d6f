/** What the lines of a peer mean for the requests they answer, whatever chunks they come in. */
module JsonRpcAnswers {
  import opened Prelude
  import opened LineFraming
  import opened PendingRequests
  import opened JsonRpcMessages
  import opened JsonRpcSession

  // ----- Lines as the peer writes them -----

  /** White space around the text of a line, a carriage return at its end included, does not matter. */
  lemma ReturnIsTrimmed(line: string)
    ensures Trim(DropCarriageReturn(line)) == Trim(line)
  {
    hide IsSpace, TrimStart, TrimEnd;
    if line != "" && line[|line| - 1] == '\r' {
      var front := line[..|line| - 1];
      assert line == front + ['\r'];
      TrimStartOfMore(front);
      TrimEndOfMore(TrimStart(front));
    }
  }

  lemma ReturnIsSpace()
    ensures IsSpace('\r')
  {
  }

  lemma {:induction false} TrimStartOfMore(s: string)
    ensures TrimStart(s + ['\r']) == if TrimStart(s) == "" then "" else TrimStart(s) + ['\r']
    decreases |s|
  {
    hide IsSpace;
    ReturnIsSpace();
    if s == "" {
      assert s + ['\r'] == ['\r'] && ['\r'][1..] == "";
    } else {
      AppendSlices(s, ['\r'], 1);
      TrimStartOfMore(s[1..]);
    }
  }

  lemma TrimEndOfMore(s: string)
    ensures TrimEnd(s + ['\r']) == TrimEnd(s)
    ensures TrimEnd("") == ""
  {
    hide IsSpace;
    ReturnIsSpace();
    assert (s + ['\r'])[..|s|] == s;
  }

  /** The JSON on a line, if there is any. */
  function Content(line: string, parse: Parser): Option<Json>
  {
    if Trim(line) == "" then None else parse(Trim(line))
  }

  /** The message of the line answers request `id`. */
  predicate Answers(line: string, parse: Parser, id: int)
  {
    var c := Content(line, parse);
    c.Some? && c.value.Object? && c.value.m.id == Numeric(id)
  }

  /** The line that answers request `id` is the first that holds a message with that id. */
  function AnswerTo(id: int, lines: seq<string>, parse: Parser): Option<Message>
  {
    if lines == [] then None
    else if Answers(lines[0], parse, id) then Some(Content(lines[0], parse).value.m)
    else AnswerTo(id, lines[1..], parse)
  }

  /** What is told to the outside: text that is no JSON, and calls without an id. */
  function ToldBy(line: string, parse: Parser): seq<Effect>
  {
    if Trim(line) == "" then []
    else match parse(Trim(line))
      case None => [ProtocolError(Trim(line))]
      case Some(Object(m)) => if m.id.Missing? && m.name.Some? then [Notify(m)] else []
      case Some(_) => []
  }

  function Told(lines: seq<string>, parse: Parser): seq<Effect>
  {
    if lines == [] then [] else ToldBy(lines[0], parse) + Told(lines[1..], parse)
  }

  /** A response that carries an error rejects with it, any other resolves with its result. */
  ghost predicate SettlesAs(m: Message, outcome: Outcome)
  {
    match m.error
    case Some(error) => outcome == Rejected(RpcError(error))
    case None => outcome == Resolved(m.result)
  }

  /** One line: an operation on the table for an answer, none for anything else; and what it tells. */
  lemma LineMeans(line: string, parse: Parser)
    ensures
      var ops, c := EffectOps(LineEffect(line, parse)), Content(line, parse);
      if c.Some? && c.value.Object? && c.value.m.id.Numeric?
      then |ops| == 1 && ops[0].Settle? && ops[0].id == c.value.m.id.n && SettlesAs(c.value.m, ops[0].outcome)
      else ops == []
    ensures EffectReports(LineEffect(line, parse)) == ToldBy(line, parse)
  {
    hide Trim, DropCarriageReturn;
    ReturnIsTrimmed(line);
  }

  lemma {:induction false} LinesTell(lines: seq<string>, parse: Parser)
    ensures LineReports(lines, parse) == Told(lines, parse)
    decreases |lines|
  {
    hide LineEffect, EffectReports, ToldBy;
    if lines != [] {
      LineMeans(lines[0], parse);
      LinesTell(lines[1..], parse);
    }
  }

  /** One settlement, told by what it does to a single request. */
  lemma SettleOne(t: Table, op: Op, timeout: int, id: int)
    requires op.Settle?
    ensures
      var (after, settled) := Do(t, op, timeout);
      (id in after.pending <==> id in t.pending && op.id != id) &&
      (id in settled <==> id in t.pending && op.id == id) && (id in settled ==> settled[id] == op.outcome)
  {
  }

  /** A request is settled by the first line that answers it, with what that line says, and by nothing else. */
  lemma {:induction false} LinesSettle(t: Table, lines: seq<string>, parse: Parser, timeout: int, id: int)
    ensures
      var (after, log) := Run(t, LineOps(lines, parse), timeout);
      var answer, outcomes := AnswerTo(id, lines, parse), OutcomesOf(id, log);
      (id in after.pending <==> id in t.pending && answer.None?) &&
      (if id in t.pending && answer.Some? then |outcomes| == 1 && SettlesAs(answer.value, outcomes[0])
       else outcomes == [])
    decreases |lines|
  {
    hide LineEffect, EffectOps, Do, SettlesAs, OutcomesOf;
    if lines == [] {
      NoLinesYet(t, parse, timeout);
      NoOutcomes(id);
    } else {
      var ops, more := EffectOps(LineEffect(lines[0], parse)), LineOps(lines[1..], parse);
      LineMeans(lines[0], parse);
      if ops == [] {
        assert [] + more == more;
        LinesSettle(t, lines[1..], parse, timeout, id);
      } else {
        var (next, settled) := Do(t, ops[0], timeout);
        assert (ops + more)[0] == ops[0] && (ops + more)[1..] == more;
        SettleOne(t, ops[0], timeout, id);
        LinesSettle(next, lines[1..], parse, timeout, id);
        OutcomesCons(id, settled, Run(next, more, timeout).1);
      }
    }
  }

  /**
    Main result. Lines sent to an open session in any chunks: each pending request they answer is settled once, by the
    first line with its id, rejected with the error that line carries or resolved with its result; no other request is
    settled, and text that is no JSON and calls without id are told to the outside in order.
   */
  lemma AnswersSettle(s: Session, chunks: seq<string>, lines: seq<string>, parse: Parser, timeout: int)
    requires !s.table.closed && s.buffer == "" && Flatten(chunks) == Terminated(lines)
    requires forall line :: line in lines ==> '\n' !in line
    ensures
      var (after, log, told) := ReceivedAll(s, chunks, parse, timeout);
      told == Told(lines, parse) && after.buffer == "" &&
      forall id ::
        var answer, outcomes := AnswerTo(id, lines, parse), OutcomesOf(id, log);
        (id in after.table.pending <==> id in s.table.pending && answer.None?) &&
        (if id in s.table.pending && answer.Some? then |outcomes| == 1 && SettlesAs(answer.value, outcomes[0])
         else outcomes == [])
  {
    hide ReceivedAll, LineOps, LineReports, Run, SettlesAs, Flatten, Lines, Unfinished, AnswerTo;
    NothingLeft();
    FramingIsChunkInvariant(s, chunks, parse, timeout);
    TerminatedLines(lines);
    assert "" + Terminated(lines) == Terminated(lines);
    LinesTell(lines, parse);
    forall id
      ensures
        var (after, log) := Run(s.table, LineOps(lines, parse), timeout);
        var answer, outcomes := AnswerTo(id, lines, parse), OutcomesOf(id, log);
        (id in after.pending <==> id in s.table.pending && answer.None?) &&
        (if id in s.table.pending && answer.Some? then |outcomes| == 1 && SettlesAs(answer.value, outcomes[0])
         else outcomes == [])
    {
      LinesSettle(s.table, lines, parse, timeout, id);
    }
  }

  lemma NothingLeft()
    ensures Unfinished("") == ""
  {
  }
}
