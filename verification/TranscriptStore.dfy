/** The transcript table shared by all sessions, and the rewriting of one segment of it. */
module TranscriptStore {
  import opened Prelude
  import opened Ordering
  import opened ChatMessages

  /** One entry of the tool-calls column: current writers use `argsJson`, older rows `arguments`. */
  datatype StoredCall = StoredCall(
    id: string, name: string, argsJson: Option<string>, arguments: Option<string>, thoughtSignature: Option<string>)

  datatype Row = Row(
    session: string, segment: string, seqNo: int,
    role: Role, content: Option<string>, toolCallId: Option<string>, toolCalls: Option<seq<StoredCall>>)

  // ----- Reading -----

  /** JavaScript's truthiness test on an optional string. */
  function Truthy(s: Option<string>): Option<string>
  {
    if s == Some("") then None else s
  }

  function ReadCall(c: StoredCall): ToolCall
  {
    ToolCall(c.id, c.name,
             if c.argsJson.Some? then c.argsJson.value else OrEmpty(c.arguments),
             Truthy(c.thoughtSignature))
  }

  function ReadRow(r: Row): ChatMessage
  {
    ChatMessage(r.role, Text(OrEmpty(r.content)), None, Truthy(r.toolCallId),
                match r.toolCalls
                case None => None
                case Some(calls) => Some(seq(|calls|, i requires 0 <= i < |calls| => ReadCall(calls[i]))),
                None)
  }

  function Selected(rows: seq<Row>, session: string, segment: string): seq<Keyed<Row>>
  {
    if rows == [] then []
    else
      (if rows[0].session == session && rows[0].segment == segment then [(rows[0].seqNo, rows[0])] else [])
      + Selected(rows[1..], session, segment)
  }

  /** SELECT of one segment, ordered by sequence number, one message per row. */
  function LoadSessionTranscript(rows: seq<Row>, session: string, segment: string): seq<ChatMessage>
  {
    Messages(Values(StableSort(Selected(rows, session, segment))))
  }

  function Messages(rows: seq<Row>): seq<ChatMessage>
  {
    seq(|rows|, i requires 0 <= i < |rows| => ReadRow(rows[i]))
  }

  // ----- Writing -----

  function Deleted(rows: seq<Row>, session: string, segment: string): seq<Row>
  {
    if rows == [] then []
    else
      (if rows[0].session == session && rows[0].segment == segment then [] else [rows[0]])
      + Deleted(rows[1..], session, segment)
  }

  /** `COALESCE(MAX(seq), 0)` over the rows of a session. */
  function MaxSeq(rows: seq<Row>, session: string): (m: int)
    ensures forall r :: r in rows && r.session == session ==> r.seqNo <= m
  {
    match MaxOf(rows, session)
    case None => 0
    case Some(m) => m
  }

  function MaxOf(rows: seq<Row>, session: string): (m: Option<int>)
    ensures m.None? ==> forall r :: r in rows ==> r.session != session
    ensures m.Some? ==> forall r :: r in rows && r.session == session ==> r.seqNo <= m.value
    ensures m.Some? ==> exists r :: r in rows && r.session == session && r.seqNo == m.value
  {
    if rows == [] then None
    else
      var rest := MaxOf(rows[1..], session);
      if rows[0].session == session && (rest.None? || rest.value < rows[0].seqNo) then Some(rows[0].seqNo) else rest
  }

  function WriteCall(c: ToolCall): StoredCall
  {
    StoredCall(c.id, c.name, Some(c.arguments), None, Truthy(c.thoughtSignature))
  }

  function WriteCalls(calls: Option<seq<ToolCall>>): Option<seq<StoredCall>>
  {
    match calls
    case None => None
    case Some(cs) => if cs == [] then None else Some(seq(|cs|, i requires 0 <= i < |cs| => WriteCall(cs[i])))
  }

  /** Structured content cannot be bound to a text column. */
  predicate Storable(m: ChatMessage)
  {
    !m.content.Parts?
  }

  function WriteRow(session: string, segment: string, seqNo: int, m: ChatMessage): Row
  {
    Row(session, segment, seqNo, m.role,
        if m.content.Text? then Some(m.content.text) else None,
        m.toolCallId, WriteCalls(m.toolCalls))
  }

  function Inserted(session: string, segment: string, first: int, ms: seq<ChatMessage>): (rows: seq<Row>)
    ensures |rows| == |ms|
  {
    seq(|ms|, i requires 0 <= i < |ms| => WriteRow(session, segment, first + i, ms[i]))
  }

  /** The table after the transaction: a message that cannot be stored rolls everything back. */
  function Replaced(rows: seq<Row>, session: string, segment: string, ms: seq<ChatMessage>): seq<Row>
  {
    if forall m :: m in ms ==> Storable(m) then
      var kept := Deleted(rows, session, segment);
      kept + Inserted(session, segment, MaxSeq(kept, session) + 1, ms)
    else rows
  }

  class Database {
    var rows: seq<Row>

    constructor (rows: seq<Row>)
      ensures this.rows == rows
    {
      this.rows := rows;
    }

    method ReplaceSessionTranscript(session: string, segment: string, messages: seq<ChatMessage>) returns (ok: bool)
      modifies this
      ensures rows == Replaced(old(rows), session, segment, messages)
      ensures ok <==> forall m :: m in messages ==> Storable(m)
    {
      var before := rows;
      rows := Deleted(rows, session, segment);
      ghost var kept := rows;
      var seqNo := MaxSeq(rows, session) + 1;
      ghost var first := seqNo;
      for i := 0 to |messages|
        invariant rows == kept + Inserted(session, segment, first, messages[..i]) && seqNo == first + i
        invariant forall m :: m in messages[..i] ==> Storable(m)
      {
        if !Storable(messages[i]) {
          rows := before;
          return false;
        }
        assert messages[..i + 1] == messages[..i] + [messages[i]];
        InsertedSnoc(session, segment, first, messages[..i], messages[i]);
        rows := rows + [WriteRow(session, segment, seqNo, messages[i])];
        seqNo := seqNo + 1;
      }
      assert messages[..|messages|] == messages;
      return true;
    }
  }

  lemma InsertedSnoc(session: string, segment: string, first: int, ms: seq<ChatMessage>, m: ChatMessage)
    ensures Inserted(session, segment, first, ms + [m])
         == Inserted(session, segment, first, ms) + [WriteRow(session, segment, first + |ms|, m)]
  {
  }

  // ----- Rows of other segments -----

  lemma {:induction false} SelectedAppend(a: seq<Row>, b: seq<Row>, session: string, segment: string)
    ensures Selected(a + b, session, segment) == Selected(a, session, segment) + Selected(b, session, segment)
    decreases |a|
  {
    if a == [] {
      assert a + b == b;
    } else {
      SelectedAppend(a[1..], b, session, segment);
      assert (a + b)[1..] == a[1..] + b;
    }
  }

  lemma {:induction false} SelectedOfDeleted(rows: seq<Row>, session: string, segment: string, s: string, g: string)
    ensures Selected(Deleted(rows, session, segment), s, g)
         == if s == session && g == segment then [] else Selected(rows, s, g)
  {
    if rows != [] {
      var front := if rows[0].session == session && rows[0].segment == segment then [] else [rows[0]];
      SelectedAppend(front, Deleted(rows[1..], session, segment), s, g);
      SelectedOfDeleted(rows[1..], session, segment, s, g);
      assert front != [] ==> front[1..] == [];
    }
  }

  lemma {:induction false} ForeignRowsAreNotSelected(rows: seq<Row>, s: string, g: string)
    requires forall r :: r in rows ==> !(r.session == s && r.segment == g)
    ensures Selected(rows, s, g) == []
  {
    if rows != [] {
      ForeignRowsAreNotSelected(rows[1..], s, g);
    }
  }

  /** Rewriting one segment leaves what any other segment of any session loads as it was. */
  lemma OtherSegmentsKeepTheirMessages(
      rows: seq<Row>, session: string, segment: string, ms: seq<ChatMessage>, s: string, g: string)
    requires !(s == session && g == segment)
    ensures LoadSessionTranscript(Replaced(rows, session, segment, ms), s, g) == LoadSessionTranscript(rows, s, g)
  {
    hide MaxSeq, Selected, Deleted, StableSort, Values, Messages, WriteCalls;
    var kept := Deleted(rows, session, segment);
    var added := Inserted(session, segment, MaxSeq(kept, session) + 1, ms);
    SelectedAppend(kept, added, s, g);
    SelectedOfDeleted(rows, session, segment, s, g);
    ForeignRowsAreNotSelected(added, s, g);
    assert Selected(kept, s, g) + [] == Selected(kept, s, g);
  }

  // ----- Sequence numbers -----

  /** The table's UNIQUE constraint on session and sequence number. */
  ghost predicate UniqueSeqs(rows: seq<Row>)
  {
    forall i, j :: 0 <= i < j < |rows| && rows[i].session == rows[j].session ==> rows[i].seqNo != rows[j].seqNo
  }

  lemma {:induction false} DeletedIsSubset(rows: seq<Row>, session: string, segment: string)
    ensures forall r :: r in Deleted(rows, session, segment)
              <==> r in rows && !(r.session == session && r.segment == segment)
  {
    if rows != [] {
      DeletedIsSubset(rows[1..], session, segment);
      assert forall r :: r in rows <==> r == rows[0] || r in rows[1..];
    }
  }

  lemma {:induction false} DeletedIsUnique(rows: seq<Row>, session: string, segment: string)
    requires UniqueSeqs(rows)
    ensures UniqueSeqs(Deleted(rows, session, segment))
  {
    if rows != [] {
      DeletedIsUnique(rows[1..], session, segment);
      DeletedIsSubset(rows[1..], session, segment);
      var rest := Deleted(rows[1..], session, segment);
      forall j | 0 <= j < |rest| && rest[j].session == rows[0].session ensures rest[j].seqNo != rows[0].seqNo {
        assert rest[j] in rows[1..];
      }
    }
  }

  /** Sequence numbers stay unique per session, and the new rows come, in message order, above all rows that remain. */
  lemma SequenceNumbersStayUnique(rows: seq<Row>, session: string, segment: string, ms: seq<ChatMessage>)
    requires UniqueSeqs(rows) && forall m :: m in ms ==> Storable(m)
    ensures UniqueSeqs(Replaced(rows, session, segment, ms))
    ensures
      var kept, after := Deleted(rows, session, segment), Replaced(rows, session, segment, ms);
      |after| == |kept| + |ms| && after[..|kept|] == kept &&
      (forall i :: |kept| <= i < |after| ==> after[i].session == session && after[i].segment == segment) &&
      (forall i, j :: 0 <= i < j < |after| && |kept| <= j && after[i].session == session
         ==> after[i].seqNo < after[j].seqNo)
  {
    hide Deleted, WriteCalls, MaxOf;
    var kept := Deleted(rows, session, segment);
    DeletedIsUnique(rows, session, segment);
    var after := Replaced(rows, session, segment, ms);
    var first := MaxSeq(kept, session) + 1;
    assert after == kept + Inserted(session, segment, first, ms);
    forall i | |kept| <= i < |after|
      ensures after[i].session == session && after[i].segment == segment && after[i].seqNo == first + (i - |kept|)
    {
      assert after[i] == WriteRow(session, segment, first + (i - |kept|), ms[i - |kept|]);
    }
    forall i, j | 0 <= i < j < |after| && |kept| <= j && after[i].session == session
      ensures after[i].seqNo < after[j].seqNo
    {
      assert i < |kept| ==> kept[i] in kept;
    }
    forall i, j | 0 <= i < j < |after| && after[i].session == after[j].session
      ensures after[i].seqNo != after[j].seqNo
    {
      assert j < |kept| || after[j].session == session;
    }
  }

  // ----- Round trip -----

  lemma {:induction false} AscendingIsSorted<T>(items: seq<Keyed<T>>)
    requires AscendingItems(items)
    ensures StableSort(items) == items
    decreases |items|
  {
    if items != [] {
      var n := |items| - 1;
      AscendingIsSorted(items[..n]);
      InsertLast(items[n], items[..n]);
      assert items == items[..n] + [items[n]];
    }
  }

  lemma {:induction false} InsertLast<T>(x: Keyed<T>, items: seq<Keyed<T>>)
    requires forall i :: 0 <= i < |items| ==> items[i].0 <= x.0
    ensures Insert(x, items) == items + [x]
  {
    if items != [] {
      InsertLast(x, items[1..]);
    }
  }

  lemma {:induction false} SelectAll(rows: seq<Row>, session: string, segment: string)
    requires forall r :: r in rows ==> r.session == session && r.segment == segment
    ensures |Selected(rows, session, segment)| == |rows|
    ensures forall i :: 0 <= i < |rows| ==> Selected(rows, session, segment)[i] == (rows[i].seqNo, rows[i])
    ensures Values(Selected(rows, session, segment)) == rows
  {
    if rows != [] {
      SelectAll(rows[1..], session, segment);
      assert Selected(rows, session, segment)[1..] == Selected(rows[1..], session, segment);
    }
  }

  /** What a message becomes by being written and read. */
  function Reloaded(m: ChatMessage): ChatMessage
  {
    ReadRow(WriteRow("", "", 0, m))
  }

  lemma SelectedAfterReplace(rows: seq<Row>, session: string, segment: string, ms: seq<ChatMessage>)
    requires forall m :: m in ms ==> Storable(m)
    ensures
      var first := MaxSeq(Deleted(rows, session, segment), session) + 1;
      Selected(Replaced(rows, session, segment, ms), session, segment)
      == Selected(Inserted(session, segment, first, ms), session, segment)
  {
    hide MaxSeq, Selected, Deleted, Inserted, Storable;
    var kept := Deleted(rows, session, segment);
    SelectedAppend(kept, Inserted(session, segment, MaxSeq(kept, session) + 1, ms), session, segment);
    SelectedOfDeleted(rows, session, segment, session, segment);
  }

  lemma SortedAsInserted(session: string, segment: string, first: int, ms: seq<ChatMessage>)
    ensures var added := Inserted(session, segment, first, ms);
      Values(StableSort(Selected(added, session, segment))) == added
  {
    hide StableSort, Values, WriteCalls, Selected;
    var added := Inserted(session, segment, first, ms);
    SelectAll(added, session, segment);
    AscendingIsSorted(Selected(added, session, segment));
  }

  lemma LoadAfterReplace(rows: seq<Row>, session: string, segment: string, ms: seq<ChatMessage>)
    requires forall m :: m in ms ==> Storable(m)
    ensures var loaded := LoadSessionTranscript(Replaced(rows, session, segment, ms), session, segment);
      |loaded| == |ms| && forall i :: 0 <= i < |ms| ==> loaded[i] == Reloaded(ms[i])
  {
    hide ReadRow, MaxSeq, StableSort, Selected, Values, WriteRow, Reloaded, Deleted, Replaced, Storable;
    var first := MaxSeq(Deleted(rows, session, segment), session) + 1;
    SelectedAfterReplace(rows, session, segment, ms);
    SortedAsInserted(session, segment, first, ms);
    forall i | 0 <= i < |ms| ensures ReadRow(WriteRow(session, segment, first + i, ms[i])) == Reloaded(ms[i]) {
      PositionDoesNotMatter(session, segment, first + i, ms[i]);
    }
  }

  /** A replacement takes place as a whole or, if some message holds structured content, not at all. */
  lemma AllOrNothing(rows: seq<Row>, session: string, segment: string, ms: seq<ChatMessage>)
    ensures
      var after := Replaced(rows, session, segment, ms);
      if exists m :: m in ms && m.content.Parts? then after == rows
      else |LoadSessionTranscript(after, session, segment)| == |ms|
  {
    hide LoadSessionTranscript;
    if forall m :: m in ms ==> Storable(m) {
      LoadAfterReplace(rows, session, segment, ms);
    }
  }

  /** Calls of older rows read like newer ones, newer arguments win, and what is missing reads as empty. */
  lemma OlderRowsReadAlike(r: Row, c: StoredCall, older: Option<string>)
    ensures c.argsJson.None? ==> ReadCall(c) == ReadCall(c.(argsJson := Some(OrEmpty(c.arguments))))
    ensures c.argsJson.Some? ==> ReadCall(c.(arguments := older)) == ReadCall(c)
    ensures r.content.None? ==> ReadRow(r) == ReadRow(r.(content := Some("")))
    ensures r.toolCallId.None? ==> ReadRow(r) == ReadRow(r.(toolCallId := Some("")))
  {
  }

  lemma PositionDoesNotMatter(session: string, segment: string, seqNo: int, m: ChatMessage)
    ensures ReadRow(WriteRow(session, segment, seqNo, m)) == Reloaded(m)
  {
  }

  /** Messages the table can hold without loss. */
  predicate Canonical(m: ChatMessage)
  {
    m.content.Text? && m.name.None? && m.reasoningContent.None? && m.toolCallId != Some("") &&
    m.toolCalls != Some([]) &&
    (m.toolCalls.Some? ==> forall c :: c in m.toolCalls.value ==> c.thoughtSignature != Some(""))
  }

  lemma ReloadedIffCanonical(m: ChatMessage)
    requires Storable(m)
    ensures Reloaded(m) == m <==> Canonical(m)
  {
    if m.toolCalls.Some? && m.toolCalls.value != [] {
      var calls, back := m.toolCalls.value, Reloaded(m).toolCalls.value;
      assert |back| == |calls|;
      forall i | 0 <= i < |calls| ensures back[i] == calls[i] <==> calls[i].thoughtSignature != Some("") {
        assert back[i] == ReadCall(WriteCall(calls[i]));
      }
      if Canonical(m) {
        assert back == calls;
      }
    }
  }

  lemma LoadedIsText(rows: seq<Row>, session: string, segment: string)
    ensures forall m :: m in LoadSessionTranscript(rows, session, segment) ==> Storable(m)
  {
    hide StableSort, Selected;
  }

  lemma CanonicalIsStorable(m: ChatMessage)
    ensures Canonical(m) ==> Storable(m)
  {
  }

  /** Main result: loading after a replacement gives back exactly the messages written iff each of them is canonical. */
  lemma RoundTripIff(rows: seq<Row>, session: string, segment: string, ms: seq<ChatMessage>)
    ensures LoadSessionTranscript(Replaced(rows, session, segment, ms), session, segment) == ms
       <==> forall m :: m in ms ==> Canonical(m)
  {
    hide LoadSessionTranscript, Replaced, Canonical, Reloaded, Storable;
    var loaded := LoadSessionTranscript(Replaced(rows, session, segment, ms), session, segment);
    if forall m :: m in ms ==> Storable(m) {
      LoadAfterReplace(rows, session, segment, ms);
      forall i | 0 <= i < |ms| ensures loaded[i] == ms[i] <==> Canonical(ms[i]) {
        ReloadedIffCanonical(ms[i]);
      }
    } else {
      LoadedIsText(Replaced(rows, session, segment, ms), session, segment);
      var m :| m in ms && !Storable(m);
      CanonicalIsStorable(m);
    }
  }

  // ----- Everything a load produces can be written back -----

  /** Writers store a list of tool calls only when it is not empty. */
  ghost predicate NoEmptyCallLists(rows: seq<Row>)
  {
    forall r :: r in rows ==> r.toolCalls != Some([])
  }

  lemma NoEmptyCallListsIsKept(rows: seq<Row>, session: string, segment: string, ms: seq<ChatMessage>)
    requires NoEmptyCallLists(rows)
    ensures NoEmptyCallLists(Replaced(rows, session, segment, ms))
  {
    DeletedIsSubset(rows, session, segment);
    var first := MaxSeq(Deleted(rows, session, segment), session) + 1;
    forall i | 0 <= i < |ms| ensures Inserted(session, segment, first, ms)[i].toolCalls != Some([]) {
    }
  }

  lemma {:induction false} SelectedAreRows(rows: seq<Row>, session: string, segment: string)
    ensures forall x :: x in Selected(rows, session, segment) ==>
      x.1 in rows && x.0 == x.1.seqNo && x.1.session == session && x.1.segment == segment
  {
    if rows != [] {
      SelectedAreRows(rows[1..], session, segment);
    }
  }

  lemma {:induction false} ValuesAreItems<T>(items: seq<Keyed<T>>)
    ensures |Values(items)| == |items| && forall i :: 0 <= i < |items| ==> Values(items)[i] == items[i].1
  {
    if items != [] {
      ValuesAreItems(items[1..]);
    }
  }

  lemma LoadedIsCanonical(rows: seq<Row>, session: string, segment: string)
    requires NoEmptyCallLists(rows)
    ensures forall m :: m in LoadSessionTranscript(rows, session, segment) ==> Canonical(m) && Storable(m)
  {
    hide StableSort;
    var sorted := StableSort(Selected(rows, session, segment));
    SortKeeps(Selected(rows, session, segment));
    SelectedAreRows(rows, session, segment);
    ValuesAreItems(sorted);
    forall i | 0 <= i < |sorted| ensures Canonical(ReadRow(Values(sorted)[i])) {
      assert sorted[i] in sorted;
      assert Values(sorted)[i] in rows;
      ReadIsCanonical(Values(sorted)[i]);
    }
  }

  lemma ReadIsCanonical(r: Row)
    requires r.toolCalls != Some([])
    ensures Canonical(ReadRow(r))
  {
    if r.toolCalls.Some? {
      var calls, read := r.toolCalls.value, ReadRow(r).toolCalls.value;
      assert |read| == |calls|;
      forall i | 0 <= i < |read| ensures read[i].thoughtSignature != Some("") {
        assert read[i] == ReadCall(calls[i]);
      }
    }
  }

  /** Saving what was loaded, from any segment into any segment, loads the same messages again. */
  lemma LoadedRoundTrips(rows: seq<Row>, from: string, fromSegment: string, session: string, segment: string)
    requires NoEmptyCallLists(rows)
    ensures
      var ms := LoadSessionTranscript(rows, from, fromSegment);
      LoadSessionTranscript(Replaced(rows, session, segment, ms), session, segment) == ms
  {
    hide LoadSessionTranscript, Replaced, Canonical, Storable;
    LoadedIsCanonical(rows, from, fromSegment);
    RoundTripIff(rows, session, segment, LoadSessionTranscript(rows, from, fromSegment));
  }

  // ----- Appending -----

  /** One message appended behind everything the session holds. */
  function Appended(rows: seq<Row>, session: string, segment: string, m: ChatMessage): seq<Row>
  {
    if Storable(m) then rows + [WriteRow(session, segment, MaxSeq(rows, session) + 1, m)] else rows
  }

  lemma AppendedIsSelected(rows: seq<Row>, session: string, segment: string, row: Row)
    ensures Selected(rows + [row], session, segment) == Selected(rows, session, segment) +
      if row.session == session && row.segment == segment then [(row.seqNo, row)] else []
  {
    hide Selected;
    SelectedAppend(rows, [row], session, segment);
    OneSelected(row, session, segment);
  }

  lemma OneSelected(row: Row, session: string, segment: string)
    ensures Selected([row], session, segment) ==
      if row.session == session && row.segment == segment then [(row.seqNo, row)] else []
  {
    assert [row][1..] == [];
    assert Selected([], session, segment) == [];
  }

  /** Sorting puts a new greatest key last. */
  lemma SortedLast<T>(items: seq<Keyed<T>>, x: Keyed<T>)
    requires forall i :: 0 <= i < |items| ==> items[i].0 <= x.0
    ensures StableSort(items + [x]) == StableSort(items) + [x]
  {
    hide Insert;
    assert (items + [x])[..|items|] == items;
    SortBelow(items, x.0);
    InsertLast(x, StableSort(items));
  }

  lemma MessagesSnoc(items: seq<Keyed<Row>>, x: Keyed<Row>)
    ensures Messages(Values(items + [x])) == Messages(Values(items)) + [ReadRow(x.1)]
  {
    hide ReadRow;
    ValuesAreItems(items);
    ValuesAreItems(items + [x]);
  }

  /** The segment loads one message more, every other one what it loaded before. */
  lemma LoadAfterAppend(rows: seq<Row>, session: string, segment: string, m: ChatMessage, s: string, g: string)
    ensures LoadSessionTranscript(Appended(rows, session, segment, m), s, g)
         == LoadSessionTranscript(rows, s, g) +
            if Storable(m) && s == session && g == segment then [Reloaded(m)] else []
  {
    hide Selected, StableSort, Values, Messages, ReadRow, WriteRow, Reloaded;
    var loaded := LoadSessionTranscript(rows, s, g);
    assert loaded + [] == loaded;
    if Storable(m) {
      var row := WriteRow(session, segment, MaxSeq(rows, session) + 1, m);
      RowIsWritten(session, segment, MaxSeq(rows, session) + 1, m);
      AppendedIsSelected(rows, s, g, row);
      if s == session && g == segment {
        SelectedAreRows(rows, s, g);
        var items := Selected(rows, s, g);
        forall i | 0 <= i < |items| ensures items[i].0 <= row.seqNo {
          assert items[i] in items;
        }
        SortedLast(Selected(rows, s, g), (row.seqNo, row));
        MessagesSnoc(StableSort(Selected(rows, s, g)), (row.seqNo, row));
        PositionDoesNotMatter(session, segment, MaxSeq(rows, session) + 1, m);
      } else {
        assert Selected(rows, s, g) + [] == Selected(rows, s, g);
      }
    }
  }

  lemma RowIsWritten(session: string, segment: string, seqNo: int, m: ChatMessage)
    ensures
      var row := WriteRow(session, segment, seqNo, m);
      row.session == session && row.segment == segment && row.seqNo == seqNo && row.toolCalls != Some([])
  {
  }

  /** Rows of a session are numbered from one, each one above the greatest so far. */
  lemma NumbersContinue(rows: seq<Row>, session: string, segment: string, m: ChatMessage)
    requires Storable(m)
    ensures
      var after := Appended(rows, session, segment, m);
      |after| == |rows| + 1 && after[..|rows|] == rows && after[|rows|].session == session &&
      after[|rows|].segment == segment &&
      (forall r :: r in rows && r.session == session ==> r.seqNo < after[|rows|].seqNo) &&
      (after[|rows|].seqNo == 1 ||
       exists r :: r in rows && r.session == session && after[|rows|].seqNo == r.seqNo + 1) &&
      ((forall r :: r in rows ==> r.session != session) ==> after[|rows|].seqNo == 1)
  {
    hide WriteCalls;
  }

  lemma AppendKeepsTable(rows: seq<Row>, session: string, segment: string, m: ChatMessage)
    requires UniqueSeqs(rows) && NoEmptyCallLists(rows)
    ensures UniqueSeqs(Appended(rows, session, segment, m)) && NoEmptyCallLists(Appended(rows, session, segment, m))
  {
    hide WriteRow, MaxOf;
    RowIsWritten(session, segment, MaxSeq(rows, session) + 1, m);
  }
}
