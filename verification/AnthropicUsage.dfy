/** Token usage and stop reason, collected from the message events of a stream. */
module AnthropicUsage {
  import opened Prelude
  import opened AnthropicBlocks

  /** A usage property: not there, null, or a number. */
  datatype Field = Absent | Null | Count(n: int)

  datatype Usage = Usage(input: Field, output: Field, cacheRead: Field, cacheWrite: Field)

  const NO_FIELDS := Usage(Absent, Absent, Absent, Absent)

  /** A parsed payload: its event, and what message events carry beside it (the reason is empty when there is none). */
  datatype Payload = Payload(event: WireEvent, usage: Option<Usage>, stopReason: string)

  datatype Meter = Meter(usage: Option<Usage>, stopReason: Option<string>)

  function Newer(earlier: Field, later: Field): Field
  {
    if later.Absent? then earlier else later
  }

  /** `{ ...u, ...v }`. */
  function Spread(u: Usage, v: Usage): Usage
  {
    Usage(Newer(u.input, v.input), Newer(u.output, v.output), Newer(u.cacheRead, v.cacheRead),
      Newer(u.cacheWrite, v.cacheWrite))
  }

  /** The start of a message with an input count begins a new record. */
  predicate StartsRecord(p: Payload)
  {
    p.event.MessageStart? && p.usage.Some? && p.usage.value.input.Count?
  }

  /** A message delta with an output count adds to it. */
  predicate AddsToRecord(p: Payload)
  {
    p.event.Ignored? && p.usage.Some? && p.usage.value.output.Count?
  }

  function Measured(m: Meter, p: Payload): Meter
  {
    Meter(
      if StartsRecord(p) then p.usage
      else if AddsToRecord(p) then Some(Spread(if m.usage.Some? then m.usage.value else NO_FIELDS, p.usage.value))
      else m.usage,
      if p.event.Ignored? && p.stopReason != "" then Some(p.stopReason) else m.stopReason)
  }

  function MeasuredAll(m: Meter, ps: seq<Payload>): Meter
    decreases |ps|
  {
    if ps == [] then m else MeasuredAll(Measured(m, ps[0]), ps[1..])
  }

  const UNMEASURED := Meter(None, None)

  datatype ModelUsage = ModelUsage(
    inputTokens: int, outputTokens: int, cachedInputTokens: Option<int>, cacheWriteInputTokens: Option<int>)

  function OrZero(f: Field): int
  {
    if f.Count? then f.n else 0
  }

  function Given(f: Field): Option<int>
  {
    if f.Count? then Some(f.n) else None
  }

  function ToModelUsage(usage: Option<Usage>): Option<ModelUsage>
  {
    if usage.None? || !usage.value.input.Count? || !usage.value.output.Count? then None
    else
      var u := usage.value;
      Some(ModelUsage(u.input.n + OrZero(u.cacheRead) + OrZero(u.cacheWrite), u.output.n, Given(u.cacheRead),
        Given(u.cacheWrite)))
  }

  // ----- What the meter shows at the end -----

  lemma {:induction false} MeasuredSnoc(m: Meter, ps: seq<Payload>, p: Payload)
    ensures MeasuredAll(m, ps + [p]) == Measured(MeasuredAll(m, ps), p)
    decreases |ps|
  {
    hide Measured;
    if ps == [] {
      assert ([] + [p])[1..] == [];
    } else {
      assert (ps + [p])[1..] == ps[1..] + [p];
      MeasuredSnoc(Measured(m, ps[0]), ps[1..], p);
    }
  }

  /** The usage reports of the newest record, in order. */
  function Record(ps: seq<Payload>): seq<Usage>
  {
    if ps == [] then []
    else
      var front, p := ps[..|ps| - 1], ps[|ps| - 1];
      match p.usage
      case None => Record(front)
      case Some(u) =>
        if p.event == MessageStart && u.input.Count? then [u]
        else if p.event == Ignored && u.output.Count? then Record(front) + [u]
        else Record(front)
  }

  datatype Property = Input | Output | CacheRead | CacheWrite

  function Value(u: Usage, p: Property): Field
  {
    match p
    case Input => u.input
    case Output => u.output
    case CacheRead => u.cacheRead
    case CacheWrite => u.cacheWrite
  }

  /** The newest value given for a property. */
  function Newest(us: seq<Usage>, p: Property): Field
  {
    if us == [] then Absent
    else if !Value(us[|us| - 1], p).Absent? then Value(us[|us| - 1], p)
    else Newest(us[..|us| - 1], p)
  }

  function Reasons(ps: seq<Payload>): seq<string>
  {
    if ps == [] then []
    else
      var p := ps[|ps| - 1];
      Reasons(ps[..|ps| - 1]) + (if p.event.Ignored? && p.stopReason != "" then [p.stopReason] else [])
  }

  /** The meter shows the newest values of a record, and the newest reason. */
  ghost predicate Shows(m: Meter, us: seq<Usage>, reasons: seq<string>)
  {
    ShowsUsage(m.usage, us) && m.stopReason == if reasons == [] then None else Some(reasons[|reasons| - 1])
  }

  ghost predicate ShowsUsage(usage: Option<Usage>, us: seq<Usage>)
  {
    (usage.None? <==> us == []) && (usage.Some? ==> forall p :: Value(usage.value, p) == Newest(us, p))
  }

  /** Usage holds, property by property, the newest value given since the record began; the newest reason wins. */
  lemma {:induction false} NewestCounts(ps: seq<Payload>)
    ensures Shows(MeasuredAll(UNMEASURED, ps), Record(ps), Reasons(ps))
    decreases |ps|
  {
    hide Shows, Measured;
    if ps == [] {
      NothingShown();
    } else {
      var n := |ps| - 1;
      NewestCounts(ps[..n]);
      TakeOneMore(ps, n);
      assert ps[..n + 1] == ps;
      MeasuredSnoc(UNMEASURED, ps[..n], ps[n]);
      OneMoreShown(MeasuredAll(UNMEASURED, ps[..n]), ps);
    }
  }

  lemma NothingShown()
    ensures Shows(UNMEASURED, [], [])
  {
  }

  lemma OneMoreShown(m: Meter, ps: seq<Payload>)
    requires ps != [] && Shows(m, Record(ps[..|ps| - 1]), Reasons(ps[..|ps| - 1]))
    ensures Shows(Measured(m, ps[|ps| - 1]), Record(ps), Reasons(ps))
  {
    hide Record, Reasons, ShowsUsage, Spread;
    RecordGoesOn(ps);
    var p := ps[|ps| - 1];
    if StartsRecord(p) {
      RecordBegins(p.usage.value);
    } else if AddsToRecord(p) {
      RecordGrows(m.usage, Record(ps[..|ps| - 1]), p.usage.value);
    }
  }

  lemma RecordBegins(u: Usage)
    ensures ShowsUsage(Some(u), [u])
  {
    NewestSnoc([], u);
    NothingNewest();
    assert [] + [u] == [u];
  }

  lemma RecordGrows(usage: Option<Usage>, us: seq<Usage>, u: Usage)
    requires ShowsUsage(usage, us)
    ensures ShowsUsage(Some(Spread(if usage.Some? then usage.value else NO_FIELDS, u)), us + [u])
  {
    hide Newest;
    NewestSnoc(us, u);
    NothingNewest();
  }

  lemma RecordGoesOn(ps: seq<Payload>)
    requires ps != []
    ensures
      var front, p := ps[..|ps| - 1], ps[|ps| - 1];
      Record(ps) == (if StartsRecord(p) then [p.usage.value]
                     else if AddsToRecord(p) then Record(front) + [p.usage.value] else Record(front)) &&
      Reasons(ps) == Reasons(front) + if p.event.Ignored? && p.stopReason != "" then [p.stopReason] else []
  {
  }

  lemma NothingNewest()
    ensures forall p :: Newest([], p) == Absent
  {
  }

  lemma NewestSnoc(us: seq<Usage>, u: Usage)
    ensures forall p :: Newest(us + [u], p) == Newer(Newest(us, p), Value(u, p))
  {
    assert (us + [u])[..|us|] == us;
  }

  function NumberOf(f: Field): int
  {
    match f case Count(n) => n case _ => 0
  }

  /** Input counts what was read from and written to caches as well; those two are reported besides where given. */
  lemma UsageAddsUp(ps: seq<Payload>)
    ensures
      var usage := ToModelUsage(MeasuredAll(UNMEASURED, ps).usage);
      var read, write := Newest(Record(ps), CacheRead), Newest(Record(ps), CacheWrite);
      usage.Some? ==>
        usage.value.inputTokens == NumberOf(Newest(Record(ps), Input)) + NumberOf(read) + NumberOf(write) &&
        usage.value.outputTokens == NumberOf(Newest(Record(ps), Output)) &&
        usage.value.cachedInputTokens == (if read.Count? then Some(read.n) else None) &&
        usage.value.cacheWriteInputTokens == (if write.Count? then Some(write.n) else None)
  {
    NewestCounts(ps);
    var usage := MeasuredAll(UNMEASURED, ps).usage;
    if usage.Some? {
      var u := usage.value;
      assert Value(u, Input) == u.input && Value(u, Output) == u.output && Value(u, CacheRead) == u.cacheRead &&
        Value(u, CacheWrite) == u.cacheWrite;
    }
  }

  /** Usage is reported iff the newest values given for input and output are numbers. */
  lemma UsageIsReportedIff(ps: seq<Payload>)
    ensures
      ToModelUsage(MeasuredAll(UNMEASURED, ps).usage).Some?
      <==> Newest(Record(ps), Input).Count? && Newest(Record(ps), Output).Count?
  {
    NewestCounts(ps);
    var usage := MeasuredAll(UNMEASURED, ps).usage;
    if usage.Some? {
      assert Value(usage.value, Input) == usage.value.input && Value(usage.value, Output) == usage.value.output;
    }
  }
}
