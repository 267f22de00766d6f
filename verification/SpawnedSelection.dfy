/** What a spawned agent's selection holds, property by property, in terms of the two selections it is made from. */
module SpawnedSelection {
  import opened Prelude
  import opened InvocationMerge

  /** The overlay's value where it has one, else the parent's. */
  function Wins<T>(over: Option<T>, base: Option<T>): Option<T>
  {
    match over
    case Some(_) => over
    case None => base
  }

  /** The extras of a selection, none counting as empty. */
  function ExtrasOf(o: Object): Object
  {
    match ReadExtras(Get(o, RequestExtras), Get(o, ExtraBody))
    case Some(extras) => extras
    case None => map[]
  }

  /** How the parts of a record are looked up in the merge of two, whichever of them is empty. */
  lemma OverlayWins(b: Params, o: Params)
    ensures
      var m := MergeInvocations(Some(b), Some(o));
      m.maxOutputTokens == Wins(o.maxOutputTokens, b.maxOutputTokens) &&
      m.temperature == Wins(o.temperature, b.temperature) && m.thinking == Wins(o.thinking, b.thinking) &&
      m.reasoningEffort == Wins(o.reasoningEffort, b.reasoningEffort) &&
      m.responseSchema == Wins(o.responseSchema, b.responseSchema) &&
      m.structuredOutputMode == Wins(o.structuredOutputMode, b.structuredOutputMode)
  {
    hide ShallowMergeExtras;
  }

  lemma ExtrasWin(b: Params, o: Params, k: Key)
    ensures
      var x, y := if b.requestExtras.Some? then b.requestExtras.value else map[],
                  if o.requestExtras.Some? then o.requestExtras.value else map[];
      var m := MergeInvocations(Some(b), Some(o)).requestExtras;
      Get(if m.Some? then m.value else map[], k) == Wins(Get(y, k), Get(x, k))
  {
  }

  lemma ParsedFields(o: Object)
    ensures
      var p := ParseObject(o);
      p.maxOutputTokens == ReadCount(Get(o, MaxOutputTokens)) &&
      p.temperature == ReadTemperature(Get(o, Temperature)) &&
      p.thinking == ReadThinking(Get(o, Thinking)) && p.reasoningEffort == ReadEffort(Get(o, ReasoningEffort)) &&
      p.requestExtras == ReadExtras(Get(o, RequestExtras), Get(o, ExtraBody)) &&
      p.responseSchema == ReadSchema(Get(o, ResponseSchema)) &&
      p.structuredOutputMode == ReadMode(Get(o, StructuredOutputMode))
  {
    hide ReadCount, ReadTemperature, ReadThinking, ReadEffort, ReadExtras, ReadSchema, ReadMode, Get;
  }

  /** A property holds a number, a text, thinking options or a schema, or is absent. */
  ghost predicate IsNumber(j: Option<Json>, n: Option<real>)
  {
    match n case Some(value) => j == Some(Num(value)) case None => j == None
  }

  ghost predicate IsText(j: Option<Json>, s: Option<string>)
  {
    match s case Some(value) => j == Some(Str(value)) case None => j == None
  }

  ghost predicate IsThinking(j: Option<Json>, t: Option<ThinkingOptions>)
  {
    match t
    case Some(options) =>
      j.Some? && j.value.Obj? && Get(j.value.o, Enabled) == Some(Bool(options.enabled)) &&
      IsNumber(Get(j.value.o, BudgetTokens), options.budgetTokens) && j.value.o.Keys <= {Enabled, BudgetTokens}
    case None => j == None
  }

  ghost predicate IsSchema(j: Option<Json>, s: Option<SchemaOption>)
  {
    match s
    case Some(option) =>
      j.Some? && j.value.Obj? && Get(j.value.o, Schema) == option.schema && j.value.o.Keys <= {Schema}
    case None => j == None
  }

  lemma WrittenIs(p: Params)
    ensures
      var o := Written(p);
      IsNumber(Get(o, MaxOutputTokens), p.maxOutputTokens) && IsNumber(Get(o, Temperature), p.temperature) &&
      IsThinking(Get(o, Thinking), p.thinking) && IsText(Get(o, ReasoningEffort), p.reasoningEffort) &&
      IsSchema(Get(o, ResponseSchema), p.responseSchema) &&
      IsText(Get(o, StructuredOutputMode), p.structuredOutputMode)
    ensures
      var extras := if p.requestExtras.Some? then p.requestExtras.value else map[];
      Get(Written(p), RequestExtras) == if extras == map[] then None else Some(Obj(extras))
    ensures Get(Written(p), ExtraBody) == None
  {
    hide Written;
    WrittenProperties(p);
  }

  /**
    Main result: each invocation property of a spawned agent's selection is what parsing the overlay gives where that
    gives something, else what parsing the parent gives; extras are merged key by key with the overlay winning.
   */
  lemma SpawnedFields(parent: Option<Json>, overlay: Option<Json>, modelRef: Option<string>)
    ensures
      var b, o, out := AsObject(parent), AsObject(overlay), SpawnObject(parent, overlay, modelRef);
      IsNumber(Get(out, MaxOutputTokens),
        Wins(ReadCount(Get(o, MaxOutputTokens)), ReadCount(Get(b, MaxOutputTokens)))) &&
      IsNumber(Get(out, Temperature),
        Wins(ReadTemperature(Get(o, Temperature)), ReadTemperature(Get(b, Temperature)))) &&
      IsThinking(Get(out, Thinking), Wins(ReadThinking(Get(o, Thinking)), ReadThinking(Get(b, Thinking)))) &&
      IsText(Get(out, ReasoningEffort),
        Wins(ReadEffort(Get(o, ReasoningEffort)), ReadEffort(Get(b, ReasoningEffort)))) &&
      IsSchema(Get(out, ResponseSchema),
        Wins(ReadSchema(Get(o, ResponseSchema)), ReadSchema(Get(b, ResponseSchema)))) &&
      IsText(Get(out, StructuredOutputMode),
        Wins(ReadMode(Get(o, StructuredOutputMode)), ReadMode(Get(b, StructuredOutputMode))))
    ensures
      var b, o, out := AsObject(parent), AsObject(overlay), SpawnObject(parent, overlay, modelRef);
      Get(out, ExtraBody) == None &&
      (Get(out, RequestExtras) == None ==> ExtrasOf(b) == map[] && ExtrasOf(o) == map[]) &&
      (Get(out, RequestExtras).Some? ==>
         var extras := Get(out, RequestExtras).value;
         extras.Obj? && extras.o != map[] &&
         forall k :: Get(extras.o, k) == Wins(Get(ExtrasOf(o), k), Get(ExtrasOf(b), k)))
  {
    hide ReadCount, ReadTemperature, ReadThinking, ReadEffort, ReadExtras, ReadSchema, ReadMode, ParseObject, Written,
      MergeInvocations, SpawnObject, IsNumber, IsThinking, IsText, IsSchema, InvocationKey;
    var b, o := AsObject(parent), AsObject(overlay);
    var p, q := ParseObject(b), ParseObject(o);
    var m := MergeInvocations(Some(p), Some(q));
    SpawnProperties(parent, overlay, modelRef);
    ParsedFields(b);
    ParsedFields(o);
    OverlayWins(p, q);
    WrittenIs(m);
    TheirKeys();
    var extras := if m.requestExtras.Some? then m.requestExtras.value else map[];
    forall k ensures Get(extras, k) == Wins(Get(ExtrasOf(o), k), Get(ExtrasOf(b), k)) {
      ExtrasWin(p, q, k);
    }
    if extras == map[] {
      NothingGot(ExtrasOf(o), ExtrasOf(b));
    }
  }

  lemma NothingGot(o: Object, b: Object)
    requires forall k :: Wins(Get(o, k), Get(b, k)) == None
    ensures o == map[] && b == map[]
  {
    assert forall k :: k in o ==> Wins(Get(o, k), Get(b, k)) == Get(o, k);
    assert forall k :: k in b && k !in o ==> Wins(Get(o, k), Get(b, k)) == Get(b, k);
    assert forall k :: k !in o;
    assert forall k :: k !in b;
    assert o.Keys == {} && b.Keys == {};
  }

  lemma TheirKeys()
    ensures InvocationKey(MaxOutputTokens) && InvocationKey(Temperature) && InvocationKey(Thinking)
    ensures InvocationKey(ReasoningEffort) && InvocationKey(RequestExtras) && InvocationKey(ExtraBody)
    ensures InvocationKey(ResponseSchema) && InvocationKey(StructuredOutputMode)
  {
  }

  // ----- What parsing accepts -----

  /** Positive numbers, cut to whole ones, are token counts; nothing else is. */
  lemma CountsAre(j: Option<Json>)
    ensures ReadCount(j).Some? <==> j.Some? && j.value.Num? && j.value.n > 0.0
    ensures ReadCount(j).Some? ==>
      ReadCount(j).value <= j.value.n < ReadCount(j).value + 1.0 &&
      ReadCount(j).value.Floor as real == ReadCount(j).value
  {
  }

  /** Three modes are known; efforts are trimmed and not blank; options need a boolean switch. */
  lemma OptionsAre(j: Option<Json>)
    ensures ReadMode(j).Some? <==> j in {Some(Str("strict")), Some(Str("best-effort")), Some(Str("none"))}
    ensures ReadMode(j).Some? ==> j == Some(Str(ReadMode(j).value))
    ensures ReadEffort(j).Some? <==> j.Some? && j.value.Str? && Trim(j.value.s) != ""
    ensures ReadEffort(j).Some? ==> ReadEffort(j).value == Trim(j.value.s)
    ensures ReadTemperature(j).Some? <==> j.Some? && j.value.Num?
    ensures ReadTemperature(j).Some? ==> j == Some(Num(ReadTemperature(j).value))
    ensures ReadThinking(j).Some? <==> j.Some? && j.value.Obj? && Enabled in j.value.o && j.value.o[Enabled].Bool?
    ensures ReadThinking(j).Some? ==>
      j.value.o[Enabled] == Bool(ReadThinking(j).value.enabled) &&
      ReadThinking(j).value.budgetTokens == ReadCount(Get(j.value.o, BudgetTokens))
    ensures ReadSchema(j).Some? <==> j.Some? && j.value.Obj?
    ensures ReadSchema(j).Some? ==> ReadSchema(j).value.schema == Get(j.value.o, Schema)
  {
    hide Trim, ReadCount;
  }

  /** The newer name for extras is used unless it is absent or null. */
  lemma ExtrasAre(newer: Option<Json>, older: Option<Json>)
    ensures newer.Some? && newer.value.Obj? ==> ReadExtras(newer, older) == Some(newer.value.o)
    ensures (newer == None || newer == Some(Null)) && older.Some? && older.value.Obj? ==>
      ReadExtras(newer, older) == Some(older.value.o)
    ensures newer.Some? && newer.value != Null && !newer.value.Obj? ==> ReadExtras(newer, older) == None
    ensures (newer == None || newer == Some(Null)) && !(older.Some? && older.value.Obj?) ==>
      ReadExtras(newer, older) == None
  {
  }
}
