/** Model invocation parameters: reading them from session JSON, merging layers of them, and writing them back. */
module InvocationMerge {
  import opened Prelude

  /** Property names: the ones the code looks at, and all others. */
  datatype Key =
    | MaxOutputTokens | Temperature | Thinking | ReasoningEffort | RequestExtras | ExtraBody
    | ResponseSchema | StructuredOutputMode
    | Enabled | BudgetTokens | Schema | Model | Other(name: string)

  /** Parsed JSON; a literal beyond the range of a double parses to a number that is not finite. */
  datatype Json =
    Null | Bool(b: bool) | Num(n: real) | NonFinite | Str(s: string) | Arr(items: seq<Json>) | Obj(o: Object)

  type Object = map<Key, Json>

  datatype ThinkingOptions = ThinkingOptions(enabled: bool, budgetTokens: Option<real>)

  datatype SchemaOption = SchemaOption(schema: Option<Json>)

  /** `bare` says that the JavaScript object has no keys at all, not even one set to undefined. */
  datatype Record = Record(
    bare: bool,
    maxOutputTokens: Option<real>, temperature: Option<real>, thinking: Option<ThinkingOptions>,
    reasoningEffort: Option<string>, requestExtras: Option<Object>, responseSchema: Option<SchemaOption>,
    structuredOutputMode: Option<string>, thinkingFormat: Option<string>, maxReasoningContentBytes: Option<real>)

  const EMPTY := Record(true, None, None, None, None, None, None, None, None, None)

  type Params = p: Record | p.bare ==> p == EMPTY witness EMPTY

  function Get(o: Object, k: Key): Option<Json>
  {
    if k in o then Some(o[k]) else None
  }

  /** `over ?? base`. */
  function Or<T>(over: Option<T>, base: Option<T>): Option<T>
  {
    if over.Some? then over else base
  }

  // ----- Reading -----

  predicate IsCount(j: Option<Json>)
  {
    j.Some? && j.value.Num? && j.value.n > 0.0
  }

  /** A positive number, truncated. */
  function ReadCount(j: Option<Json>): Option<real>
  {
    if IsCount(j) then Some(j.value.n.Floor as real) else None
  }

  function ReadThinking(j: Option<Json>): Option<ThinkingOptions>
  {
    if j.Some? && j.value.Obj? && Enabled in j.value.o && j.value.o[Enabled].Bool?
    then Some(ThinkingOptions(j.value.o[Enabled].b, ReadCount(Get(j.value.o, BudgetTokens))))
    else None
  }

  function ReadTemperature(j: Option<Json>): Option<real>
  {
    if j.Some? && j.value.Num? then Some(j.value.n) else None
  }

  function ReadEffort(j: Option<Json>): Option<string>
  {
    if j.Some? && j.value.Str? && Trim(j.value.s) != "" then Some(Trim(j.value.s)) else None
  }

  function ReadExtras(requestExtras: Option<Json>, extraBody: Option<Json>): Option<Object>
  {
    var raw := if requestExtras.Some? && !requestExtras.value.Null? then requestExtras else extraBody;
    if raw.Some? && raw.value.Obj? then Some(raw.value.o) else None
  }

  function ReadSchema(j: Option<Json>): Option<SchemaOption>
  {
    if j.Some? && j.value.Obj? then Some(SchemaOption(Get(j.value.o, Schema))) else None
  }

  predicate IsMode(s: string)
  {
    s == "strict" || s == "best-effort" || s == "none"
  }

  function ReadMode(j: Option<Json>): Option<string>
  {
    if j.Some? && j.value.Str? && IsMode(j.value.s) then Some(j.value.s) else None
  }

  function ParseObject(o: Object): Params
  {
    var p := Record(false,
      ReadCount(Get(o, MaxOutputTokens)), ReadTemperature(Get(o, Temperature)), ReadThinking(Get(o, Thinking)),
      ReadEffort(Get(o, ReasoningEffort)), ReadExtras(Get(o, RequestExtras), Get(o, ExtraBody)),
      ReadSchema(Get(o, ResponseSchema)), ReadMode(Get(o, StructuredOutputMode)), None, None);
    if p == EMPTY.(bare := false) then EMPTY else p
  }

  /** An object, or nothing to read from. */
  function AsObject(raw: Option<Json>): Object
  {
    if raw.Some? && raw.value.Obj? then raw.value.o else map[]
  }

  function ParseModelInvocationFromUnknown(raw: Option<Json>): Params
  {
    ParseObject(AsObject(raw))
  }

  // ----- Merging -----

  function ShallowMergeExtras(base: Option<Object>, over: Option<Object>): Option<Object>
  {
    var b, o := if base.Some? then base.value else map[], if over.Some? then over.value else map[];
    if b == map[] && o == map[] then None
    else if b == map[] then Some(o)
    else if o == map[] then Some(b)
    else Some(b + o)
  }

  function MergeInvocations(base: Option<Params>, over: Option<Params>): Params
  {
    if base.None? || base.value.bare then if over.Some? then over.value else EMPTY
    else if over.None? || over.value.bare then base.value
    else Merged(base.value, over.value)
  }

  function Merged(base: Params, over: Params): Params
  {
    Record(false,
      Or(over.maxOutputTokens, base.maxOutputTokens), Or(over.temperature, base.temperature),
      Or(over.thinking, base.thinking), Or(over.reasoningEffort, base.reasoningEffort),
      ShallowMergeExtras(base.requestExtras, over.requestExtras), Or(over.responseSchema, base.responseSchema),
      Or(over.structuredOutputMode, base.structuredOutputMode), None, None)
  }

  // ----- Writing -----

  predicate InvocationKey(k: Key)
  {
    k in {MaxOutputTokens, Temperature, Thinking, ReasoningEffort, RequestExtras, ExtraBody, ResponseSchema,
          StructuredOutputMode}
  }

  function Stripped(o: Object): Object
  {
    map k | k in o && !InvocationKey(k) :: o[k]
  }

  method StripInvocationKeys(o: Object) returns (out: Object)
    ensures out == Stripped(o)
  {
    out := map[];
    var left := o.Keys;
    while left != {}
      invariant left <= o.Keys
      invariant out == map k | k in o && k !in left && !InvocationKey(k) :: o[k]
      decreases left
    {
      var k :| k in left;
      if !InvocationKey(k) {
        out := out[k := o[k]];
      }
      left := left - {k};
    }
  }

  function WrittenThinking(t: ThinkingOptions): Json
  {
    Obj(if t.budgetTokens.Some? then map[Enabled := Bool(t.enabled), BudgetTokens := Num(t.budgetTokens.value)]
        else map[Enabled := Bool(t.enabled)])
  }

  function WrittenSchema(s: SchemaOption): Json
  {
    Obj(if s.schema.Some? then map[Schema := s.schema.value] else map[])
  }

  /** Set a property unless its value is undefined. */
  function With(o: Object, k: Key, j: Option<Json>): Object
  {
    if j.Some? then o[k := j.value] else o
  }

  function Numeric(n: Option<real>): Option<Json>
  {
    if n.Some? then Some(Num(n.value)) else None
  }

  function Textual(s: Option<string>): Option<Json>
  {
    if s.Some? then Some(Str(s.value)) else None
  }

  function WrittenExtras(extras: Option<Object>): Option<Json>
  {
    if extras.Some? && extras.value != map[] then Some(Obj(extras.value)) else None
  }

  function Written(p: Params): Object
  {
    var o := With(With(map[], MaxOutputTokens, Numeric(p.maxOutputTokens)), Temperature, Numeric(p.temperature));
    var o := With(o, Thinking, if p.thinking.Some? then Some(WrittenThinking(p.thinking.value)) else None);
    var o := With(With(o, ReasoningEffort, Textual(p.reasoningEffort)), RequestExtras, WrittenExtras(p.requestExtras));
    var o := With(o, ResponseSchema,
      if p.responseSchema.Some? then Some(WrittenSchema(p.responseSchema.value)) else None);
    With(o, StructuredOutputMode, Textual(p.structuredOutputMode))
  }

  method ThinkingToJson(t: ThinkingOptions) returns (j: Json)
    ensures j == WrittenThinking(t)
  {
    var o := map[Enabled := Bool(t.enabled)];
    if t.budgetTokens.Some? {
      o := o[BudgetTokens := Num(t.budgetTokens.value)];
    }
    j := Obj(o);
  }

  method ModelInvocationParamsToSessionJson(p: Params) returns (o: Object)
    ensures o == Written(p)
  {
    hide WrittenThinking, WrittenSchema;
    o := map[];
    if p.maxOutputTokens.Some? {
      o := o[MaxOutputTokens := Num(p.maxOutputTokens.value)];
    }
    if p.temperature.Some? {
      o := o[Temperature := Num(p.temperature.value)];
    }
    if p.thinking.Some? {
      var t := ThinkingToJson(p.thinking.value);
      o := o[Thinking := t];
    }
    if p.reasoningEffort.Some? {
      o := o[ReasoningEffort := Str(p.reasoningEffort.value)];
    }
    if p.requestExtras.Some? && p.requestExtras.value != map[] {
      o := o[RequestExtras := Obj(p.requestExtras.value)];
    }
    if p.responseSchema.Some? {
      o := o[ResponseSchema := WrittenSchema(p.responseSchema.value)];
    }
    if p.structuredOutputMode.Some? {
      o := o[StructuredOutputMode := Str(p.structuredOutputMode.value)];
    }
  }

  /** Parent selection, overlaid by the child's options, with the model reference on top. */
  function SpawnObject(parent: Option<Json>, overlay: Option<Json>, modelRef: Option<string>): Object
  {
    var base, over := AsObject(parent), AsObject(overlay);
    var merged := MergeInvocations(Some(ParseObject(base)), Some(ParseObject(over)));
    var out := Stripped(base) + Stripped(over) + Written(merged);
    if modelRef.Some? && Trim(modelRef.value) != "" then out[Model := Str(modelRef.value)] else out
  }

  function SpawnSelection(parent: Option<Json>, overlay: Option<Json>, modelRef: Option<string>): Option<Json>
  {
    var out := SpawnObject(parent, overlay, modelRef);
    if out == map[] then None else Some(Obj(out))
  }

  method MergeSubagentSpawnModelSelection(parent: Option<Json>, overlay: Option<Json>, modelRef: Option<string>)
    returns (selection: Option<Json>)
    ensures selection == SpawnSelection(parent, overlay, modelRef)
  {
    hide Stripped, Written, MergeInvocations, ParseObject;
    var base, over := AsObject(parent), AsObject(overlay);
    var mergedInv := MergeInvocations(Some(ParseObject(base)), Some(ParseObject(over)));
    var restBase := StripInvocationKeys(base);
    var restOver := StripInvocationKeys(over);
    var invOut := ModelInvocationParamsToSessionJson(mergedInv);
    var out := restBase + restOver + invOut;
    if modelRef.Some? && Trim(modelRef.value) != "" {
      out := out[Model := Str(modelRef.value)];
    }
    selection := if out != map[] then Some(Obj(out)) else None;
  }

  // ----- Merging is associative -----

  /** The seven merged fields, an empty set of extras counting as none. */
  function Seven(p: Params): Params
  {
    p.(bare := false,
       requestExtras := if p.requestExtras == Some(map[]) then None else p.requestExtras,
       thinkingFormat := None, maxReasoningContentBytes := None)
  }

  lemma ExtrasAssociative(a: Option<Object>, b: Option<Object>, c: Option<Object>)
    ensures ShallowMergeExtras(ShallowMergeExtras(a, b), c) == ShallowMergeExtras(a, ShallowMergeExtras(b, c))
  {
    var x, y, z := if a.Some? then a.value else map[], if b.Some? then b.value else map[],
                   if c.Some? then c.value else map[];
    assert (x + y) + z == x + (y + z);
    assert map[] + y == y && x + map[] == x && map[] + z == z;
    if x + y == map[] {
      assert forall k :: k in x ==> k in x + y;
    }
    if y + z == map[] {
      assert forall k :: k in z ==> k in y + z;
    }
  }

  /** On the seven fields merging is what field-by-field overriding gives, also where it returns one side as it is. */
  lemma MergedOnSeven(base: Params, over: Params)
    ensures Seven(MergeInvocations(Some(base), Some(over))) == Seven(Merged(base, over))
  {
    assert forall o: Object :: o + map[] == o && map[] + o == o;
  }

  /** Main result: layers of parameters can be merged in any grouping, and the empty record is neutral. */
  lemma MergeIsAssociative(a: Params, b: Params, c: Params)
    ensures Seven(MergeInvocations(Some(MergeInvocations(Some(a), Some(b))), Some(c)))
         == Seven(MergeInvocations(Some(a), Some(MergeInvocations(Some(b), Some(c)))))
    ensures MergeInvocations(Some(EMPTY), Some(a)) == a == MergeInvocations(Some(a), Some(EMPTY))
  {
    hide MergeInvocations, Merged;
    var ab, bc := MergeInvocations(Some(a), Some(b)), MergeInvocations(Some(b), Some(c));
    MergedOnSeven(a, b);
    MergedOnSeven(b, c);
    MergedOnSeven(ab, c);
    MergedOnSeven(a, bc);
    MergedRespectsSeven(ab, Merged(a, b), c, c);
    MergedRespectsSeven(a, a, bc, Merged(b, c));
    MergedAssociative(a, b, c);
    EmptyIsNeutral(a);
  }

  lemma EmptyIsNeutral(a: Params)
    ensures MergeInvocations(Some(EMPTY), Some(a)) == a == MergeInvocations(Some(a), Some(EMPTY))
  {
  }

  lemma MergedRespectsSeven(a: Params, b: Params, c: Params, d: Params)
    requires Seven(a) == Seven(b) && Seven(c) == Seven(d)
    ensures Seven(Merged(a, c)) == Seven(Merged(b, d))
  {
  }

  lemma MergedAssociative(a: Params, b: Params, c: Params)
    ensures Merged(Merged(a, b), c) == Merged(a, Merged(b, c))
  {
    hide ShallowMergeExtras;
    ExtrasAssociative(a.requestExtras, b.requestExtras, c.requestExtras);
  }

  // ----- Parsing what was written -----

  /** What parsing produces and merging keeps: efforts trimmed, modes known, token counts whole. */
  ghost predicate Clean(p: Params)
  {
    p.thinkingFormat.None? && p.maxReasoningContentBytes.None? &&
    (p.maxOutputTokens.Some? ==> Whole(p.maxOutputTokens.value)) &&
    (p.thinking.Some? && p.thinking.value.budgetTokens.Some? ==> Whole(p.thinking.value.budgetTokens.value)) &&
    (p.reasoningEffort.Some? ==>
      p.reasoningEffort.value != "" && Trim(p.reasoningEffort.value) == p.reasoningEffort.value) &&
    (p.structuredOutputMode.Some? ==> IsMode(p.structuredOutputMode.value))
  }

  ghost predicate Whole(n: real)
  {
    n >= 0.0 && n.Floor as real == n
  }

  lemma ParsedIsClean(o: Object)
    ensures Clean(ParseObject(o))
  {
    hide Trim, IsMode;
    var effort := Get(o, ReasoningEffort);
    if effort.Some? && effort.value.Str? {
      TrimIdempotent(effort.value.s);
    }
  }

  lemma MergedIsClean(a: Params, b: Params)
    requires Clean(a) && Clean(b)
    ensures Clean(MergeInvocations(Some(a), Some(b)))
  {
    hide Trim, IsMode, ShallowMergeExtras;
  }

  /** A count of zero is written but not read back. */
  predicate ZeroCount(n: Option<real>)
  {
    n == Some(0.0)
  }

  function WithoutZero(n: Option<real>): Option<real>
  {
    if ZeroCount(n) then None else n
  }

  function Survivor(p: Params): Params
  {
    p.(bare := false, maxOutputTokens := WithoutZero(p.maxOutputTokens),
       thinking := if p.thinking.Some?
                   then Some(p.thinking.value.(budgetTokens := WithoutZero(p.thinking.value.budgetTokens))) else None,
       requestExtras := if p.requestExtras == Some(map[]) then None else p.requestExtras)
  }

  /** The properties a written record has. */
  lemma WrittenProperties(p: Params)
    ensures Get(Written(p), MaxOutputTokens) == Numeric(p.maxOutputTokens)
    ensures Get(Written(p), Temperature) == Numeric(p.temperature)
    ensures Get(Written(p), Thinking) == if p.thinking.Some? then Some(WrittenThinking(p.thinking.value)) else None
    ensures Get(Written(p), ReasoningEffort) == Textual(p.reasoningEffort)
    ensures Get(Written(p), RequestExtras) == WrittenExtras(p.requestExtras)
    ensures Get(Written(p), ResponseSchema)
         == if p.responseSchema.Some? then Some(WrittenSchema(p.responseSchema.value)) else None
    ensures Get(Written(p), StructuredOutputMode) == Textual(p.structuredOutputMode)
    ensures forall k :: k in Written(p) ==> InvocationKey(k) && k != ExtraBody
  {
    hide Numeric, Textual, WrittenThinking, WrittenSchema, WrittenExtras;
  }

  lemma ThinkingReadBack(t: ThinkingOptions)
    requires t.budgetTokens.Some? ==> Whole(t.budgetTokens.value)
    ensures ReadThinking(Some(WrittenThinking(t))) == Some(t.(budgetTokens := WithoutZero(t.budgetTokens)))
  {
  }

  /** Each written property is read back as it was, but for zero counts and empty extras. */
  lemma FieldsReadBack(p: Params)
    requires Clean(p)
    ensures ReadCount(Numeric(p.maxOutputTokens)) == WithoutZero(p.maxOutputTokens)
    ensures ReadTemperature(Numeric(p.temperature)) == p.temperature
    ensures ReadEffort(Textual(p.reasoningEffort)) == p.reasoningEffort
    ensures ReadExtras(WrittenExtras(p.requestExtras), None)
         == if p.requestExtras == Some(map[]) then None else p.requestExtras
    ensures ReadMode(Textual(p.structuredOutputMode)) == p.structuredOutputMode
  {
    hide Trim, IsMode;
  }

  /** Reading back loses exactly the zero counts and an empty set of extras. */
  lemma ParseAfterWrite(p: Params, o: Object)
    requires Clean(p)
    requires forall k :: InvocationKey(k) ==> Get(o, k) == Get(Written(p), k)
    ensures Seven(ParseObject(o)) == Survivor(p)
  {
    hide Written, ReadThinking, WrittenThinking, ReadCount, ReadTemperature, ReadEffort, ReadExtras, ReadMode,
      ReadSchema, WrittenSchema, WrittenExtras, Numeric, Textual, Get;
    WrittenProperties(p);
    assert Get(o, ExtraBody) == None by { NoExtraBody(p); }
    FieldsReadBack(p);
    SchemaReadBack(p.responseSchema);
    NothingToThinkAbout();
    if p.thinking.Some? {
      ThinkingReadBack(p.thinking.value);
    }
  }

  lemma NoExtraBody(p: Params)
    ensures Get(Written(p), ExtraBody) == None
  {
    WrittenProperties(p);
  }

  lemma NothingToThinkAbout()
    ensures ReadThinking(None) == None
  {
  }

  lemma SchemaReadBack(s: Option<SchemaOption>)
    ensures ReadSchema(if s.Some? then Some(WrittenSchema(s.value)) else None) == s
  {
  }

  /** Looking a property up in three layers and the model reference on top. */
  lemma Layered(base: Object, over: Object, top: Object, model: Option<string>, k: Key)
    requires forall j :: j in top ==> InvocationKey(j)
    ensures
      var layers := Stripped(base) + Stripped(over) + top;
      var out := if model.Some? then layers[Model := Str(model.value)] else layers;
      Get(out, k) ==
        if InvocationKey(k) then Get(top, k)
        else if k == Model && model.Some? then Some(Str(model.value))
        else Or(Get(over, k), Get(base, k))
  {
    if InvocationKey(k) {
      assert k !in Stripped(base) && k !in Stripped(over) && k != Model;
    } else {
      assert k !in top;
      assert Get(Stripped(base), k) == Get(base, k) && Get(Stripped(over), k) == Get(over, k);
    }
  }

  function GivenModel(modelRef: Option<string>): Option<string>
  {
    if modelRef.Some? && Trim(modelRef.value) != "" then modelRef else None
  }

  /** Invocation properties are those of the merged record; all others come from the overlay, else from the parent. */
  lemma SpawnProperties(parent: Option<Json>, overlay: Option<Json>, modelRef: Option<string>)
    ensures
      var merged := MergeInvocations(Some(ParseObject(AsObject(parent))), Some(ParseObject(AsObject(overlay))));
      var out := SpawnObject(parent, overlay, modelRef);
      forall k :: Get(out, k) ==
        if InvocationKey(k) then Get(Written(merged), k)
        else if k == Model && GivenModel(modelRef).Some? then Some(Str(GivenModel(modelRef).value))
        else Or(Get(AsObject(overlay), k), Get(AsObject(parent), k))
  {
    hide Written, MergeInvocations, ParseObject, Trim, Stripped, InvocationKey, Get;
    var base, over := AsObject(parent), AsObject(overlay);
    var merged := MergeInvocations(Some(ParseObject(base)), Some(ParseObject(over)));
    var out := SpawnObject(parent, overlay, modelRef);
    WrittenProperties(merged);
    forall k ensures Get(out, k) ==
        if InvocationKey(k) then Get(Written(merged), k)
        else if k == Model && GivenModel(modelRef).Some? then Some(Str(GivenModel(modelRef).value))
        else Or(Get(over, k), Get(base, k))
    {
      Layered(base, over, Written(merged), GivenModel(modelRef), k);
    }
  }

  // ----- When a token count is lost -----

  /** The count that wins is positive but below one: it is truncated to zero, written, and not read again. */
  predicate LosesCount(base: Option<Json>, over: Option<Json>)
  {
    if IsCount(over) then over.value.n < 1.0 else IsCount(base) && base.value.n < 1.0
  }

  function BudgetOf(thinking: Option<Json>): Option<Json>
  {
    if thinking.Some? && thinking.value.Obj? then Get(thinking.value.o, BudgetTokens) else None
  }

  /** The thinking options that win carry a budget below one. */
  predicate LosesBudget(base: Option<Json>, over: Option<Json>)
  {
    if ReadThinking(over).Some? then LosesCount(BudgetOf(over), None)
    else ReadThinking(base).Some? && LosesCount(BudgetOf(base), None)
  }

  predicate LosesTokens(parent: Option<Json>, overlay: Option<Json>)
  {
    var base, over := AsObject(parent), AsObject(overlay);
    LosesCount(Get(base, MaxOutputTokens), Get(over, MaxOutputTokens)) ||
    LosesBudget(Get(base, Thinking), Get(over, Thinking))
  }

  lemma ZeroCountIff(j: Option<Json>)
    ensures ZeroCount(ReadCount(j)) <==> LosesCount(j, None)
  {
  }

  lemma MergedTokens(b: Params, o: Params)
    ensures
      var merged := MergeInvocations(Some(b), Some(o));
      merged.maxOutputTokens == Or(o.maxOutputTokens, b.maxOutputTokens) &&
      merged.thinking == Or(o.thinking, b.thinking)
  {
    hide ShallowMergeExtras;
  }

  predicate HoldsZero(tokens: Option<real>, thinking: Option<ThinkingOptions>)
  {
    ZeroCount(tokens) || (thinking.Some? && ZeroCount(thinking.value.budgetTokens))
  }

  lemma SurvivorIff(p: Params)
    requires p.thinkingFormat.None? && p.maxReasoningContentBytes.None?
    ensures Survivor(p) == Seven(p) <==> !HoldsZero(p.maxOutputTokens, p.thinking)
  {
  }

  lemma ParsedTokens(o: Object)
    ensures ParseObject(o).maxOutputTokens == ReadCount(Get(o, MaxOutputTokens))
    ensures ParseObject(o).thinking == ReadThinking(Get(o, Thinking))
    ensures ParseObject(o).thinking.Some? ==>
      ParseObject(o).thinking.value.budgetTokens == ReadCount(BudgetOf(Get(o, Thinking)))
  {
    hide ReadEffort, ReadExtras, ReadMode, ReadSchema, ReadCount, ReadTemperature;
  }

  lemma SurvivesIff(base: Object, over: Object)
    ensures
      var merged := MergeInvocations(Some(ParseObject(base)), Some(ParseObject(over)));
      Survivor(merged) == Seven(merged) <==> !LosesTokens(Some(Obj(base)), Some(Obj(over)))
  {
    hide ParseObject, MergeInvocations, Survivor, Seven, ReadThinking, BudgetOf;
    var b, o := ParseObject(base), ParseObject(over);
    ParsedIsClean(base);
    ParsedIsClean(over);
    MergedIsClean(b, o);
    MergedTokens(b, o);
    SurvivorIff(MergeInvocations(Some(b), Some(o)));
    ParsedTokens(base);
    ParsedTokens(over);
    ZeroCountIff(Get(base, MaxOutputTokens));
    ZeroCountIff(Get(over, MaxOutputTokens));
    ZeroCountIff(BudgetOf(Get(base, Thinking)));
    ZeroCountIff(BudgetOf(Get(over, Thinking)));
  }

  /**
    Main result: parsing the selection written for a spawned agent gives the merge of the two parsed selections
    (an empty set of extras counting as none) exactly when the winning token counts are not below one.
   */
  lemma SpawnCommutesWithMergeIff(parent: Option<Json>, overlay: Option<Json>, modelRef: Option<string>)
    ensures
      Seven(ParseModelInvocationFromUnknown(SpawnSelection(parent, overlay, modelRef)))
      == Seven(MergeInvocations(Some(ParseModelInvocationFromUnknown(parent)),
                                Some(ParseModelInvocationFromUnknown(overlay))))
      <==> !LosesTokens(parent, overlay)
  {
    hide ParseObject, MergeInvocations, Written, SpawnObject, LosesBudget, LosesCount, Survivor, Seven, Clean;
    var base, over := AsObject(parent), AsObject(overlay);
    var merged := MergeInvocations(Some(ParseObject(base)), Some(ParseObject(over)));
    ParsedIsClean(base);
    ParsedIsClean(over);
    MergedIsClean(ParseObject(base), ParseObject(over));
    SpawnProperties(parent, overlay, modelRef);
    assert AsObject(SpawnSelection(parent, overlay, modelRef)) == SpawnObject(parent, overlay, modelRef);
    ParseAfterWrite(merged, SpawnObject(parent, overlay, modelRef));
    SurvivesIff(base, over);
  }

  /** Half a token: the parent's own parse has a limit of zero, the spawned agent's selection has none. */
  lemma HalfATokenIsLost()
    ensures
      var parent := Some(Obj(map[MaxOutputTokens := Num(0.5)]));
      ParseModelInvocationFromUnknown(parent).maxOutputTokens == Some(0.0) &&
      ParseModelInvocationFromUnknown(SpawnSelection(parent, None, None)).maxOutputTokens == None
  {
    hide Written;
    var parent := Some(Obj(map[MaxOutputTokens := Num(0.5)]));
    var merged := MergeInvocations(Some(ParseObject(AsObject(parent))), Some(ParseObject(map[])));
    SpawnProperties(parent, None, None);
    WrittenProperties(merged);
    assert Get(SpawnObject(parent, None, None), MaxOutputTokens) == Some(Num(0.0));
  }
}
