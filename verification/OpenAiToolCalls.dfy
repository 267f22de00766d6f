/** Tool calls of an OpenAI-compatible stream: fragments arrive by index and are put together at the end. */
module OpenAiToolCalls {
  import opened Prelude
  import opened Ordering
  import opened ChatMessages
  import ThinkingDocuments

  datatype Partial = Partial(id: string, name: string, arguments: string)

  /** One element of a `tool_calls` array; a field of another type than expected counts as absent. */
  datatype Delta = Delta(index: Option<int>, id: Option<string>, name: Option<string>, arguments: Option<string>)

  /** The value of `tool_calls`: no array, or an array whose elements may fail to be objects. */
  datatype Deltas = NotAnArray | Items(items: seq<Option<Delta>>)

  type Partials = map<int, Partial>

  const FRESH := Partial("", "", "")

  function IndexOf(d: Delta): int
  {
    if d.index.Some? then d.index.value else 0
  }

  function Current(partials: Partials, index: int): Partial
  {
    if index in partials then partials[index] else FRESH
  }

  function Extended(cur: Partial, d: Delta): Partial
  {
    Partial(if OrEmpty(d.id) != "" then d.id.value else cur.id,
            if OrEmpty(d.name) != "" then d.name.value else cur.name,
            cur.arguments + OrEmpty(d.arguments))
  }

  function Apply(partials: Partials, items: seq<Option<Delta>>): Partials
    decreases |items|
  {
    if items == [] then partials
    else
      match items[0]
      case None => Apply(partials, items[1..])
      case Some(d) => Apply(partials[IndexOf(d) := Extended(Current(partials, IndexOf(d)), d)], items[1..])
  }

  function FinalCall(t: Partial, xmlTags: bool): seq<ToolCall>
  {
    if t.id == "" || t.name == "" then []
    else
      var arguments := if t.arguments == "" then "{}" else t.arguments;
      [ToolCall(t.id, t.name,
                if xmlTags then ThinkingDocuments.StripXmlThinkingTags(arguments) else arguments, None)]
  }

  function FinalCalls(partials: Partials, keys: seq<int>, xmlTags: bool): seq<ToolCall>
    requires forall i :: 0 <= i < |keys| ==> keys[i] in partials
  {
    if keys == [] then []
    else FinalCalls(partials, keys[..|keys| - 1], xmlTags) + FinalCall(partials[keys[|keys| - 1]], xmlTags)
  }

  class ToolCallCollector {
    var partials: Partials

    constructor ()
      ensures partials == map[]
    {
      partials := map[];
    }

    method ApplyToolCallDeltas(deltas: Deltas)
      modifies this
      ensures partials == if deltas.Items? then Apply(old(partials), deltas.items) else old(partials)
    {
      if deltas.NotAnArray? {
        return;
      }
      var items := deltas.items;
      for i := 0 to |items|
        invariant Apply(partials, items[i..]) == Apply(old(partials), items)
      {
        assert items[i..][1..] == items[i + 1..];
        if items[i].None? {
          continue;
        }
        var o := items[i].value;
        var idx := if o.index.Some? then o.index.value else 0;
        var cur := if idx in partials then partials[idx] else FRESH;
        if o.id.Some? && |o.id.value| > 0 {
          cur := cur.(id := o.id.value);
        }
        if o.name.Some? && |o.name.value| > 0 {
          cur := cur.(name := o.name.value);
        }
        cur := cur.(arguments := cur.arguments + OrEmpty(o.arguments));
        partials := partials[idx := cur];
      }
    }

    method FinalizeToolCalls(xmlTags: bool) returns (out: seq<ToolCall>)
      ensures out == FinalCalls(partials, Sorted(partials.Keys), xmlTags)
    {
      hide ThinkingDocuments.StripXmlThinkingTags, FinalCalls, Sorted;
      NoCallsYet(partials, xmlTags);
      var keys := Sorted(partials.Keys);
      out := [];
      for i := 0 to |keys|
        invariant out == FinalCalls(partials, keys[..i], xmlTags)
      {
        OneMoreCall(partials, keys, i, xmlTags);
        var t := partials[keys[i]];
        if t.id != "" && t.name != "" {
          var arguments := if t.arguments == "" then "{}" else t.arguments;
          var stripped := if xmlTags then ThinkingDocuments.StripXmlThinkingTags(arguments) else arguments;
          out := out + [ToolCall(t.id, t.name, stripped, None)];
        }
      }
      assert keys[..|keys|] == keys;
    }
  }

  lemma NoCallsYet(partials: Partials, xmlTags: bool)
    ensures FinalCalls(partials, [], xmlTags) == []
  {
  }

  lemma OneMoreCall(partials: Partials, keys: seq<int>, i: nat, xmlTags: bool)
    requires i < |keys| && forall j :: 0 <= j < |keys| ==> keys[j] in partials
    ensures FinalCalls(partials, keys[..i + 1], xmlTags)
         == FinalCalls(partials, keys[..i], xmlTags) + FinalCall(partials[keys[i]], xmlTags)
  {
    hide FinalCall;
    TakeOneMore(keys, i);
  }

  // ----- What the fragments of one index amount to -----

  function OwnDeltas(index: int, items: seq<Option<Delta>>): seq<Delta>
  {
    if items == [] then [] else Own(index, items[0]) + OwnDeltas(index, items[1..])
  }

  function Own(index: int, item: Option<Delta>): seq<Delta>
  {
    if item.Some? && IndexOf(item.value) == index then [item.value] else []
  }

  function LastNonEmpty(values: seq<Option<string>>): string
  {
    if values == [] then ""
    else if OrEmpty(values[|values| - 1]) != "" then values[|values| - 1].value
    else LastNonEmpty(values[..|values| - 1])
  }

  function Ids(ds: seq<Delta>): seq<Option<string>>
  {
    seq(|ds|, i requires 0 <= i < |ds| => ds[i].id)
  }

  function Names(ds: seq<Delta>): seq<Option<string>>
  {
    seq(|ds|, i requires 0 <= i < |ds| => ds[i].name)
  }

  function Fragments(ds: seq<Delta>): seq<string>
  {
    seq(|ds|, i requires 0 <= i < |ds| => OrEmpty(ds[i].arguments))
  }

  /** The call an index stands for: its last id and name, and all its argument fragments in order. */
  function Meaning(ds: seq<Delta>): Partial
  {
    Partial(LastNonEmpty(Ids(ds)), LastNonEmpty(Names(ds)), Flatten(Fragments(ds)))
  }

  lemma MeaningSnoc(ds: seq<Delta>, d: Delta)
    ensures Meaning(ds + [d]) == Extended(Meaning(ds), d)
  {
    var more := ds + [d];
    assert Ids(more) == Ids(ds) + [d.id] && Ids(more)[..|more| - 1] == Ids(ds);
    assert Names(more) == Names(ds) + [d.name] && Names(more)[..|more| - 1] == Names(ds);
    assert Fragments(more) == Fragments(ds) + [OrEmpty(d.arguments)];
    FlattenSnoc(Fragments(ds), OrEmpty(d.arguments));
  }

  lemma {:induction false} OwnAppend(index: int, a: seq<Option<Delta>>, b: seq<Option<Delta>>)
    ensures OwnDeltas(index, a + b) == OwnDeltas(index, a) + OwnDeltas(index, b)
    decreases |a|
  {
    hide Own;
    if a == [] {
      assert a + b == b;
    } else {
      OwnAppend(index, a[1..], b);
      AppendSlices(a, b, 1);
    }
  }

  /** Batches of deltas add up: how a stream groups them into events does not matter. */
  lemma {:induction false} ApplyAppend(partials: Partials, a: seq<Option<Delta>>, b: seq<Option<Delta>>)
    ensures Apply(partials, a + b) == Apply(Apply(partials, a), b)
    decreases |a|
  {
    hide Extended;
    if a == [] {
      assert a + b == b;
    } else {
      assert (a + b)[1..] == a[1..] + b;
      if a[0].None? {
        ApplyAppend(partials, a[1..], b);
      } else {
        var d := a[0].value;
        ApplyAppend(partials[IndexOf(d) := Extended(Current(partials, IndexOf(d)), d)], a[1..], b);
      }
    }
  }

  /** Main result: after any deltas the map holds, for the indices that occurred, exactly what their fragments mean. */
  lemma {:induction false} CollectedByIndex(items: seq<Option<Delta>>)
    ensures forall k :: k in Apply(map[], items) <==> OwnDeltas(k, items) != []
    ensures forall k :: k in Apply(map[], items) ==> Apply(map[], items)[k] == Meaning(OwnDeltas(k, items))
    decreases |items|
  {
    hide Extended, Meaning;
    if items != [] {
      var n := |items| - 1;
      var front, last := items[..n], items[n];
      assert items == front + [last];
      CollectedByIndex(front);
      ApplyAppend(map[], front, [last]);
      assert [last][1..] == [];
      forall k ensures OwnDeltas(k, items) ==
        OwnDeltas(k, front) + if last.Some? && IndexOf(last.value) == k then [last.value] else []
      {
        OwnAppend(k, front, [last]);
      }
      if last.Some? {
        var k := IndexOf(last.value);
        MeaningOfNothing();
        var before := Apply(map[], front);
        assert Apply(before, [last]) == before[k := Extended(Current(before, k), last.value)];
        assert Current(before, k) == Meaning(OwnDeltas(k, front));
        MeaningSnoc(OwnDeltas(k, front), last.value);
        var after := Apply(map[], items);
        forall j | j in after ensures after[j] == Meaning(OwnDeltas(j, items)) {
          if j != k {
            assert j in before && OwnDeltas(j, items) == OwnDeltas(j, front);
          } else {
            assert OwnDeltas(k, items) == OwnDeltas(k, front) + [last.value];
          }
        }
      } else {
        assert Apply(map[], items) == Apply(map[], front);
        assert forall k :: OwnDeltas(k, items) == OwnDeltas(k, front);
      }
    }
  }

  lemma MeaningOfNothing()
    ensures Meaning([]) == FRESH
  {
  }

  function Collected(items: seq<Option<Delta>>, xmlTags: bool): seq<ToolCall>
  {
    var partials := Apply(map[], items);
    FinalCalls(partials, Sorted(partials.Keys), xmlTags)
  }

  /** Only the order within an index matters: any interleaving of the same fragments gives the same calls. */
  lemma InterleavingDoesNotMatter(a: seq<Option<Delta>>, b: seq<Option<Delta>>, xmlTags: bool)
    requires forall k :: OwnDeltas(k, a) == OwnDeltas(k, b)
    ensures Collected(a, xmlTags) == Collected(b, xmlTags)
  {
    hide Apply, FinalCalls, Meaning, OwnDeltas;
    CollectedByIndex(a);
    CollectedByIndex(b);
    var p, q := Apply(map[], a), Apply(map[], b);
    assert forall k :: k in p <==> k in q;
    assert forall k :: k in p ==> p[k] == q[k];
    assert p == q;
  }

  /** Adjacent fragments of different calls can be exchanged. */
  lemma AdjacentSwap(before: seq<Option<Delta>>, d: Delta, e: Delta, after: seq<Option<Delta>>, xmlTags: bool)
    requires IndexOf(d) != IndexOf(e)
    ensures Collected(before + [Some(d), Some(e)] + after, xmlTags)
         == Collected(before + [Some(e), Some(d)] + after, xmlTags)
  {
    hide Collected;
    var x, y := before + [Some(d), Some(e)] + after, before + [Some(e), Some(d)] + after;
    forall k ensures OwnDeltas(k, x) == OwnDeltas(k, y) {
      OwnAppend(k, before + [Some(d), Some(e)], after);
      OwnAppend(k, before, [Some(d), Some(e)]);
      OwnAppend(k, before + [Some(e), Some(d)], after);
      OwnAppend(k, before, [Some(e), Some(d)]);
      OwnPair(k, d, e);
    }
    InterleavingDoesNotMatter(x, y, xmlTags);
  }

  lemma OwnPair(k: int, d: Delta, e: Delta)
    requires IndexOf(d) != IndexOf(e)
    ensures OwnDeltas(k, [Some(d), Some(e)]) == OwnDeltas(k, [Some(e), Some(d)])
  {
    assert [Some(d), Some(e)][1..] == [Some(e)] && [Some(e), Some(d)][1..] == [Some(d)];
    assert [Some(d)][1..] == [] && [Some(e)][1..] == [];
  }

  // ----- Calls sent in fragments arrive -----

  /** Calls by ascending index, each with an id, a name and arguments. */
  ghost predicate Sendable(calls: map<int, ToolCall>)
  {
    forall k :: k in calls ==>
      calls[k].id != "" && calls[k].name != "" && calls[k].arguments != "" && calls[k].thoughtSignature.None?
  }

  /** A stream that sends these calls: the fragments of each index, and of no other, spell its call. */
  ghost predicate Sends(items: seq<Option<Delta>>, calls: map<int, ToolCall>)
  {
    forall k ::
      (OwnDeltas(k, items) != [] <==> k in calls) &&
      (k in calls ==> Meaning(OwnDeltas(k, items)) == Partial(calls[k].id, calls[k].name, calls[k].arguments))
  }

  function InOrder(calls: map<int, ToolCall>, keys: seq<int>): seq<ToolCall>
    requires forall i :: 0 <= i < |keys| ==> keys[i] in calls
  {
    seq(|keys|, i requires 0 <= i < |keys| => calls[keys[i]])
  }

  /** Main result: whatever the fragmentation and interleaving, the calls come out whole and in index order. */
  lemma SentCallsArrive(items: seq<Option<Delta>>, calls: map<int, ToolCall>)
    requires Sendable(calls) && Sends(items, calls)
    ensures Collected(items, false) == InOrder(calls, Sorted(calls.Keys))
  {
    hide Apply, Meaning, OwnDeltas;
    CollectedByIndex(items);
    var partials := Apply(map[], items);
    assert forall k :: k in partials <==> k in calls;
    assert partials.Keys == calls.Keys;
    FinalCallsAre(partials, calls, Sorted(calls.Keys));
  }

  lemma {:induction false} FinalCallsAre(partials: Partials, calls: map<int, ToolCall>, keys: seq<int>)
    requires Sendable(calls)
    requires forall i :: 0 <= i < |keys| ==>
      var k := keys[i];
      k in partials && k in calls && partials[k] == Partial(calls[k].id, calls[k].name, calls[k].arguments)
    ensures FinalCalls(partials, keys, false) == InOrder(calls, keys)
    decreases |keys|
  {
    if keys != [] {
      var n := |keys| - 1;
      FinalCallsAre(partials, calls, keys[..n]);
      assert InOrder(calls, keys) == InOrder(calls, keys[..n]) + [calls[keys[n]]];
    }
  }

  /**
    Fragments of one call: it comes out iff id and name were sent, the newest of each, with all arguments in order, an
    empty object standing for none; with thinking tags these are stripped from the arguments.
   */
  lemma OneCallCollected(items: seq<Option<Delta>>, k: int, xmlTags: bool)
    requires forall j :: j != k ==> OwnDeltas(j, items) == []
    requires OwnDeltas(k, items) != []
    ensures
      var ds, calls := OwnDeltas(k, items), Collected(items, xmlTags);
      var id, name, whole := LastNonEmpty(Ids(ds)), LastNonEmpty(Names(ds)), Flatten(Fragments(ds));
      var arguments := if whole == "" then "{}" else whole;
      if id == "" || name == "" then calls == []
      else
        calls == [ToolCall(id, name,
                           if xmlTags then ThinkingDocuments.StripXmlThinkingTags(arguments) else arguments, None)]
  {
    hide Apply, OwnDeltas, LastNonEmpty, Ids, Names, Fragments, Sorted, ThinkingDocuments.StripXmlThinkingTags;
    CollectedByIndex(items);
    var partials := Apply(map[], items);
    forall j ensures j in partials <==> j == k {
    }
    assert partials.Keys == {k};
    OneKeySorted(k);
    NoCallsYet(partials, xmlTags);
    OneMoreCall(partials, [k], 0, xmlTags);
    assert [k][..1] == [k] && [k][..0] == [];
    var last := FinalCall(partials[k], xmlTags);
    assert [] + last == last;
  }

  lemma OneKeySorted(k: int)
    ensures Sorted({k}) == [k]
  {
    assert Min({k}) == k && {k} - {k} == {};
    assert Sorted({}) == [];
  }

  /** A fragment without an index is one of index zero. */
  function Indexed(items: seq<Option<Delta>>): seq<Option<Delta>>
  {
    if items == [] then []
    else
      [if items[0].Some? && items[0].value.index.None? then Some(items[0].value.(index := Some(0))) else items[0]] +
      Indexed(items[1..])
  }

  lemma {:induction false} MissingIndexIsZero(partials: Partials, items: seq<Option<Delta>>)
    ensures Apply(partials, items) == Apply(partials, Indexed(items))
    decreases |items|
  {
    if items != [] {
      var rest := Indexed(items[1..]);
      assert Indexed(items)[1..] == rest;
      match items[0]
      case None => MissingIndexIsZero(partials, items[1..]);
      case Some(d) =>
        MissingIndexIsZero(partials[IndexOf(d) := Extended(Current(partials, IndexOf(d)), d)], items[1..]);
    }
  }

  // ----- Reasoning text is cut to a limit -----

  /** Append, then keep at most `max` characters: what the stream does with every reasoning fragment. */
  function Capped(buffer: string, fragments: seq<string>, max: nat): string
    decreases |fragments|
  {
    if fragments == [] then buffer
    else
      var grown := buffer + fragments[0];
      Capped(if |grown| > max then grown[..max] else grown, fragments[1..], max)
  }

  /** Cutting after every fragment keeps what cutting the whole text once would keep. */
  lemma {:induction false} CappedIsPrefix(buffer: string, fragments: seq<string>, max: nat)
    requires |buffer| <= max
    ensures
      var whole := buffer + Flatten(fragments);
      Capped(buffer, fragments, max) == if |whole| > max then whole[..max] else whole
    decreases |fragments|
  {
    if fragments != [] {
      var grown := buffer + fragments[0];
      var kept := if |grown| > max then grown[..max] else grown;
      CappedIsPrefix(kept, fragments[1..], max);
      assert buffer + Flatten(fragments) == grown + Flatten(fragments[1..]);
    }
  }
}
