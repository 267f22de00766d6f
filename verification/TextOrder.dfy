/** Text blocks that share one thinking normalizer: in which orders of arrival their text reads as the whole does. */
module TextOrder {
  import opened Prelude
  import opened Ordering
  import opened ThinkingNormalizer
  import opened ThinkingTokens
  import opened ThinkingDocuments

  /** A text block starts, or gets more text. */
  datatype Piece = Begin(k: int) | Say(k: int, text: string)

  type Texts = map<int, string>

  function Get(t: Texts, k: int): string
  {
    if k in t then t[k] else ""
  }

  function Put(t: Texts, p: Piece): Texts
  {
    t[p.k := if p.Begin? then "" else Get(t, p.k) + p.text]
  }

  /** The text of each block after the first `m` pieces. */
  function Written(ps: seq<Piece>, m: nat): Texts
    requires m <= |ps|
  {
    if m == 0 then map[] else Put(Written(ps, m - 1), ps[m - 1])
  }

  function JoinKeys(t: Texts, keys: seq<int>): string
  {
    if keys == [] then "" else Get(t, keys[0]) + JoinKeys(t, keys[1..])
  }

  /** All text in the order of the blocks. */
  function Joined(t: Texts): string
  {
    JoinKeys(t, Sorted(t.Keys))
  }

  // ----- One normalizer for all blocks -----

  /** What the blocks hold, the normalizer, and the block that was created last. */
  datatype Shared = Shared(texts: Texts, norm: Norm, last: Option<int>)

  function Hear(s: Shared, p: Piece): Shared
  {
    var last := if p.k in s.texts then s.last else Some(p.k);
    match p
    case Begin(k) => Shared(Put(s.texts, p), s.norm, last)
    case Say(k, text) =>
      var (norm, out) := Run(s.norm, text);
      Shared(Put(s.texts, Say(k, out.text)), norm, last)
  }

  function Heard(ps: seq<Piece>, m: nat): Shared
    requires m <= |ps|
  {
    if m == 0 then Shared(map[], START, None) else Hear(Heard(ps, m - 1), ps[m - 1])
  }

  /** At the end the block created last gets what the normalizer holds back. */
  function Released(s: Shared): Texts
  {
    if s.norm.buffer == "" || s.last.None? then s.texts else Put(s.texts, Say(s.last.value, s.norm.buffer))
  }

  predicate ReadsWhole(ps: seq<Piece>)
  {
    Joined(Released(Heard(ps, |ps|))) == StreamText(Joined(Written(ps, |ps|)), false)
  }

  // ----- The order of arrival -----

  /** The block created last among the first `m` pieces. */
  function LastNew(ps: seq<Piece>, m: nat): Option<int>
    requires m <= |ps|
  {
    if m == 0 then None
    else if exists q :: 0 <= q < m - 1 && ps[q].k == ps[m - 1].k then LastNew(ps, m - 1)
    else Some(ps[m - 1].k)
  }

  /** Some text is followed by text of a block with a smaller index. */
  predicate Descends(ps: seq<Piece>)
  {
    exists p, q :: 0 <= p < q < |ps| && ps[p].Say? && ps[q].Say? && ps[q].k < ps[p].k
  }

  /** The text of piece `p` is dropped because its block starts again. */
  predicate Dropped(ps: seq<Piece>, p: nat)
    requires p < |ps|
  {
    exists q :: p < q < |ps| && ps[q] == Begin(ps[p].k)
  }

  predicate Restarts(ps: seq<Piece>)
  {
    exists p :: 0 <= p < |ps| && ps[p].Say? && Dropped(ps, p)
  }

  /** The block created last, where held back text goes, lies below one that has text. */
  predicate EndsBelow(ps: seq<Piece>)
  {
    exists p :: 0 <= p < |ps| && ps[p].Say? && (LastNew(ps, |ps|).None? || LastNew(ps, |ps|).value < ps[p].k)
  }

  /** Text comes in the order of the blocks, no block starts again after text, and the last block created is on top. */
  predicate Orderly(ps: seq<Piece>)
  {
    !Descends(ps) && !Restarts(ps) && !EndsBelow(ps)
  }

  // ----- Joining in index order -----

  lemma {:induction false} AscendingIsUnique(a: seq<int>, b: seq<int>)
    requires Ascending(a) && Ascending(b) && forall k :: k in a <==> k in b
    ensures a == b
    decreases |a|
  {
    assert a != [] ==> a[0] in a;
    assert b != [] ==> b[0] in b;
    if a != [] {
      assert a[0] in b && b[0] in a;
      assert a[0] == b[0];
      var x, y := a[1..], b[1..];
      AscendingTail(a);
      AscendingTail(b);
      forall k ensures k in x <==> k in y {
        assert k in a <==> k == a[0] || k in x;
        assert k in b <==> k == b[0] || k in y;
      }
      AscendingIsUnique(x, y);
      HeadAndTail(a);
      HeadAndTail(b);
    }
  }

  lemma AscendingTail(a: seq<int>)
    requires Ascending(a) && a != []
    ensures Ascending(a[1..]) && a[0] !in a[1..]
  {
    assert forall i :: 0 <= i < |a| - 1 ==> a[1..][i] == a[i + 1];
  }

  function Below(s: set<int>, i: int): set<int>
  {
    set k | k in s && k < i
  }

  function Above(s: set<int>, i: int): set<int>
  {
    set k | k in s && i < k
  }

  lemma SortedAround(s: set<int>, i: int)
    ensures Sorted(s) == Sorted(Below(s, i)) + ((if i in s then [i] else []) + Sorted(Above(s, i)))
  {
    hide Sorted;
    var low, mid, high := Sorted(Below(s, i)), if i in s then [i] else [], Sorted(Above(s, i));
    forall x | 0 <= x < |low| ensures low[x] < i {
      assert low[x] in low;
    }
    forall x | 0 <= x < |high| ensures i < high[x] {
      assert high[x] in high;
    }
    AscendingPieces(low, mid, high, i);
    forall k ensures k in low + (mid + high) <==> k in low || k in mid || k in high {
    }
    AscendingIsUnique(Sorted(s), low + (mid + high));
  }

  lemma AscendingPieces(low: seq<int>, mid: seq<int>, high: seq<int>, i: int)
    requires Ascending(low) && Ascending(high) && (mid == [] || mid == [i])
    requires forall x :: 0 <= x < |low| ==> low[x] < i
    requires forall x :: 0 <= x < |high| ==> i < high[x]
    ensures Ascending(low + (mid + high))
  {
  }

  lemma {:induction false} JoinKeysAppend(t: Texts, a: seq<int>, b: seq<int>)
    ensures JoinKeys(t, a + b) == JoinKeys(t, a) + JoinKeys(t, b)
    decreases |a|
  {
    if a == [] {
      assert a + b == b;
    } else {
      AppendSlices(a, b, 1);
      JoinKeysAppend(t, a[1..], b);
    }
  }

  lemma {:induction false} JoinKeysAgree(t: Texts, u: Texts, keys: seq<int>)
    requires forall k :: k in keys ==> Get(t, k) == Get(u, k)
    ensures JoinKeys(t, keys) == JoinKeys(u, keys)
    decreases |keys|
  {
    if keys != [] {
      JoinKeysAgree(t, u, keys[1..]);
    }
  }

  function Before(t: Texts, i: int): string
  {
    JoinKeys(t, Sorted(Below(t.Keys, i)))
  }

  function Behind(t: Texts, i: int): string
  {
    JoinKeys(t, Sorted(Above(t.Keys, i)))
  }

  lemma JoinedAround(t: Texts, i: int)
    ensures Joined(t) == Before(t, i) + (Get(t, i) + Behind(t, i))
  {
    hide Sorted;
    var low, mid, high := Sorted(Below(t.Keys, i)), if i in t then [i] else [], Sorted(Above(t.Keys, i));
    SortedAround(t.Keys, i);
    JoinKeysAppend(t, low, mid + high);
    JoinKeysAppend(t, mid, high);
    assert i in t ==> [i][1..] == [];
    assert Get(t, i) + "" == Get(t, i);
  }

  /** Changing one block leaves what is before and behind it. */
  lemma PutElsewhere(t: Texts, u: Texts, i: int)
    requires forall k :: k != i ==> (k in t <==> k in u) && Get(t, k) == Get(u, k)
    ensures Before(t, i) == Before(u, i) && Behind(t, i) == Behind(u, i)
  {
    hide Sorted;
    assert Below(t.Keys, i) == Below(u.Keys, i);
    assert Above(t.Keys, i) == Above(u.Keys, i);
    JoinKeysAgree(t, u, Sorted(Below(t.Keys, i)));
    JoinKeysAgree(t, u, Sorted(Above(t.Keys, i)));
  }

  lemma PutJoined(t: Texts, p: Piece)
    ensures Joined(Put(t, p)) == Before(t, p.k) + (Get(Put(t, p), p.k) + Behind(t, p.k))
    ensures Joined(t) == Before(t, p.k) + (Get(t, p.k) + Behind(t, p.k))
  {
    hide Joined, Before, Behind;
    PutElsewhere(t, Put(t, p), p.k);
    JoinedAround(Put(t, p), p.k);
    JoinedAround(t, p.k);
  }

  lemma {:induction false} NothingIn(t: Texts, keys: seq<int>)
    requires forall k :: k in keys ==> Get(t, k) == ""
    ensures JoinKeys(t, keys) == ""
    decreases |keys|
  {
    if keys != [] {
      NothingIn(t, keys[1..]);
    }
  }

  lemma NothingBehind(t: Texts, i: int)
    requires forall k :: i < k ==> Get(t, k) == ""
    ensures Behind(t, i) == ""
  {
    hide Sorted;
    NothingIn(t, Sorted(Above(t.Keys, i)));
  }

  /** Text for a block with nothing behind it goes to the end. */
  lemma SayAtTheEnd(t: Texts, k: int, text: string)
    requires forall j :: k < j ==> Get(t, j) == ""
    ensures Joined(Put(t, Say(k, text))) == Joined(t) + text
  {
    hide Joined, Before, Behind;
    PutJoined(t, Say(k, text));
    NothingBehind(t, k);
    assert Before(t, k) + ((Get(t, k) + text) + "") == (Before(t, k) + (Get(t, k) + "")) + text;
  }

  // ----- Orderly text reads as a whole -----

  predicate SaidBefore(ps: seq<Piece>, m: nat, k: int)
    requires m <= |ps|
  {
    exists p :: 0 <= p < m && ps[p].Say? && ps[p].k == k
  }

  lemma WholeText(text: string)
    ensures Run(START, text).1.text + Run(START, text).0.buffer == StreamText(text, false)
  {
    hide Run;
    MachineReadsTokens(Text, "", text);
  }

  /** Together the blocks hold what the normalizer made of all text, and blocks without text hold none. */
  ghost predicate Even(ps: seq<Piece>, m: nat)
    requires m <= |ps|
  {
    var t, s := Written(ps, m), Heard(ps, m);
    t.Keys == s.texts.Keys &&
    s.norm == Run(START, Joined(t)).0 && Joined(s.texts) == Run(START, Joined(t)).1.text &&
    forall k :: !SaidBefore(ps, m, k) ==> Get(t, k) == "" && Get(s.texts, k) == ""
  }

  lemma {:induction false} RisingIsEven(ps: seq<Piece>, m: nat)
    requires m <= |ps| && !Descends(ps) && !Restarts(ps)
    ensures Even(ps, m)
    decreases m
  {
    hide Run, Joined;
    if m == 0 {
      NothingWritten();
    } else {
      RisingIsEven(ps, m - 1);
      if ps[m - 1].Say? {
        SayKeepsEven(ps, m - 1);
      } else {
        BeginKeepsEven(ps, m - 1);
      }
    }
  }

  lemma NothingWritten()
    ensures Joined(map[]) == "" && Run(START, "") == (START, Output("", []))
  {
  }

  lemma SayKeepsEven(ps: seq<Piece>, m: nat)
    requires m < |ps| && ps[m].Say? && Even(ps, m) && !Descends(ps)
    ensures Even(ps, m + 1)
  {
    hide Run, Joined;
    var t, s, k, text := Written(ps, m), Heard(ps, m), ps[m].k, ps[m].text;
    forall j | k < j ensures !SaidBefore(ps, m, j) {
    }
    var (norm, out) := Run(s.norm, text);
    assert Written(ps, m + 1) == Put(t, ps[m]) && Heard(ps, m + 1) == Hear(s, ps[m]);
    SayAtTheEnd(t, k, text);
    SayAtTheEnd(s.texts, k, out.text);
    RunAppend(START, Joined(t), text);
    var u, v := Written(ps, m + 1), Heard(ps, m + 1);
    assert u.Keys == v.texts.Keys;
    assert v.norm == Run(START, Joined(u)).0;
    assert Joined(v.texts) == Run(START, Joined(u)).1.text;
    forall j | !SaidBefore(ps, m + 1, j) ensures Get(u, j) == "" && Get(v.texts, j) == "" {
      assert ps[m].Say? && ps[m].k == k;
      assert !SaidBefore(ps, m, j);
    }
  }

  lemma BeginKeepsEven(ps: seq<Piece>, m: nat)
    requires m < |ps| && ps[m].Begin? && Even(ps, m) && !Restarts(ps)
    ensures Even(ps, m + 1)
  {
    hide Run, Joined, Before, Behind;
    var t, s, k := Written(ps, m), Heard(ps, m), ps[m].k;
    forall p | 0 <= p < m && ps[p].Say? ensures ps[p].k != k {
      assert !Dropped(ps, p);
      assert ps[m] == Begin(k);
    }
    assert Written(ps, m + 1) == Put(t, ps[m]) && Heard(ps, m + 1) == Hear(s, ps[m]);
    PutJoined(t, ps[m]);
    PutJoined(s.texts, ps[m]);
    var u, v := Written(ps, m + 1), Heard(ps, m + 1);
    assert u.Keys == v.texts.Keys;
    assert v.norm == Run(START, Joined(u)).0;
    assert Joined(v.texts) == Run(START, Joined(u)).1.text;
    forall j | !SaidBefore(ps, m + 1, j) ensures Get(u, j) == "" && Get(v.texts, j) == "" {
      assert !SaidBefore(ps, m, j);
    }
  }

  lemma {:induction false} LastIsNew(ps: seq<Piece>, m: nat)
    requires m <= |ps|
    ensures Heard(ps, m).last == LastNew(ps, m) && (LastNew(ps, m).None? <==> m == 0)
    ensures forall k :: k in Heard(ps, m).texts <==> exists q :: 0 <= q < m && ps[q].k == k
    ensures Heard(ps, m).texts.Keys == Written(ps, m).Keys
    decreases m
  {
    hide Run;
    if m > 0 {
      LastIsNew(ps, m - 1);
      assert ps[m - 1].k == ps[m - 1].k;
    }
  }

  /** Text in the order of the blocks is read as if it came in one. */
  lemma OrderlyReadsWhole(ps: seq<Piece>)
    requires Orderly(ps)
    ensures ReadsWhole(ps)
  {
    hide Run, Joined, StreamText;
    var m := |ps|;
    var t, s := Written(ps, m), Heard(ps, m);
    RisingIsEven(ps, m);
    LastIsNew(ps, m);
    WholeText(Joined(t));
    if s.norm.buffer == "" {
      assert Joined(s.texts) + "" == Joined(s.texts);
    } else {
      assert forall k :: SaidBefore(ps, m, k) ==> k <= s.last.value;
      SayAtTheEnd(s.texts, s.last.value, s.norm.buffer);
    }
  }

  // ----- Any other order reads differently for some text -----

  /** The same blocks in the same order, with other text. */
  ghost predicate SameShape(ps: seq<Piece>, qs: seq<Piece>)
  {
    |ps| == |qs| && forall p :: 0 <= p < |ps| ==> ps[p].k == qs[p].k && (ps[p].Say? <==> qs[p].Say?)
  }

  /** Empty text is not sent. */
  ghost predicate Spoken(ps: seq<Piece>)
  {
    forall p :: 0 <= p < |ps| && ps[p].Say? ==> ps[p].text != ""
  }

  /** One text at position `n`, another before it and another after it. */
  function Fill(ps: seq<Piece>, n: nat, first: string, here: string, later: string): (qs: seq<Piece>)
    ensures SameShape(ps, qs)
    ensures first != "" && here != "" && later != "" ==> Spoken(qs)
  {
    seq(|ps|, p requires 0 <= p < |ps| =>
      if ps[p].Begin? then ps[p] else Say(ps[p].k, if p < n then first else if p == n then here else later))
  }

  lemma {:induction false} SameBlocks(ps: seq<Piece>, qs: seq<Piece>, m: nat)
    requires SameShape(ps, qs) && m <= |ps|
    ensures LastNew(ps, m) == LastNew(qs, m) && Written(ps, m).Keys == Written(qs, m).Keys
    decreases m
  {
    if m > 0 {
      SameBlocks(ps, qs, m - 1);
    }
  }

  lemma SameOrder(ps: seq<Piece>, qs: seq<Piece>)
    requires SameShape(ps, qs)
    ensures Orderly(ps) <==> Orderly(qs)
  {
    hide LastNew;
    SameBlocks(ps, qs, |ps|);
    SameDescents(ps, qs);
    SameDescents(qs, ps);
  }

  lemma SameDescents(ps: seq<Piece>, qs: seq<Piece>)
    requires SameShape(ps, qs) && LastNew(ps, |ps|) == LastNew(qs, |qs|)
    ensures (Descends(ps) ==> Descends(qs)) && (Restarts(ps) ==> Restarts(qs)) && (EndsBelow(ps) ==> EndsBelow(qs))
  {
    hide LastNew;
    if Descends(ps) {
      var p, q :| 0 <= p < q < |ps| && ps[p].Say? && ps[q].Say? && ps[q].k < ps[p].k;
      assert qs[p].Say? && qs[q].Say? && qs[q].k < qs[p].k;
    }
    if Restarts(ps) {
      var p :| 0 <= p < |ps| && ps[p].Say? && Dropped(ps, p);
      SameDropped(ps, qs, p);
    }
    if EndsBelow(ps) {
      var p :| 0 <= p < |ps| && ps[p].Say? && (LastNew(ps, |ps|).None? || LastNew(ps, |ps|).value < ps[p].k);
      assert qs[p].Say?;
    }
  }

  lemma SameDropped(ps: seq<Piece>, qs: seq<Piece>, p: nat)
    requires SameShape(ps, qs) && p < |ps| && Dropped(ps, p)
    ensures Dropped(qs, p)
  {
    var q :| p < q < |ps| && ps[q] == Begin(ps[p].k);
    assert qs[q] == Begin(qs[p].k);
  }

  lemma {:induction false} ReadsPlain(thinking: string, s: string)
    requires NoAngle(s)
    ensures Run(START, s) == (START, Output(s, []))
    ensures exists more :: Run(Norm(InThinking, "", thinking), s) == (Norm(InThinking, "", more), Output("", []))
    decreases |s|
  {
    ReadThought(thinking, s);
    if s != "" {
      ReadsPlain(thinking, s[1..]);
      HeadAndTail(s);
      assert Then(Output([s[0]], []), Output(s[1..], [])) == Output(s, []);
      assert Feed(START, s[0]) == (START, Output([s[0]], []));
    }
  }

  /** Text without angle brackets goes through unchanged, until a tag opens. */
  ghost predicate Hidden(norm: Norm)
  {
    norm.mode == InThinking && norm.buffer == ""
  }

  const BRACKET := Norm(BufferingTag, "<", "")

  lemma ReadsSpecial()
    ensures Run(START, "a") == (START, Output("a", []))
    ensures Run(START, "a<") == (BRACKET, Output("a", []))
    ensures Run(START, "<think>").1.text == "" && Hidden(Run(START, "<think>").0)
    ensures forall norm :: Hidden(norm) ==> Hidden(Run(norm, "a").0) && Run(norm, "a").1.text == ""
  {
    hide Run;
    ReadsPlain("", "a");
    assert "a" + "<" == "a<" && "<" == ['<'];
    RunOne(START, '<');
    RunAppend(START, "a", "<");
    assert Then(Output("a", []), Output("", [])) == Output("a", []);
    ReadTag(Text, "", "<think>");
    forall norm: Norm | Hidden(norm) ensures Hidden(Run(norm, "a").0) && Run(norm, "a").1.text == "" {
      ReadsPlain(norm.thinking, "a");
      assert norm == Norm(InThinking, "", norm.thinking);
    }
  }

  /** All text `a`, and all text `a` up to position `n` with nothing behind. */
  function Loud(ps: seq<Piece>): seq<Piece>
  {
    Fill(ps, 0, "a", "a", "a")
  }

  function Hushed(ps: seq<Piece>, n: nat): seq<Piece>
  {
    Fill(ps, n, "a", "", "")
  }

  lemma {:induction false} WithoutBrackets(ps: seq<Piece>, m: nat, k: int)
    requires m <= |ps| && forall p :: 0 <= p < |ps| && ps[p].Say? ==> NoAngle(ps[p].text)
    ensures NoAngle(Get(Written(ps, m), k))
    decreases m
  {
    if m > 0 {
      WithoutBrackets(ps, m - 1, k);
    }
  }

  lemma {:induction false} JoinWithoutBrackets(t: Texts, keys: seq<int>)
    requires forall k :: k in keys ==> NoAngle(Get(t, k))
    ensures NoAngle(JoinKeys(t, keys))
    decreases |keys|
  {
    if keys != [] {
      JoinWithoutBrackets(t, keys[1..]);
    }
  }

  /** Up to and including a tag at `n`, the normalizer lets through what was said before, and nothing after. */
  lemma {:induction false} TagHushes(ps: seq<Piece>, n: nat, m: nat)
    requires n < |ps| && ps[n].Say? && m <= |ps|
    ensures
      var s := Heard(Fill(ps, n, "a", "<think>", "a"), m);
      s.texts == Written(Hushed(ps, n), m) && if m <= n then s.norm == START else Hidden(s.norm)
    decreases m
  {
    hide Run, Hidden, Put;
    if m > 0 {
      TagHushes(ps, n, m - 1);
      ReadsSpecial();
    }
  }

  /** A bracket at the last text stays in the buffer. */
  lemma {:induction false} BracketStays(ps: seq<Piece>, n: nat, m: nat)
    requires n < |ps| && ps[n].Say? && (forall p :: n < p < |ps| ==> ps[p].Begin?) && m <= |ps|
    ensures
      var s := Heard(Fill(ps, n, "a", "a<", "a"), m);
      s.texts == Written(Loud(ps), m) && s.norm == if m <= n then START else BRACKET
    decreases m
  {
    hide Run;
    if m > 0 {
      BracketStays(ps, n, m - 1);
      ReadsSpecial();
    }
  }

  predicate DroppedBy(ps: seq<Piece>, n: nat, m: nat)
    requires n < |ps| && m <= |ps|
  {
    exists q :: n < q < m && ps[q] == Begin(ps[n].k)
  }

  /** One special text matters for its own block only, and not there once the block starts again. */
  lemma {:induction false} OnlyThere(ps: seq<Piece>, n: nat, special: string, m: nat, k: int)
    requires n < |ps| && m <= |ps| && ps[n].Say?
    requires k != ps[n].k || m <= n || DroppedBy(ps, n, m)
    ensures Get(Written(Fill(ps, n, "a", special, "a"), m), k) == Get(Written(Loud(ps), m), k)
    decreases m
  {
    if m > 0 && ps[m - 1] != Begin(k) {
      OnlyThere(ps, n, special, m - 1, k);
    }
  }

  /** Behind a tag that stays, the block holds what was said before it, the tag, and more without brackets. */
  lemma {:induction false} TagStays(ps: seq<Piece>, n: nat, m: nat) returns (more: string)
    requires n < m <= |ps| && ps[n].Say? && !DroppedBy(ps, n, m)
    ensures NoAngle(more)
    ensures
      Get(Written(Fill(ps, n, "a", "<think>", "a"), m), ps[n].k)
      == Get(Written(Hushed(ps, n), m), ps[n].k) + ("<think>" + more)
    decreases m
  {
    var k, before := ps[n].k, Get(Written(Hushed(ps, n), n), ps[n].k);
    if m == n + 1 {
      more := "";
      BeforeTag(ps, n, n, k);
      assert "<think>" + "" == "<think>" && before + "" == before;
    } else {
      more := TagStays(ps, n, m - 1);
      var was := Get(Written(Hushed(ps, n), m - 1), k);
      assert ps[m - 1] != Begin(k);
      if ps[m - 1].Say? && ps[m - 1].k == k {
        Associate(was, "<think>" + more, "a");
        Associate("<think>", more, "a");
        assert was + "" == was;
        more := more + "a";
      }
    }
  }

  lemma {:induction false} BeforeTag(ps: seq<Piece>, n: nat, m: nat, k: int)
    requires m <= n < |ps| && ps[n].Say?
    ensures Get(Written(Fill(ps, n, "a", "<think>", "a"), m), k) == Get(Written(Hushed(ps, n), m), k)
    decreases m
  {
    if m > 0 {
      BeforeTag(ps, n, m - 1, k);
    }
  }

  /** A bracket at the last text that stays is the end of its block. */
  lemma {:induction false} BracketEnds(ps: seq<Piece>, n: nat, m: nat)
    requires n < m <= |ps| && ps[n].Say? && (forall p :: n < p < |ps| ==> ps[p].Begin?) && !DroppedBy(ps, n, m)
    ensures
      var all := Get(Written(Loud(ps), m), ps[n].k);
      Get(Written(Fill(ps, n, "a", "a<", "a"), m), ps[n].k) == all + "<" && all != "" && all[|all| - 1] == 'a'
    decreases m
  {
    var k := ps[n].k;
    if m == n + 1 {
      OnlyThere(ps, n, "a<", n, k);
      var was := Get(Written(Loud(ps), n), k);
      assert was + "a<" == (was + "a") + "<";
    } else {
      BracketEnds(ps, n, m - 1);
      assert ps[m - 1] != Begin(k);
    }
  }

  // ----- Less is heard than was said -----

  lemma {:induction false} HushedIsShorter(ps: seq<Piece>, n: nat, m: nat, k: int)
    requires n <= |ps| && m <= |ps|
    ensures |Get(Written(Hushed(ps, n), m), k)| <= |Get(Written(Loud(ps), m), k)|
    decreases m
  {
    if m > 0 {
      HushedIsShorter(ps, n, m - 1, k);
    }
  }

  lemma {:induction false} HushedIsMissed(ps: seq<Piece>, n: nat, v: nat, m: nat)
    requires n <= v < m <= |ps| && ps[v].Say? && !DroppedBy(ps, v, m)
    ensures |Get(Written(Hushed(ps, n), m), ps[v].k)| < |Get(Written(Loud(ps), m), ps[v].k)|
    decreases m
  {
    if m == v + 1 {
      HushedIsShorter(ps, n, v, ps[v].k);
    } else {
      HushedIsMissed(ps, n, v, m - 1);
      assert ps[m - 1] != Begin(ps[v].k);
    }
  }

  lemma {:induction false} ShorterPieces(t: Texts, u: Texts, keys: seq<int>)
    requires forall k :: k in keys ==> |Get(t, k)| <= |Get(u, k)|
    ensures |JoinKeys(t, keys)| <= |JoinKeys(u, keys)|
    ensures (exists k :: k in keys && |Get(t, k)| < |Get(u, k)|) ==> |JoinKeys(t, keys)| < |JoinKeys(u, keys)|
    decreases |keys|
  {
    if keys != [] {
      ShorterPieces(t, u, keys[1..]);
      assert forall k :: k in keys <==> k == keys[0] || k in keys[1..];
    }
  }

  lemma JoinedAgree(t: Texts, u: Texts)
    requires t.Keys == u.Keys && forall k :: Get(t, k) == Get(u, k)
    ensures Joined(t) == Joined(u)
  {
    hide Sorted;
    JoinKeysAgree(t, u, Sorted(t.Keys));
  }

  lemma LoudReadsItself(ps: seq<Piece>)
    ensures StreamText(Joined(Written(Loud(ps), |ps|)), false) == Joined(Written(Loud(ps), |ps|))
    ensures NoAngle(Joined(Written(Loud(ps), |ps|)))
  {
    hide StreamText, Sorted, Written;
    var t := Written(Loud(ps), |ps|);
    forall k ensures NoAngle(Get(t, k)) {
      WithoutBrackets(Loud(ps), |ps|, k);
    }
    JoinWithoutBrackets(t, Sorted(t.Keys));
    PlainEnd(Joined(t));
  }

  // ----- The four ways to fail -----

  /** The last text is dropped: a bracket it leaves in the buffer turns up all the same. */
  lemma DroppedEnd(ps: seq<Piece>, n: nat)
    requires n < |ps| && ps[n].Say? && (forall p :: n < p < |ps| ==> ps[p].Begin?) && Dropped(ps, n)
    ensures !ReadsWhole(Fill(ps, n, "a", "a<", "a"))
  {
    hide Run, Joined, Written, StreamText, Before, Behind, LastNew;
    var qs, m := Fill(ps, n, "a", "a<", "a"), |ps|;
    var loud, s := Written(Loud(ps), m), Heard(qs, m);
    BracketStays(ps, n, m);
    assert DroppedBy(ps, n, m);
    forall k ensures Get(Written(qs, m), k) == Get(loud, k) {
      OnlyThere(ps, n, "a<", m, k);
    }
    SameBlocks(qs, ps, m);
    SameBlocks(Loud(ps), ps, m);
    JoinedAgree(Written(qs, m), loud);
    LoudReadsItself(ps);
    LastIsNew(qs, m);
    PutJoined(loud, Say(s.last.value, "<"));
  }

  /** Text that is dropped hides, with a tag, later text that stays. */
  lemma DroppedTag(ps: seq<Piece>, n: nat, v: nat)
    requires n <= v < |ps| && ps[n].Say? && Dropped(ps, n) && ps[v].Say? && !Dropped(ps, v)
    ensures !ReadsWhole(Fill(ps, n, "a", "<think>", "a"))
  {
    hide Run, Written, StreamText, LastNew, Sorted;
    var qs, m := Fill(ps, n, "a", "<think>", "a"), |ps|;
    var loud, hushed := Written(Loud(ps), m), Written(Hushed(ps, n), m);
    TagHushes(ps, n, m);
    assert DroppedBy(ps, n, m) && !DroppedBy(ps, v, m);
    forall k ensures Get(Written(qs, m), k) == Get(loud, k) && |Get(hushed, k)| <= |Get(loud, k)| {
      OnlyThere(ps, n, "<think>", m, k);
      HushedIsShorter(ps, n, m, k);
    }
    SameBlocks(qs, ps, m);
    SameBlocks(Loud(ps), ps, m);
    SameBlocks(Hushed(ps, n), ps, m);
    JoinedAgree(Written(qs, m), loud);
    LoudReadsItself(ps);
    HushedIsMissed(ps, n, v, m);
    assert ps[v].k in loud;
    ShorterPieces(hushed, loud, Sorted(loud.Keys));
  }

  lemma {:induction false} NothingHushedAbove(ps: seq<Piece>, n: nat, m: nat, k: int)
    requires n < |ps| && m <= |ps| && ps[n].k < k
    requires forall p :: 0 <= p < n && ps[p].Say? ==> ps[p].k <= ps[n].k
    ensures Get(Written(Hushed(ps, n), m), k) == ""
    decreases m
  {
    if m > 0 {
      NothingHushedAbove(ps, n, m - 1, k);
    }
  }

  lemma HiddenBehindTag(front: string, rest: string)
    requires NoAngle(front) && NoAngle(rest)
    ensures StreamText(front + ("<think>" + rest), false) == front
  {
    hide StreamText;
    SkipText(front, "<think>" + rest);
    SkipTag("<think>", rest, false);
    ThoughtEnd(rest);
    assert front + "" == front;
  }

  /** Around the block of one special text everything is as if all text were `a`. */
  lemma AroundSpecial(ps: seq<Piece>, n: nat, special: string)
    requires n < |ps| && ps[n].Say?
    ensures
      var k, said, loud := ps[n].k, Written(Fill(ps, n, "a", special, "a"), |ps|), Written(Loud(ps), |ps|);
      Before(said, k) == Before(loud, k) && Behind(said, k) == Behind(loud, k) &&
      NoAngle(Before(loud, k)) && NoAngle(Behind(loud, k)) && NoAngle(Get(loud, k))
  {
    hide Written, Sorted, LastNew;
    var qs, k, m := Fill(ps, n, "a", special, "a"), ps[n].k, |ps|;
    var said, loud := Written(qs, m), Written(Loud(ps), m);
    SameBlocks(qs, ps, m);
    SameBlocks(Loud(ps), ps, m);
    forall j ensures NoAngle(Get(loud, j)) && (j != k ==> Get(said, j) == Get(loud, j)) {
      WithoutBrackets(Loud(ps), m, j);
      if j != k {
        OnlyThere(ps, n, special, m, j);
      }
    }
    PutElsewhere(said, loud, k);
    JoinWithoutBrackets(loud, Sorted(Below(loud.Keys, k)));
    JoinWithoutBrackets(loud, Sorted(Above(loud.Keys, k)));
  }

  /** Text behind a descent is missing from what was heard below the block it descends from. */
  lemma MissedBelow(ps: seq<Piece>, n: nat, v: nat)
    requires n < v < |ps| && ps[n].Say? && ps[v].Say? && ps[v].k < ps[n].k && !Dropped(ps, v)
    ensures |Before(Written(Hushed(ps, n), |ps|), ps[n].k)| < |Before(Written(Loud(ps), |ps|), ps[n].k)|
  {
    hide Written, Sorted, LastNew;
    var m := |ps|;
    var loud, hushed := Written(Loud(ps), m), Written(Hushed(ps, n), m);
    SameBlocks(Loud(ps), ps, m);
    SameBlocks(Hushed(ps, n), ps, m);
    forall j ensures |Get(hushed, j)| <= |Get(loud, j)| {
      HushedIsShorter(ps, n, m, j);
    }
    assert !DroppedBy(ps, v, m);
    HushedIsMissed(ps, n, v, m);
    assert ps[v].k in Below(loud.Keys, ps[n].k);
    ShorterPieces(hushed, loud, Sorted(Below(loud.Keys, ps[n].k)));
  }

  /** Text behind a descent is hidden by a tag in the block above, though it stands before it. */
  lemma DescentHides(ps: seq<Piece>, n: nat, v: nat)
    requires n < v < |ps| && ps[n].Say? && ps[v].Say? && ps[v].k < ps[n].k && !Restarts(ps)
    requires forall p :: 0 <= p < n && ps[p].Say? ==> ps[p].k <= ps[n].k
    ensures !ReadsWhole(Fill(ps, n, "a", "<think>", "a"))
  {
    hide Run, Written, StreamText, LastNew, Sorted, Joined, Before, Behind, Get, Fill, Heard;
    var qs, m, k := Fill(ps, n, "a", "<think>", "a"), |ps|, ps[n].k;
    var said, hushed := Written(qs, m), Written(Hushed(ps, n), m);
    TagHushes(ps, n, m);
    assert !Dropped(ps, n) && !Dropped(ps, v);
    assert !DroppedBy(ps, n, m);
    var more := TagStays(ps, n, m);
    AroundSpecial(ps, n, "<think>");
    MissedBelow(ps, n, v);
    forall j | k < j ensures Get(hushed, j) == "" {
      NothingHushedAbove(ps, n, m, j);
    }
    NothingBehind(hushed, k);
    JoinedAround(hushed, k);
    JoinedAround(said, k);
    var front, own, rest := Before(said, k), Get(hushed, k), more + Behind(said, k);
    HushedIsPlain(ps, n, k);
    Regroup(front, own, more, Behind(said, k));
    HiddenBehindTag(front + own, rest);
    assert |Before(hushed, k) + (own + "")| < |front + own|;
  }

  lemma HushedIsPlain(ps: seq<Piece>, n: nat, k: int)
    ensures NoAngle(Get(Written(Hushed(ps, n), |ps|), k))
  {
    WithoutBrackets(Hushed(ps, n), |ps|, k);
  }

  lemma Regroup(a: string, b: string, c: string, d: string)
    ensures a + ((b + ("<think>" + c)) + d) == (a + b) + ("<think>" + (c + d))
  {
    Associate(b, "<think>" + c, d);
    Associate("<think>", c, d);
    Associate(a, b, "<think>" + (c + d));
  }

  lemma NothingLoudAbove(ps: seq<Piece>, n: nat, m: nat, k: int)
    requires n < |ps| && m <= |ps| && ps[n].k < k
    requires forall p :: 0 <= p < |ps| && ps[p].Say? ==> ps[p].k <= ps[n].k
    ensures Get(Written(Loud(ps), m), k) == ""
    decreases m
  {
    if m > 0 {
      NothingLoudAbove(ps, n, m - 1, k);
    }
  }

  lemma BracketIsText(front: string)
    requires NoAngle(front)
    ensures StreamText(front + "<", false) == front + "<"
  {
    hide StreamText, Run;
    SkipText(front, "<");
    assert "<" == ['<'];
    RunOne(START, '<');
    WholeText("<");
    assert "" + "<" == "<";
  }

  /** The block created last lies below the last text: a bracket left in the buffer ends in the wrong place. */
  lemma BracketGoesBelow(ps: seq<Piece>, n: nat)
    requires n < |ps| && ps[n].Say? && (forall p :: n < p < |ps| ==> ps[p].Begin?) && !Dropped(ps, n)
    requires !Descends(ps) && EndsBelow(ps)
    ensures !ReadsWhole(Fill(ps, n, "a", "a<", "a"))
  {
    hide Run, Joined, Written, StreamText, Before, Behind, LastNew;
    var qs, m, k := Fill(ps, n, "a", "a<", "a"), |ps|, ps[n].k;
    var loud, said, s := Written(Loud(ps), m), Written(qs, m), Heard(qs, m);
    BracketStays(ps, n, m);
    assert !DroppedBy(ps, n, m);
    SameBlocks(qs, ps, m);
    LastIsNew(qs, m);
    BracketEnds(ps, n, m);
    AroundSpecial(ps, n, "a<");
    assert forall p :: 0 <= p < |ps| && ps[p].Say? ==> ps[p].k <= k;
    var below := s.last.value;
    assert below < k;
    var heard := Put(loud, Say(below, "<"));
    forall j | k < j ensures Get(loud, j) == "" && Get(heard, j) == "" {
      NothingLoudAbove(ps, n, m, j);
    }
    NothingBehind(loud, k);
    NothingBehind(heard, k);
    JoinedAround(said, k);
    JoinedAround(heard, k);
    var front, all := Before(loud, k), Get(loud, k);
    assert front + ((all + "<") + "") == (front + all) + "<";
    BracketIsText(front + all);
    var wrong := Before(heard, k) + (all + "");
    assert wrong[|wrong| - 1] == 'a';
  }

  // ----- Exactly the orderly streams -----

  lemma {:induction false} LastSay(ps: seq<Piece>, m: nat) returns (n: nat)
    requires m <= |ps| && exists p :: 0 <= p < m && ps[p].Say?
    ensures n < m && ps[n].Say? && forall p :: n < p < m ==> ps[p].Begin?
    decreases m
  {
    if ps[m - 1].Say? {
      n := m - 1;
    } else {
      n := LastSay(ps, m - 1);
    }
  }

  lemma {:induction false} TopSay(ps: seq<Piece>, m: nat) returns (n: nat)
    requires m <= |ps| && exists p :: 0 <= p < m && ps[p].Say?
    ensures n < m && ps[n].Say? && forall p :: 0 <= p < m && ps[p].Say? ==> ps[p].k <= ps[n].k
    decreases m
  {
    if forall p :: 0 <= p < m - 1 ==> ps[p].Begin? {
      n := m - 1;
    } else {
      n := TopSay(ps, m - 1);
      if ps[m - 1].Say? && ps[n].k < ps[m - 1].k {
        n := m - 1;
      }
    }
  }

  /** Every other order has texts for which the shared normalizer reads something else. */
  lemma DisorderShows(ps: seq<Piece>) returns (qs: seq<Piece>)
    requires !Orderly(ps)
    ensures SameShape(ps, qs) && Spoken(qs) && !ReadsWhole(qs)
  {
    hide ReadsWhole, LastNew;
    var end := LastSay(ps, |ps|);
    if Dropped(ps, end) {
      DroppedEnd(ps, end);
      qs := Fill(ps, end, "a", "a<", "a");
    } else if Restarts(ps) {
      var n :| 0 <= n < |ps| && ps[n].Say? && Dropped(ps, n);
      DroppedTag(ps, n, end);
      qs := Fill(ps, n, "a", "<think>", "a");
    } else if Descends(ps) {
      var p, v :| 0 <= p < v < |ps| && ps[p].Say? && ps[v].Say? && ps[v].k < ps[p].k;
      var n := TopSay(ps, v);
      DescentHides(ps, n, v);
      qs := Fill(ps, n, "a", "<think>", "a");
    } else {
      BracketGoesBelow(ps, end);
      qs := Fill(ps, end, "a", "a<", "a");
    }
  }

  /**
    Main result: one normalizer for all text blocks reads the joined text as a whole, for all texts that can be sent
    in this order, iff the order is orderly.
   */
  lemma ReadsWholeIff(ps: seq<Piece>)
    ensures (forall qs :: SameShape(ps, qs) && Spoken(qs) ==> ReadsWhole(qs)) <==> Orderly(ps)
  {
    hide ReadsWhole, Orderly, Spoken;
    if Orderly(ps) {
      forall qs | SameShape(ps, qs) ensures ReadsWhole(qs) {
        SameOrder(ps, qs);
        OrderlyReadsWhole(qs);
      }
    } else {
      var qs := DisorderShows(ps);
    }
  }
}
