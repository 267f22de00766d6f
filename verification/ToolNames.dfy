/** Tool names for the Anthropic API: sanitising, resolving collisions, and mapping answers back. */
module ToolNames {

  const TOOL_NAME_MAX_LENGTH: nat := 64

  // ----- Sanitising -----

  predicate IsNameChar(c: char)
  {
    'a' <= c <= 'z' || 'A' <= c <= 'Z' || '0' <= c <= '9' || c == '_' || c == '-'
  }

  /** The API's pattern `^[a-zA-Z0-9_-]{1,64}$`. */
  predicate IsToolNameValid(s: string)
  {
    1 <= |s| <= TOOL_NAME_MAX_LENGTH && forall i :: 0 <= i < |s| ==> IsNameChar(s[i])
  }

  function SanitizeChar(c: char): char
  {
    if c == '.' then '-' else if IsNameChar(c) then c else '_'
  }

  function SanitizeToolName(name: string): (s: string)
    ensures IsToolNameValid(s)
    ensures IsToolNameValid(name) ==> s == name
  {
    var replaced := seq(|name|, i requires 0 <= i < |name| => SanitizeChar(name[i]));
    var s := if replaced == "" then "tool" else replaced;
    if |s| > TOOL_NAME_MAX_LENGTH then s[..TOOL_NAME_MAX_LENGTH] else s
  }

  /** Digits, capitals, small letters, the dash and the underscore, as ASCII numbers them. */
  predicate IsNameCode(n: int)
  {
    48 <= n <= 57 || 65 <= n <= 90 || 97 <= n <= 122 || n == 45 || n == 95
  }

  /** Up to 64 characters are kept in place: dots become dashes, what the API refuses becomes an underscore. */
  lemma SanitizedCharacters(name: string)
    ensures name == "" ==> SanitizeToolName(name) == "tool"
    ensures name != "" ==> |SanitizeToolName(name)| == if |name| < 64 then |name| else 64
    ensures forall i :: 0 <= i < |SanitizeToolName(name)| && i < |name| ==>
              (IsNameCode(name[i] as int) ==> SanitizeToolName(name)[i] == name[i]) &&
              (name[i] as int == 46 ==> SanitizeToolName(name)[i] as int == 45) &&
              (!IsNameCode(name[i] as int) && name[i] as int != 46 ==> SanitizeToolName(name)[i] as int == 95)
  {
    hide IsToolNameValid;
    forall i | 0 <= i < |SanitizeToolName(name)| && i < |name|
      ensures SanitizeToolName(name)[i] == SanitizeChar(name[i])
    {
    }
  }

  // ----- Decimal suffixes -----

  function Digit(d: nat): char
    requires d < 10
  {
    '0' + d as char
  }

  function Decimal(n: nat): (s: string)
    ensures s != "" && forall i :: 0 <= i < |s| ==> '0' <= s[i] <= '9'
  {
    if n < 10 then [Digit(n)] else Decimal(n / 10) + [Digit(n % 10)]
  }

  function Value(s: string): nat
    requires forall i :: 0 <= i < |s| ==> '0' <= s[i] <= '9'
  {
    if s == "" then 0 else Value(s[..|s| - 1]) * 10 + (s[|s| - 1] - '0') as int
  }

  lemma {:induction false} ValueOfDecimal(n: nat)
    ensures Value(Decimal(n)) == n && (n > 0 ==> Decimal(n)[0] != '0')
  {
    if n >= 10 {
      ValueOfDecimal(n / 10);
      assert Decimal(n)[..|Decimal(n)| - 1] == Decimal(n / 10);
    } else {
      assert Value([Digit(n)][..0]) == 0;
    }
  }

  function Pow10(k: nat): nat
  {
    if k == 0 then 1 else 10 * Pow10(k - 1)
  }

  /** A number below 10^k has at most k digits. */
  lemma {:induction false} DecimalLength(n: nat, k: nat)
    requires 1 <= k && n < Pow10(k)
    ensures |Decimal(n)| <= k
  {
    assert Pow10(1) == 10 * Pow10(0);
    if n >= 10 {
      DecimalLength(n / 10, k - 1);
    }
  }

  // ----- Candidates -----

  /** `s.slice(0, n)`. */
  function Cut(s: string, n: nat): string
  {
    if |s| > n then s[..n] else s
  }

  /** The `i`-th name tried for `base`: the base itself, then the base cut to make room for `_i`. */
  function Candidate(base: string, i: nat): string
  {
    if i == 0 then base
    else
      var suffix := "_" + Decimal(i);
      var room := TOOL_NAME_MAX_LENGTH - |suffix|;
      var maxBase := if room < 1 then 1 else room;
      Cut(Cut(base, maxBase) + suffix, TOOL_NAME_MAX_LENGTH)
  }

  /** A JavaScript array holds fewer than 2^32 elements. */
  const ARRAY_LIMIT: nat := 0x1_0000_0000

  lemma ArrayLimitDigits(i: nat)
    requires i < ARRAY_LIMIT
    ensures |Decimal(i)| <= 10
  {
    assert Pow10(5) == 10 * (10 * (10 * (10 * (10 * Pow10(0)))));
    assert Pow10(10) == 10 * (10 * (10 * (10 * (10 * Pow10(5)))));
    DecimalLength(i, 10);
  }

  lemma CandidateShape(base: string, i: nat)
    requires IsToolNameValid(base) && 1 <= i < ARRAY_LIMIT
    ensures IsToolNameValid(Candidate(base, i))
    ensures exists cut :: 1 <= cut <= |base| && Candidate(base, i) == base[..cut] + ("_" + Decimal(i))
  {
    ArrayLimitDigits(i);
    var suffix := "_" + Decimal(i);
    var kept := Cut(base, TOOL_NAME_MAX_LENGTH - |suffix|);
    assert kept == base[..|kept|] && Candidate(base, i) == kept + suffix;
  }

  /** The digits behind the last underscore tell which candidate it is. */
  lemma CandidatesDiffer(base: string, i: nat, j: nat)
    requires IsToolNameValid(base) && 1 <= i < j < ARRAY_LIMIT
    ensures Candidate(base, i) != Candidate(base, j)
  {
    CandidateShape(base, i);
    CandidateShape(base, j);
    var a :| 1 <= a <= |base| && Candidate(base, i) == base[..a] + ("_" + Decimal(i));
    var b :| 1 <= b <= |base| && Candidate(base, j) == base[..b] + ("_" + Decimal(j));
    if Candidate(base, i) == Candidate(base, j) {
      SameTail(base[..a], Decimal(i), base[..b], Decimal(j));
      ValueOfDecimal(i);
      ValueOfDecimal(j);
    }
  }

  lemma SameTail(a: string, m: string, b: string, n: string)
    requires forall i :: 0 <= i < |m| ==> m[i] != '_'
    requires forall i :: 0 <= i < |n| ==> n[i] != '_'
    requires a + ("_" + m) == b + ("_" + n)
    ensures m == n
  {
    var s := a + ("_" + m);
    assert s[|a|] == '_' && s[|b|] == '_';
    assert forall k :: |a| < k < |s| ==> s[k] == m[k - |a| - 1];
    assert forall k :: |b| < k < |s| ==> s[k] == n[k - |b| - 1];
    assert m == s[|a| + 1..] && n == s[|b| + 1..];
  }

  // ----- The search -----

  /** Position of the first candidate not yet used. */
  ghost predicate FirstFree(base: string, used: set<string>, i: nat)
  {
    Candidate(base, i) !in used && forall j :: 0 <= j < i ==> Candidate(base, j) in used
  }

  /** Distinct used candidates bound how far the search can go. */
  lemma {:induction false} TriedAreDistinct(base: string, n: nat) returns (tried: set<string>)
    requires IsToolNameValid(base) && n < ARRAY_LIMIT
    ensures |tried| == n && forall c :: c in tried <==> exists j :: 1 <= j <= n && c == Candidate(base, j)
  {
    hide Candidate, IsToolNameValid;
    if n == 0 {
      tried := {};
    } else {
      var fewer := TriedAreDistinct(base, n - 1);
      forall j | 1 <= j <= n - 1 ensures Candidate(base, j) != Candidate(base, n) {
        CandidatesDiffer(base, j, n);
      }
      tried := fewer + {Candidate(base, n)};
    }
  }

  lemma SearchBound(base: string, used: set<string>, i: nat)
    requires IsToolNameValid(base) && i < ARRAY_LIMIT
    requires forall j :: 1 <= j <= i ==> Candidate(base, j) in used
    ensures i <= |used|
  {
    var tried := TriedAreDistinct(base, i);
    SubsetSize(tried, used);
  }

  lemma SubsetSize<T>(a: set<T>, b: set<T>)
    requires a <= b
    ensures |a| <= |b|
  {
    assert b == a + (b - a);
  }

  method FindFreeName(base: string, used: set<string>) returns (candidate: string, ghost i: nat)
    requires IsToolNameValid(base) && |used| < ARRAY_LIMIT - 1
    ensures FirstFree(base, used, i) && candidate == Candidate(base, i)
    ensures IsToolNameValid(candidate) && candidate !in used
    ensures base !in used ==> candidate == base
  {
    candidate := base;
    var n := 0;
    i := 0;
    while candidate in used
      invariant n == i <= |used| + 1 && candidate == Candidate(base, i) && IsToolNameValid(candidate)
      invariant forall j :: 0 <= j < i ==> Candidate(base, j) in used
      decreases |used| + 1 - i
    {
      SearchBound(base, used, i);
      n := n + 1;
      var suf := "_" + Decimal(n);
      ArrayLimitDigits(n);
      var maxBase := if TOOL_NAME_MAX_LENGTH - |suf| < 1 then 1 else TOOL_NAME_MAX_LENGTH - |suf|;
      var trimmedBase := Cut(base, maxBase);
      candidate := Cut(trimmedBase + suf, TOOL_NAME_MAX_LENGTH);
      i := i + 1;
      CandidateShape(base, i);
    }
  }

  // ----- The name map -----

  function Taken(wires: seq<string>): set<string>
  {
    set w | w in wires
  }

  /** `wires[k]` is the first free candidate for the `k`-th tool, given the names handed out before it. */
  ghost predicate Assigned(names: seq<string>, wires: seq<string>)
  {
    && |names| == |wires|
    && forall k :: 0 <= k < |names| ==> FreeChoice(SanitizeToolName(names[k]), Taken(wires[..k]), wires[k])
  }

  ghost predicate FreeChoice(base: string, used: set<string>, wire: string)
  {
    exists i: nat :: FirstFree(base, used, i) && wire == Candidate(base, i)
  }

  lemma FirstFreeIsUnique(base: string, used: set<string>, i: nat, j: nat)
    requires FirstFree(base, used, i) && FirstFree(base, used, j)
    ensures i == j
  {
    assert i < j ==> Candidate(base, i) in used;
    assert j < i ==> Candidate(base, j) in used;
  }

  /** The assignment is determined by the list of tools. */
  lemma {:induction false} AssignmentIsUnique(names: seq<string>, v: seq<string>, w: seq<string>)
    requires Assigned(names, v) && Assigned(names, w)
    ensures v == w
    decreases |names|
  {
    hide SanitizeToolName, Candidate, FirstFree;
    if names != [] {
      var n := |names| - 1;
      forall k | 0 <= k < n ensures v[..n][..k] == v[..k] && w[..n][..k] == w[..k] {
      }
      AssignmentIsUnique(names[..n], v[..n], w[..n]);
      var base, used := SanitizeToolName(names[n]), Taken(v[..n]);
      var i: nat :| FirstFree(base, used, i) && v[n] == Candidate(base, i);
      var j: nat :| FirstFree(base, used, j) && w[n] == Candidate(base, j);
      FirstFreeIsUnique(base, used, i, j);
      assert v == v[..n] + [v[n]] && w == w[..n] + [w[n]];
    }
  }

  ghost predicate Handed(base: string, wires: seq<string>, k: nat, n: nat)
    requires k < |wires| && |Decimal(n)| <= 10
  {
    var room := 63 - |Decimal(n)|;
    wires[k] == base[..if |base| <= room then |base| else room] + ("_" + Decimal(n))
  }

  /** A tool gets its sanitised name, or if an earlier tool has it, that name cut to make room for a number. */
  lemma WireNamesAre(names: seq<string>, wires: seq<string>, k: nat)
    requires Assigned(names, wires) && k < |names| < ARRAY_LIMIT
    ensures var base := SanitizeToolName(names[k]);
            if base !in wires[..k] then wires[k] == base
            else exists n: nat :: 1 <= n < ARRAY_LIMIT && |Decimal(n)| <= 10 && Handed(base, wires, k, n)
  {
    hide SanitizeToolName, IsToolNameValid, Candidate, Decimal;
    var base, used := SanitizeToolName(names[k]), Taken(wires[..k]);
    assert FreeChoice(base, used, wires[k]);
    var i: nat :| FirstFree(base, used, i) && wires[k] == Candidate(base, i);
    BaseComesFirst(base);
    if base in wires[..k] {
      TakenAreFew(wires[..k]);
      if i >= ARRAY_LIMIT {
        SearchBound(base, used, ARRAY_LIMIT - 1);
      }
      ArrayLimitDigits(i);
      CandidateIsCut(base, i);
      assert Handed(base, wires, k, i);
    }
  }

  lemma BaseComesFirst(base: string)
    ensures Candidate(base, 0) == base
  {
  }

  lemma CandidateIsCut(base: string, n: nat)
    requires n >= 1 && |Decimal(n)| <= 10
    ensures
      var room := 63 - |Decimal(n)|;
      Candidate(base, n) == base[..if |base| <= room then |base| else room] + ("_" + Decimal(n))
  {
    hide Decimal;
  }

  lemma {:induction false} TakenAreFew(wires: seq<string>)
    ensures |Taken(wires)| <= |wires|
  {
    if wires != [] {
      TakenAreFew(wires[1..]);
      assert Taken(wires) == {wires[0]} + Taken(wires[1..]);
    }
  }

  /** No two tools share a wire name. */
  lemma AssignedAreDistinct(names: seq<string>, wires: seq<string>)
    requires Assigned(names, wires)
    ensures forall j, k :: 0 <= j < k < |wires| ==> wires[j] != wires[k]
  {
    forall j, k | 0 <= j < k < |wires| ensures wires[j] != wires[k] {
      assert FreeChoice(SanitizeToolName(names[k]), Taken(wires[..k]), wires[k]);
      assert wires[..k][j] == wires[j];
      assert wires[j] in Taken(wires[..k]);
    }
  }

  /** Later tools of the same name overwrite earlier ones, as `Map.set` does. */
  function Entries(names: seq<string>, wires: seq<string>): map<string, string>
    requires |names| == |wires|
    decreases |names|
  {
    if names == [] then map[]
    else var n := |names| - 1; Entries(names[..n], wires[..n])[names[n] := wires[n]]
  }

  lemma {:induction false} EntriesComeFromTools(names: seq<string>, wires: seq<string>)
    requires |names| == |wires|
    ensures forall x :: x in Entries(names, wires) <==> x in names
    ensures forall x :: x in Entries(names, wires) ==>
              exists k :: 0 <= k < |names| && names[k] == x && wires[k] == Entries(names, wires)[x]
    decreases |names|
  {
    if names != [] {
      var n := |names| - 1;
      EntriesComeFromTools(names[..n], wires[..n]);
      assert names == names[..n] + [names[n]];
      forall x | x in Entries(names, wires)
        ensures exists k :: 0 <= k < |names| && names[k] == x && wires[k] == Entries(names, wires)[x]
      {
        if x == names[n] {
          assert names[n] == x && wires[n] == Entries(names, wires)[x];
        } else {
          var k :| 0 <= k < n && names[..n][k] == x && wires[..n][k] == Entries(names[..n], wires[..n])[x];
          assert names[k] == x && wires[k] == Entries(names, wires)[x];
        }
      }
    }
  }

  ghost predicate Injective(m: map<string, string>)
  {
    forall x, y :: x in m && y in m && m[x] == m[y] ==> x == y
  }

  lemma EntriesAreInjective(names: seq<string>, wires: seq<string>)
    requires Assigned(names, wires)
    ensures Injective(Entries(names, wires))
  {
    var m := Entries(names, wires);
    EntriesComeFromTools(names, wires);
    AssignedAreDistinct(names, wires);
    forall x, y | x in m && y in m && m[x] == m[y] ensures x == y {
      var j :| 0 <= j < |names| && names[j] == x && wires[j] == m[x];
      var k :| 0 <= k < |names| && names[k] == y && wires[k] == m[y];
      assert j == k;
    }
  }

  lemma AssignedAreValid(names: seq<string>, wires: seq<string>)
    requires Assigned(names, wires) && (forall w :: w in wires ==> IsToolNameValid(w))
    ensures forall x :: x in Entries(names, wires) ==> IsToolNameValid(Entries(names, wires)[x])
  {
    EntriesComeFromTools(names, wires);
    forall x | x in Entries(names, wires) ensures IsToolNameValid(Entries(names, wires)[x]) {
      var k :| 0 <= k < |names| && names[k] == x && wires[k] == Entries(names, wires)[x];
    }
  }

  method BuildOpenAiToAnthropicToolNameMap(names: seq<string>)
      returns (m: map<string, string>, ghost wires: seq<string>)
    requires |names| < ARRAY_LIMIT
    ensures Assigned(names, wires) && m == Entries(names, wires)
    ensures m.Keys == (set x | x in names)
    ensures Injective(m)
    ensures forall x :: x in m ==> IsToolNameValid(m[x])
  {
    hide SanitizeToolName, Candidate, FirstFree, Injective, IsToolNameValid, Entries, Assigned, Taken;
    NoTools();
    m, wires := map[], [];
    var used: set<string> := {};
    assert names[..0] == [];
    for k := 0 to |names|
      invariant |wires| == k && used == Taken(wires) && |used| <= k
      invariant Assigned(names[..k], wires) && m == Entries(names[..k], wires)
      invariant forall w :: w in wires ==> IsToolNameValid(w)
    {
      var base := SanitizeToolName(names[k]);
      var candidate, i := FindFreeName(base, used);
      used := used + {candidate};
      m := m[names[k] := candidate];
      AssignedSnoc(names, wires, k, candidate, i);
      wires := wires + [candidate];
    }
    assert names[..|names|] == names;
    EntriesComeFromTools(names, wires);
    EntriesAreInjective(names, wires);
    AssignedAreValid(names, wires);
  }

  lemma NoTools()
    ensures Assigned([], []) && Entries([], []) == map[] && Taken([]) == {}
  {
  }

  lemma AssignedSnoc(names: seq<string>, wires: seq<string>, k: nat, wire: string, i: nat)
    requires k < |names| && Assigned(names[..k], wires)
    requires FirstFree(SanitizeToolName(names[k]), Taken(wires), i) && wire == Candidate(SanitizeToolName(names[k]), i)
    ensures Assigned(names[..k + 1], wires + [wire])
    ensures Entries(names[..k + 1], wires + [wire]) == Entries(names[..k], wires)[names[k] := wire]
    ensures Taken(wires + [wire]) == Taken(wires) + {wire}
  {
    hide SanitizeToolName, Candidate, FirstFree;
    var more := wires + [wire];
    assert more[..k] == wires && names[..k + 1][..k] == names[..k];
    forall j | 0 <= j < k + 1 ensures FreeChoice(SanitizeToolName(names[..k + 1][j]), Taken(more[..j]), more[j]) {
      if j < k {
        assert more[..j] == wires[..j] && names[..k][j] == names[j];
        assert FreeChoice(SanitizeToolName(names[..k][j]), Taken(wires[..j]), wires[j]);
      }
    }
  }

  /** Inverting a map in any order of its entries. */
  method InvertStringMap(m: map<string, string>) returns (inv: map<string, string>)
    ensures inv.Keys == m.Values
    ensures forall v :: v in inv ==> inv[v] in m && m[inv[v]] == v
  {
    inv := map[];
    var todo := m.Keys;
    while todo != {}
      invariant todo <= m.Keys
      invariant forall v :: v in inv <==> exists k :: k in m && k !in todo && m[k] == v
      invariant forall v :: v in inv ==> inv[v] in m && m[inv[v]] == v
      decreases |todo|
    {
      var k :| k in todo;
      inv := inv[m[k] := k];
      todo := todo - {k};
    }
  }

  /** Main result: every tool's wire name is valid, and answers with that name reach exactly that tool. */
  method ToolNameRoundTrip(names: seq<string>) returns (wire: map<string, string>, original: map<string, string>)
    requires |names| < ARRAY_LIMIT
    ensures forall k :: 0 <= k < |names| ==>
              names[k] in wire && IsToolNameValid(wire[names[k]]) &&
              wire[names[k]] in original && original[wire[names[k]]] == names[k]
    ensures forall v :: v in original ==> original[v] in names && wire[original[v]] == v
  {
    ghost var wires;
    wire, wires := BuildOpenAiToAnthropicToolNameMap(names);
    original := InvertStringMap(wire);
    forall k | 0 <= k < |names| ensures names[k] in wire && wire[names[k]] in original {
      assert names[k] in wire.Keys;
      assert wire[names[k]] in wire.Values;
    }
  }

  /** Names that are already valid and pairwise different are sent unchanged. */
  lemma {:induction false} ValidNamesAreKept(names: seq<string>, wires: seq<string>)
    requires Assigned(names, wires)
    requires forall k :: 0 <= k < |names| ==> IsToolNameValid(names[k])
    requires forall j, k :: 0 <= j < k < |names| ==> names[j] != names[k]
    ensures wires == names
    decreases |names|
  {
    if names != [] {
      var n := |names| - 1;
      forall k | 0 <= k < n ensures wires[..n][..k] == wires[..k] {
      }
      ValidNamesAreKept(names[..n], wires[..n]);
      assert FreeChoice(SanitizeToolName(names[n]), Taken(wires[..n]), wires[n]);
      var i: nat :| FirstFree(names[n], Taken(wires[..n]), i) && wires[n] == Candidate(names[n], i);
      assert Candidate(names[n], 0) == names[n];
      assert names[n] !in Taken(wires[..n]);
      assert wires == wires[..n] + [wires[n]];
    }
  }
}
