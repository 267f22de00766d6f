/** Cutting incremental text into lines at "\n", as every newline-delimited reader of the repository does. */
module LineFraming {
  import opened Prelude

  /** First position of a line feed, or the length of `s`. */
  function LineFeed(s: string): (n: nat)
    ensures n <= |s|
    ensures forall i :: 0 <= i < n ==> s[i] != '\n'
    ensures n < |s| ==> s[n] == '\n'
  {
    if s == "" || s[0] == '\n' then 0 else 1 + LineFeed(s[1..])
  }

  /** `line.replace(/\r$/, "")`. */
  function DropCarriageReturn(line: string): string
  {
    if line != "" && line[|line| - 1] == '\r' then line[..|line| - 1] else line
  }

  /** The terminated lines of `s`, without their line feeds. */
  function Lines(s: string): seq<string>
    decreases |s|
  {
    var n := LineFeed(s);
    if n == |s| then [] else [s[..n]] + Lines(s[n + 1..])
  }

  /** What follows the last line feed. */
  function Unfinished(s: string): string
    decreases |s|
  {
    var n := LineFeed(s);
    if n == |s| then s else Unfinished(s[n + 1..])
  }

  /** The lines of a whole text; an unfinished last line counts unless it is empty. */
  function AllLines(text: string): seq<string>
  {
    Lines(text) + if Unfinished(text) == "" then [] else [Unfinished(text)]
  }

  lemma LineFeedIsStable(s: string, more: string)
    requires LineFeed(s) < |s|
    ensures LineFeed(s + more) == LineFeed(s)
  {
    var n := LineFeed(s + more);
    assert forall i :: 0 <= i < |s| ==> (s + more)[i] == s[i];
  }

  lemma FirstLine(s: string)
    requires LineFeed(s) < |s|
    ensures Lines(s) == [s[..LineFeed(s)]] + Lines(s[LineFeed(s) + 1..])
    ensures Unfinished(s) == Unfinished(s[LineFeed(s) + 1..])
  {
    hide LineFeed;
  }

  lemma NoMoreLines(s: string)
    requires LineFeed(s) == |s|
    ensures Lines(s) == [] && Unfinished(s) == s
  {
    hide LineFeed;
  }

  /** Cutting `a` and then what is left followed by `b` is cutting `a + b`. */
  lemma {:induction false} LinesAppend(a: string, b: string)
    ensures Lines(a + b) == Lines(a) + Lines(Unfinished(a) + b)
    ensures Unfinished(a + b) == Unfinished(Unfinished(a) + b)
    decreases |a|
  {
    hide LineFeed, Lines, Unfinished;
    var n := LineFeed(a);
    if n == |a| {
      NoMoreLines(a);
      assert [] + Lines(a + b) == Lines(a + b);
    } else {
      LineFeedIsStable(a, b);
      LineSlices(a, b, n);
      FirstLine(a);
      FirstLine(a + b);
      LinesAppend(a[n + 1..], b);
      var back := Lines(Unfinished(a) + b);
      assert ([a[..n]] + Lines(a[n + 1..])) + back == [a[..n]] + (Lines(a[n + 1..]) + back);
    }
  }

  lemma LineSlices(a: string, b: string, n: nat)
    requires n < |a|
    ensures (a + b)[..n] == a[..n] && (a + b)[n + 1..] == a[n + 1..] + b
  {
    AppendSlices(a, b, n);
    AppendSlices(a, b, n + 1);
  }

  lemma NoLineIn(s: string)
    requires '\n' !in s
    ensures Lines(s) == [] && Unfinished(s) == s
  {
    assert forall i :: 0 <= i < |s| ==> s[i] in s;
    assert LineFeed(s) == |s|;
  }

  lemma {:induction false} UnfinishedHasNoLines(s: string)
    ensures LineFeed(Unfinished(s)) == |Unfinished(s)| && Lines(Unfinished(s)) == []
    decreases |s|
  {
    if LineFeed(s) < |s| {
      UnfinishedHasNoLines(s[LineFeed(s) + 1..]);
    }
  }

  function Terminated(lines: seq<string>): string
  {
    if lines == [] then "" else lines[0] + "\n" + Terminated(lines[1..])
  }

  /** One terminated line in front. */
  lemma LinesCons(line: string, rest: string)
    requires '\n' !in line
    ensures Lines(line + "\n" + rest) == [line] + Lines(rest)
    ensures Unfinished(line + "\n" + rest) == Unfinished(rest)
  {
    hide LineFeed, Lines, Unfinished;
    var s := line + "\n" + rest;
    assert s[|line|] == '\n';
    assert forall i :: 0 <= i < |line| ==> s[i] == line[i] && line[i] in line;
    assert LineFeed(s) == |line|;
    FirstLine(s);
    assert s[..|line|] == line && s[|line| + 1..] == rest;
  }

  lemma {:induction false} TerminatedLines(lines: seq<string>)
    requires forall l :: l in lines ==> '\n' !in l
    ensures Lines(Terminated(lines)) == lines && Unfinished(Terminated(lines)) == ""
  {
    if lines == [] {
    } else {
      assert lines[0] in lines;
      TerminatedLines(lines[1..]);
      LinesCons(lines[0], Terminated(lines[1..]));
      assert lines == [lines[0]] + lines[1..];
    }
  }
}
