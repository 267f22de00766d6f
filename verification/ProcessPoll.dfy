/** Polling the output of a background process: the last lines of it, or what came after a byte offset. */
module ProcessPoll {
  import opened Prelude
  import opened LineFraming

  type byte = x: int | 0 <= x < 256

  /** The text encoding: bytes of one character, and reading bytes back. */
  datatype Codec = Codec(encode: char -> seq<byte>, decode: seq<byte> -> string)

  function Bytes(codec: Codec, s: string): seq<byte>
  {
    if s == "" then [] else codec.encode(s[0]) + Bytes(codec, s[1..])
  }

  /** Encoding can be undone, and no character vanishes. */
  ghost predicate Faithful(codec: Codec)
  {
    (forall s :: codec.decode(Bytes(codec, s)) == s) && forall c :: codec.encode(c) != []
  }

  const REPLACEMENT: char := '\U{FFFD}'

  /** Reading from within a character shows: something comes out as the replacement character. */
  ghost predicate MarksCuts(codec: Codec)
  {
    forall s, n: nat :: n <= |Bytes(codec, s)| ==> AtBoundary(codec, s, n) || REPLACEMENT in Cut(codec, s, n)
  }

  ghost predicate AtBoundary(codec: Codec, s: string, n: nat)
  {
    exists k: nat :: k <= |s| && |Bytes(codec, s[..k])| == n
  }

  /** What is read from an offset. */
  function Cut(codec: Codec, s: string, n: nat): string
    requires n <= |Bytes(codec, s)|
  {
    codec.decode(Bytes(codec, s)[n..])
  }

  datatype Filtered = Filtered(text: string, totalBytes: nat, truncated: bool)

  // ----- The reference: whole texts split and joined -----

  /** `s.split("\n")`. */
  function Segments(s: string): (segments: seq<string>)
    ensures segments != []
    decreases |s|
  {
    var n := LineFeed(s);
    if n == |s| then [s] else [s[..n]] + Segments(s[n + 1..])
  }

  /** The last `tail` segments and whether any were dropped. */
  function LastSegments(raw: string, tail: nat): (string, bool)
  {
    var segments := Segments(raw);
    if |segments| <= tail then (Join(segments, "\n"), false) else (Join(segments[|segments| - tail..], "\n"), true)
  }

  // ----- The scan -----

  lemma HeadIsNewline(s: string)
    requires s != "" && s[0] == '\n'
    ensures |Segments(s)| == 1 + |Segments(s[1..])|
  {
  }

  lemma HeadIsText(s: string)
    requires s != "" && s[0] != '\n'
    ensures |Segments(s)| == |Segments(s[1..])|
  {
    var n := LineFeed(s);
    assert LineFeed(s[1..]) == n - 1;
    assert n < |s| ==> s[1..][n..] == s[n + 1..];
  }

  lemma {:induction false} JoinSegments(s: string)
    ensures Join(Segments(s), "\n") == s
    decreases |s|
  {
    hide LineFeed;
    var n := LineFeed(s);
    if n < |s| {
      JoinSegments(s[n + 1..]);
      assert Segments(s)[1..] == Segments(s[n + 1..]);
      assert s == s[..n] + ("\n" + s[n + 1..]);
    }
  }

  lemma FirstSegment(s: string, n: nat)
    requires n < |s| && s[n] == '\n' && forall i :: 0 <= i < n ==> s[i] != '\n'
    ensures Segments(s) == [s[..n]] + Segments(s[n + 1..])
  {
    hide LineFeed;
    assert LineFeed(s) == n;
  }

  lemma OnlySegment(s: string)
    requires '\n' !in s
    ensures Segments(s) == [s]
  {
    hide LineFeed;
    assert LineFeed(s) == |s|;
  }

  lemma {:induction false} SegmentsAround(s: string, pos: nat)
    requires pos < |s| && s[pos] == '\n'
    ensures Segments(s) == Segments(s[..pos]) + Segments(s[pos + 1..])
    decreases |s|
  {
    hide LineFeed, Segments;
    var n := LineFeed(s);
    assert n <= pos;
    FirstSegment(s, n);
    if n == pos {
      OnlySegment(s[..pos]);
    } else {
      var rest := s[n + 1..];
      assert rest[pos - n - 1] == '\n';
      SegmentsAround(rest, pos - n - 1);
      FirstSegment(s[..pos], n);
      assert s[..pos][..n] == s[..n] && s[..pos][n + 1..] == rest[..pos - n - 1];
      assert rest[pos - n..] == s[pos + 1..];
    }
  }

  /** A newline with `tail - 1` more behind it is where the last `tail` segments begin. */
  lemma ScanStops(raw: string, pos: nat, tail: nat)
    requires pos < |raw| && raw[pos] == '\n' && |Segments(raw[pos..])| == tail + 1
    ensures LastSegments(raw, tail) == (raw[pos + 1..], true)
  {
    hide Segments;
    assert raw[pos..][1..] == raw[pos + 1..];
    HeadIsNewline(raw[pos..]);
    SegmentsAround(raw, pos);
    JoinSegments(raw[pos + 1..]);
    assert Segments(raw)[|Segments(raw)| - tail..] == Segments(raw[pos + 1..]);
  }

  method FilterRawOutput(codec: Codec, raw: string, since: Option<nat>, tail: Option<nat>) returns (r: Filtered)
    requires tail.Some? ==> tail.value >= 1
    ensures r == Filter(codec, raw, since, tail)
  {
    hide Segments, LastSegments, Bytes;
    var totalBytes := |Bytes(codec, raw)|;
    if tail.Some? {
      var pos := |raw|;
      var newlinesFound := 0;
      assert raw[pos..] == "";
      NoSegments();
      while pos > 0
        invariant pos <= |raw| && newlinesFound < tail.value
        invariant |Segments(raw[pos..])| == newlinesFound + 1
      {
        pos := pos - 1;
        assert raw[pos..][1..] == raw[pos + 1..];
        if raw[pos] == '\n' {
          HeadIsNewline(raw[pos..]);
          newlinesFound := newlinesFound + 1;
          if newlinesFound == tail.value {
            break;
          }
        } else {
          HeadIsText(raw[pos..]);
        }
      }
      if newlinesFound < tail.value {
        assert raw[0..] == raw;
        FewSegments(raw, tail.value);
        return Filtered(raw, totalBytes, false);
      }
      ScanStops(raw, pos, tail.value);
      return Filtered(raw[pos + 1..], totalBytes, true);
    }
    if since.Some? {
      if since.value >= totalBytes {
        return Filtered("", totalBytes, false);
      }
      var buf := Bytes(codec, raw);
      return Filtered(codec.decode(buf[since.value..]), totalBytes, since.value > 0);
    }
    return Filtered(raw, totalBytes, false);
  }

  lemma NoSegments()
    ensures |Segments("")| == 1
  {
  }

  lemma FewSegments(raw: string, tail: nat)
    requires |Segments(raw)| <= tail
    ensures LastSegments(raw, tail) == (raw, false)
  {
    JoinSegments(raw);
  }

  /**
    What a poll is to return: the tail in terms of segments, else what follows the offset in bytes, else everything.
   */
  function Filter(codec: Codec, raw: string, since: Option<nat>, tail: Option<nat>): Filtered
  {
    var bytes := Bytes(codec, raw);
    if tail.Some? then
      var (text, dropped) := LastSegments(raw, tail.value);
      Filtered(text, |bytes|, dropped)
    else if since.Some? then
      if since.value >= |bytes| then Filtered("", |bytes|, false)
      else Filtered(codec.decode(bytes[since.value..]), |bytes|, since.value > 0)
    else Filtered(raw, |bytes|, false)
  }

  /**
    The flag `truncated` tells of a shortened answer for a tail, but not for an offset behind the end: the answer is
    empty then and reads as complete.
   */
  lemma TruncatedIff(codec: Codec, raw: string, since: Option<nat>, tail: Option<nat>)
    requires tail.Some? ==> tail.value >= 1
    ensures
      var r := Filter(codec, raw, since, tail);
      if tail.Some? then r.truncated <==> r.text != raw
      else if since.None? then !r.truncated && r.text == raw
      else
        (r.truncated <==> 0 < since.value < r.totalBytes) && (since.value >= r.totalBytes ==> r.text == "")
  {
    hide Segments, Bytes, LastSegments;
    if tail.Some? {
      DroppedIsShorter(raw, tail.value);
    }
  }

  lemma DroppedIsShorter(raw: string, tail: nat)
    requires tail >= 1
    ensures LastSegments(raw, tail).1 <==> LastSegments(raw, tail).0 != raw
  {
    JoinSegments(raw);
    var segments := Segments(raw);
    if |segments| > tail {
      JoinedTail(segments, |segments| - tail);
    }
  }

  lemma {:induction false} JoinedTail(segments: seq<string>, n: nat)
    requires 1 <= n < |segments|
    ensures |Join(segments[n..], "\n")| < |Join(segments, "\n")|
    decreases n
  {
    if n > 1 {
      JoinedTail(segments[1..], n - 1);
      assert segments[1..][n - 1..] == segments[n..];
    }
  }

  // ----- How many lines a tail keeps -----

  lemma {:induction false} SegmentsAreLines(s: string)
    ensures Segments(s) == Lines(s) + [Unfinished(s)]
    decreases |s|
  {
    hide LineFeed;
    if LineFeed(s) < |s| {
      SegmentsAreLines(s[LineFeed(s) + 1..]);
    }
  }

  /** Lines as a reader counts them: an unfinished last line counts unless it is empty. */
  function LineCount(s: string): nat
  {
    |Lines(s)| + if Unfinished(s) == "" then 0 else 1
  }

  /** The tail has as many lines as asked for (or as there are) unless the output ends with a line feed and was cut. */
  lemma TailLineCount(raw: string, tail: nat)
    requires tail >= 1
    ensures
      var (text, dropped) := LastSegments(raw, tail);
      LineCount(text) == (if !dropped then LineCount(raw) else if Unfinished(raw) == "" then tail - 1 else tail) &&
      (dropped <==> |Lines(raw)| >= tail)
  {
    SegmentsAreLines(raw);
    var segments := Segments(raw);
    if |segments| > tail {
      var pos := TailStart(raw, tail);
      ScanStops(raw, pos, tail);
      var text := raw[pos + 1..];
      HeadIsNewline(raw[pos..]);
      assert raw[pos..][1..] == text;
      SegmentsAreLines(text);
      SegmentsAround(raw, pos);
      assert segments[|segments| - 1] == Segments(text)[|Segments(text)| - 1];
    } else {
      JoinSegments(raw);
    }
  }

  lemma {:induction false} TailStart(raw: string, tail: nat) returns (pos: nat)
    requires 1 <= tail < |Segments(raw)|
    ensures pos < |raw| && raw[pos] == '\n' && |Segments(raw[pos..])| == tail + 1
    decreases |raw|
  {
    hide LineFeed;
    if raw[0] != '\n' {
      HeadIsText(raw);
      pos := TailStart(raw[1..], tail);
      assert raw[1..][pos..] == raw[pos + 1..];
      pos := pos + 1;
    } else {
      HeadIsNewline(raw);
      if |Segments(raw)| == tail + 1 {
        assert raw[0..] == raw;
        return 0;
      }
      pos := TailStart(raw[1..], tail);
      assert raw[1..][pos..] == raw[pos + 1..];
      pos := pos + 1;
    }
  }

  // ----- Incremental reads -----

  lemma {:induction false} BytesAppend(codec: Codec, a: string, b: string)
    ensures Bytes(codec, a + b) == Bytes(codec, a) + Bytes(codec, b)
  {
    if a == "" {
      assert a + b == b;
    } else {
      BytesAppend(codec, a[1..], b);
      assert (a + b)[1..] == a[1..] + b;
    }
  }

  /** Reading from the byte total of an earlier state of the stream gives exactly what was appended since. */
  lemma SinceGivesTheRest(codec: Codec, seen: string, more: string)
    requires Faithful(codec)
    ensures Filter(codec, seen + more, Some(|Bytes(codec, seen)|), None)
         == Filtered(more, |Bytes(codec, seen + more)|, seen != "" && more != "")
  {
    BytesAppend(codec, seen, more);
    assert Bytes(codec, seen + more)[|Bytes(codec, seen)|..] == Bytes(codec, more);
    if more != "" {
      assert codec.encode(more[0]) != [];
    }
    if seen != "" {
      assert codec.encode(seen[0]) != [];
    }
  }

  /** Polls of one growing stream, each from the byte total the previous one reported. */
  function Reads(codec: Codec, seen: string, appended: seq<string>): seq<string>
    decreases |appended|
  {
    if appended == [] then []
    else
      var now := seen + appended[0];
      [Filter(codec, now, Some(|Bytes(codec, seen)|), None).text] + Reads(codec, now, appended[1..])
  }

  /** Main result: however the output grows between polls, the polls return it all, once and in order. */
  lemma {:induction false} ReadsSpellTheStream(codec: Codec, seen: string, appended: seq<string>)
    requires Faithful(codec)
    ensures Reads(codec, seen, appended) == appended
    decreases |appended|
  {
    hide Filter, Bytes, Faithful;
    if appended != [] {
      SinceGivesTheRest(codec, seen, appended[0]);
      ReadsSpellTheStream(codec, seen + appended[0], appended[1..]);
    }
  }

  // ----- Combined polls apply one offset to two streams -----

  /** The combined response: the two texts joined, the two byte counts added, the same `since` for both streams. */
  function Combined(codec: Codec, out: string, err: string, since: Option<nat>): (string, nat)
  {
    var o, e := Filter(codec, out, since, None), Filter(codec, err, since, None);
    (o.text + e.text, o.totalBytes + e.totalBytes)
  }

  /** When neither stream makes the other skip, nothing is lost in any encoding. */
  lemma CombinedReadsAreComplete(codec: Codec, out: string, err: string, moreOut: string, moreErr: string)
    requires Faithful(codec) && (err == "" || moreOut == "") && (out == "" || moreErr == "")
    ensures
      var since := Combined(codec, out, err, None).1;
      Combined(codec, out + moreOut, err + moreErr, Some(since)).0 == moreOut + moreErr
  {
    hide Filter, Bytes;
    WholeCount(codec, out);
    WholeCount(codec, err);
    OneStreamComplete(codec, out, err, moreOut);
    OneStreamComplete(codec, err, out, moreErr);
  }

  lemma OneStreamComplete(codec: Codec, seen: string, other: string, more: string)
    requires Faithful(codec) && (other == "" || more == "")
    ensures Filter(codec, seen + more, Some(|Bytes(codec, seen)| + |Bytes(codec, other)|), None).text == more
  {
    hide Filter, Bytes;
    if other == "" {
      NoBytes(codec);
      SinceGivesTheRest(codec, seen, more);
    } else {
      assert seen + more == seen;
      PastTheEnd(codec, seen, |Bytes(codec, other)|);
    }
  }

  lemma NoBytes(codec: Codec)
    ensures Bytes(codec, "") == []
  {
  }

  lemma PastTheEnd(codec: Codec, s: string, extra: nat)
    ensures Filter(codec, s, Some(|Bytes(codec, s)| + extra), None).text == ""
  {
    hide Bytes, LastSegments;
  }

  lemma WholeCount(codec: Codec, s: string)
    ensures Filter(codec, s, None, None).totalBytes == |Bytes(codec, s)|
  {
  }

  lemma SkippedText(codec: Codec, seen: string, other: string, more: string)
    ensures
      var extra := |Bytes(codec, other)|;
      Filter(codec, seen + more, Some(|Bytes(codec, seen)| + extra), None).text
      == if extra >= |Bytes(codec, more)| then "" else Cut(codec, more, extra)
  {
    hide Bytes, LastSegments;
    BytesAppend(codec, seen, more);
    var extra := |Bytes(codec, other)|;
    if extra < |Bytes(codec, more)| {
      assert Bytes(codec, seen + more)[|Bytes(codec, seen)| + extra..] == Bytes(codec, more)[extra..];
    }
  }

  lemma CutIsShorter(codec: Codec, more: string, n: nat)
    requires Faithful(codec) && MarksCuts(codec) && n <= |Bytes(codec, more)| && REPLACEMENT !in Cut(codec, more, n)
    ensures |Cut(codec, more, n)| <= |more| && (n > 0 ==> |Cut(codec, more, n)| < |more|)
  {
    hide Bytes;
    assert AtBoundary(codec, more, n);
    var k: nat :| k <= |more| && |Bytes(codec, more[..k])| == n;
    BytesAppend(codec, more[..k], more[k..]);
    SplitAround(more, k);
    assert Bytes(codec, more)[n..] == Bytes(codec, more[k..]);
    SomeBytes(codec, more[..k]);
  }

  /** A stream that skips: unless a cut shows, a shorter end of the new text is left. */
  lemma SkippedIsShorter(codec: Codec, seen: string, other: string, more: string)
    requires Faithful(codec) && MarksCuts(codec)
    ensures
      var text := Filter(codec, seen + more, Some(|Bytes(codec, seen)| + |Bytes(codec, other)|), None).text;
      REPLACEMENT in text || (|text| <= |more| && (other != "" && more != "" ==> |text| < |more|))
  {
    hide Bytes, LastSegments, Filter, MarksCuts, Faithful, Cut;
    SkippedText(codec, seen, other, more);
    SomeBytes(codec, other);
    var extra := |Bytes(codec, other)|;
    if extra < |Bytes(codec, more)| && REPLACEMENT !in Cut(codec, more, extra) {
      CutIsShorter(codec, more, extra);
    }
  }

  lemma SomeBytes(codec: Codec, s: string)
    requires Faithful(codec)
    ensures Bytes(codec, s) == [] <==> s == ""
  {
    if s != "" {
      assert codec.encode(s[0]) != [];
    }
  }

  /**
    Polling both streams in one response and passing its byte count on: for output without replacement characters the
    next poll returns all of it iff neither stream had produced bytes that make the other one skip.
   */
  lemma CombinedReadsAreCompleteIff(codec: Codec, out: string, err: string, moreOut: string, moreErr: string)
    requires Faithful(codec) && MarksCuts(codec) && REPLACEMENT !in moreOut + moreErr
    ensures
      var since := Combined(codec, out, err, None).1;
      Combined(codec, out + moreOut, err + moreErr, Some(since)).0 == moreOut + moreErr
      <==> (err == "" || moreOut == "") && (out == "" || moreErr == "")
  {
    hide Filter, Bytes, MarksCuts;
    WholeCount(codec, out);
    WholeCount(codec, err);
    if (err == "" || moreOut == "") && (out == "" || moreErr == "") {
      CombinedReadsAreComplete(codec, out, err, moreOut, moreErr);
    } else {
      SkippedIsShorter(codec, out, err, moreOut);
      SkippedIsShorter(codec, err, out, moreErr);
      var since := |Bytes(codec, out)| + |Bytes(codec, err)|;
      var a := Filter(codec, out + moreOut, Some(since), None).text;
      var b := Filter(codec, err + moreErr, Some(since), None).text;
      assert REPLACEMENT in a || REPLACEMENT in b ==> REPLACEMENT in a + b;
    }
  }
}
