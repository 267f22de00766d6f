/** UTF-8 (RFC 3629, section 3) as the encoding of process output. */
module Utf8 {
  import opened Prelude
  import opened ProcessPoll

  function Encode(c: char): seq<byte>
  {
    var n := c as int;
    if n < 0x80 then [n]
    else if n < 0x800 then [0xC0 + n / 64, 0x80 + n % 64]
    else if n < 0x10000 then [0xE0 + n / 4096, 0x80 + n / 64 % 64, 0x80 + n % 64]
    else [0xF0 + n / 262144, 0x80 + n / 4096 % 64, 0x80 + n / 64 % 64, 0x80 + n % 64]
  }

  predicate Continues(bytes: seq<byte>, from: nat, to: nat)
  {
    to <= |bytes| && forall i :: from <= i < to ==> 0x80 <= bytes[i] < 0xC0
  }

  predicate IsScalar(n: int)
  {
    0 <= n < 0xD800 || 0xE000 <= n <= 0x10FFFF
  }

  function Payload(b: byte): int
  {
    b as int - 0x80
  }

  /** The character that starts here, with its length. */
  function First(bytes: seq<byte>): (r: Option<(char, nat)>)
    requires bytes != []
    ensures r.Some? ==> 1 <= r.value.1 <= |bytes|
  {
    var b := bytes[0] as int;
    if b < 0x80 then Some((b as char, 1))
    else if 0xC0 <= b < 0xE0 && Continues(bytes, 1, 2) then
      var n := (b - 0xC0) * 64 + Payload(bytes[1]);
      if n >= 0x80 then Some((n as char, 2)) else None
    else if 0xE0 <= b < 0xF0 && Continues(bytes, 1, 3) then
      var n := (b - 0xE0) * 4096 + Payload(bytes[1]) * 64 + Payload(bytes[2]);
      if n >= 0x800 && IsScalar(n) then Some((n as char, 3)) else None
    else if 0xF0 <= b && Continues(bytes, 1, 4) then
      var n := (b - 0xF0) * 262144 + Payload(bytes[1]) * 4096 + Payload(bytes[2]) * 64 + Payload(bytes[3]);
      if n >= 0x10000 && IsScalar(n) then Some((n as char, 4)) else None
    else None
  }

  /** A byte that starts no character, as behind a cut, is read as a replacement character. */
  function Decode(bytes: seq<byte>): string
    decreases |bytes|
  {
    if bytes == [] then ""
    else match First(bytes)
      case None => [REPLACEMENT] + Decode(bytes[1..])
      case Some((c, n)) => [c] + Decode(bytes[n..])
  }

  const UTF8 := Codec(Encode, Decode)

  /** Digits to the base 64. */
  lemma Digits(n: nat)
    ensures n == n / 64 * 64 + n % 64
    ensures n / 64 == n / 4096 * 64 + n / 64 % 64
    ensures n / 4096 == n / 262144 * 64 + n / 4096 % 64
  {
    assert n / 64 / 64 == n / 4096;
    assert n / 4096 / 64 == n / 262144;
  }

  lemma ShortIsEncoded(c: char, rest: seq<byte>)
    requires c as int < 0x800
    ensures First(Encode(c) + rest) == Some((c, |Encode(c)|))
  {
    var n, bytes := c as int, Encode(c) + rest;
    Digits(n);
    assert bytes[0] == if n < 0x80 then n else 0xC0 + n / 64;
    assert n >= 0x80 ==> bytes[1] == 0x80 + n % 64;
  }

  lemma ThreeAreEncoded(c: char, rest: seq<byte>)
    requires 0x800 <= c as int < 0x10000
    ensures First(Encode(c) + rest) == Some((c, |Encode(c)|))
  {
    var n, bytes := c as int, Encode(c) + rest;
    Digits(n);
    assert bytes[0] == 0xE0 + n / 4096 && bytes[1] == 0x80 + n / 64 % 64 && bytes[2] == 0x80 + n % 64;
  }

  lemma FourAreEncoded(c: char, rest: seq<byte>)
    requires 0x10000 <= c as int
    ensures First(Encode(c) + rest) == Some((c, |Encode(c)|))
  {
    var n, bytes := c as int, Encode(c) + rest;
    Digits(n);
    assert bytes[0] == 0xF0 + n / 262144 && bytes[1] == 0x80 + n / 4096 % 64;
    assert bytes[2] == 0x80 + n / 64 % 64 && bytes[3] == 0x80 + n % 64;
  }

  lemma FirstIsEncoded(c: char, rest: seq<byte>)
    ensures First(Encode(c) + rest) == Some((c, |Encode(c)|))
  {
    hide First, Encode;
    if c as int < 0x800 {
      ShortIsEncoded(c, rest);
    } else if c as int < 0x10000 {
      ThreeAreEncoded(c, rest);
    } else {
      FourAreEncoded(c, rest);
    }
  }

  lemma {:induction false} DecodeBytes(s: string)
    ensures Decode(Bytes(UTF8, s)) == s
    decreases |s|
  {
    hide First, Encode;
    if s != "" {
      var rest := Bytes(UTF8, s[1..]);
      DecodeBytes(s[1..]);
      FirstIsEncoded(s[0], rest);
      EncodeIsNotEmpty(s[0]);
      assert (Encode(s[0]) + rest)[|Encode(s[0])|..] == rest;
      HeadAndTail(s);
    }
  }

  lemma EncodeIsNotEmpty(c: char)
    ensures Encode(c) != []
  {
  }

  lemma Utf8IsFaithful()
    ensures Faithful(UTF8)
  {
    hide Decode, Encode, Bytes;
    forall s ensures UTF8.decode(Bytes(UTF8, s)) == s {
      DecodeBytes(s);
    }
    forall c ensures UTF8.encode(c) != [] {
      EncodeIsNotEmpty(c);
    }
  }

  /** Within a character there are only bytes that start none. */
  lemma CutIsMarked(c: char, rest: seq<byte>, n: nat)
    requires 0 < n < |Encode(c)|
    ensures
      var bytes := (Encode(c) + rest)[n..];
      bytes != [] && First(bytes) == None
  {
    assert (Encode(c) + rest)[n..][0] == Encode(c)[n];
  }

  lemma BytesHead(s: string)
    requires s != ""
    ensures Bytes(UTF8, s) == Encode(s[0]) + Bytes(UTF8, s[1..])
  {
    hide Encode;
  }

  /** A boundary of the rest is one of the whole. */
  lemma BoundaryBehindHead(s: string, n: nat)
    requires s != "" && AtBoundary(UTF8, s[1..], n)
    ensures AtBoundary(UTF8, s, |Encode(s[0])| + n)
  {
    hide Encode, Bytes;
    var k: nat :| k <= |s| - 1 && |Bytes(UTF8, s[1..][..k])| == n;
    assert s[..k + 1][1..] == s[1..][..k];
    BytesHead(s[..k + 1]);
    assert |Bytes(UTF8, s[..k + 1])| == |Encode(s[0])| + n;
  }

  lemma MarkedHead(c: char, rest: seq<byte>, n: nat)
    requires 0 < n < |Encode(c)|
    ensures REPLACEMENT in Decode((Encode(c) + rest)[n..])
  {
    hide Encode, First;
    CutIsMarked(c, rest, n);
  }

  lemma {:induction false} CutsAreMarked(s: string, n: nat)
    requires n <= |Bytes(UTF8, s)|
    ensures AtBoundary(UTF8, s, n) || REPLACEMENT in Cut(UTF8, s, n)
    decreases |s|
  {
    hide Encode, First, Bytes, Decode, AtBoundary;
    NothingIsBoundary(s);
    if n > 0 {
      BytesHead(s);
      var own, rest := Encode(s[0]), Bytes(UTF8, s[1..]);
      if n < |own| {
        MarkedHead(s[0], rest, n);
      } else {
        CutsAreMarked(s[1..], n - |own|);
        assert (own + rest)[n..] == rest[n - |own|..];
        if AtBoundary(UTF8, s[1..], n - |own|) {
          BoundaryBehindHead(s, n - |own|);
        }
      }
    }
  }

  lemma NothingIsBoundary(s: string)
    ensures AtBoundary(UTF8, s, 0) && (s == "" ==> Bytes(UTF8, s) == [])
  {
    assert s[..0] == "" && |Bytes(UTF8, "")| == 0;
  }

  lemma Utf8MarksCuts()
    ensures MarksCuts(UTF8)
  {
    hide Bytes, Cut, AtBoundary;
    forall s, n: nat | n <= |Bytes(UTF8, s)| ensures AtBoundary(UTF8, s, n) || REPLACEMENT in Cut(UTF8, s, n) {
      CutsAreMarked(s, n);
    }
  }

  /** Real output, polled through one response: complete iff no stream makes the other skip. */
  lemma PolledOutputIsCompleteIff(out: string, err: string, moreOut: string, moreErr: string)
    requires REPLACEMENT !in moreOut + moreErr
    ensures
      var since := Combined(UTF8, out, err, None).1;
      Combined(UTF8, out + moreOut, err + moreErr, Some(since)).0 == moreOut + moreErr
      <==> (err == "" || moreOut == "") && (out == "" || moreErr == "")
  {
    hide Combined;
    Utf8IsFaithful();
    Utf8MarksCuts();
    CombinedReadsAreCompleteIff(UTF8, out, err, moreOut, moreErr);
  }

  /** With replacement characters in the output itself a skip can go unnoticed: its rest looks like the whole. */
  lemma ReplacementHidesSkip()
    ensures
      var more := [REPLACEMENT];
      var since := Combined(UTF8, "", "ab", None).1;
      Combined(UTF8, more, "ab", Some(since)).0 == more
  {
    var more := [REPLACEMENT];
    assert more[1..] == "";
    assert Bytes(UTF8, "") == [];
    assert Bytes(UTF8, more) == [0xEF, 0xBF, 0xBD] + [];
    assert "ab"[1..] == "b" && "b"[1..] == "";
    assert Bytes(UTF8, "b") == [98] + [];
    assert Bytes(UTF8, "ab") == [97] + Bytes(UTF8, "b");
    var rest := Bytes(UTF8, more)[2..];
    assert rest == [0xBD] && rest[1..] == [];
    assert Decode(rest) == [REPLACEMENT] + Decode([]);
  }
}
