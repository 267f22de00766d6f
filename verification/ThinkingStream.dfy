/** Whole streams: chunking does not matter for text, and exactly when streaming agrees with batch stripping. */
module ThinkingStream {
  import opened Prelude
  import opened ThinkingNormalizer
  import opened ThinkingTokens

  // ----- Any number of processChunk calls followed by flush -----

  /** The outputs of the successive `ProcessChunk` calls and the state after the last one. */
  function Calls(st: Norm, chunks: seq<string>): (Norm, seq<Output>)
    decreases |chunks|
  {
    if chunks == [] then (st, [])
    else
      var (mid, first) := Run(st, chunks[0]);
      var (end, rest) := Calls(mid, chunks[1..]);
      (end, [first] + rest)
  }

  function Texts(outs: seq<Output>): string
  {
    if outs == [] then "" else outs[0].text + Texts(outs[1..])
  }

  /** Each call hands out only the last block it completed. */
  function Thinkings(outs: seq<Output>): string
  {
    if outs == [] then "" else OrEmpty(LastReport(outs[0].reports)) + Thinkings(outs[1..])
  }

  function Reported(outs: seq<Output>): string
  {
    if outs == [] then "" else Flatten(outs[0].reports) + Reported(outs[1..])
  }

  /** All text a consumer receives from the calls and the final flush. */
  function StreamedText(chunks: seq<string>): string
  {
    Texts(Calls(START, chunks).1) + Calls(START, chunks).0.buffer
  }

  function StreamedThinking(chunks: seq<string>): string
  {
    Thinkings(Calls(START, chunks).1) + Calls(START, chunks).0.thinking
  }

  lemma {:induction false} CallsAreOneRun(st: Norm, chunks: seq<string>)
    ensures Calls(st, chunks).0 == Run(st, Flatten(chunks)).0
    ensures Texts(Calls(st, chunks).1) == Run(st, Flatten(chunks)).1.text
    ensures Reported(Calls(st, chunks).1) == Flatten(Run(st, Flatten(chunks)).1.reports)
    decreases |chunks|
  {
    hide Run;
    if chunks == [] {
      RunNothing(st);
    } else {
      var (mid, first) := Run(st, chunks[0]);
      CallsAreOneRun(mid, chunks[1..]);
      RunAppend(st, chunks[0], Flatten(chunks[1..]));
      FlattenAppend(first.reports, Run(mid, Flatten(chunks[1..])).1.reports);
      assert ([first] + Calls(mid, chunks[1..]).1)[1..] == Calls(mid, chunks[1..]).1;
    }
  }

  /** Main result: the text received depends only on the whole string, and is the text of its tokens. */
  lemma TextIsChunkInvariant(chunks: seq<string>)
    ensures StreamedText(chunks) == PlainText(Tokens(Flatten(chunks), false))
  {
    hide Run, Tokens;
    CallsAreOneRun(START, chunks);
    MachineReadsTokens(Text, "", Flatten(chunks));
  }

  // ----- Thinking text, by contrast, can be lost -----

  /** Some call completes two or more non-empty thinking blocks. */
  predicate CompletesTwoAtOnce(outs: seq<Output>)
  {
    exists i :: 0 <= i < |outs| && |outs[i].reports| >= 2
  }

  lemma LastReportVersusAll(reports: seq<string>)
    requires forall r :: r in reports ==> r != ""
    ensures |OrEmpty(LastReport(reports))| <= |Flatten(reports)|
    ensures OrEmpty(LastReport(reports)) == Flatten(reports) <==> |reports| <= 1
    ensures |reports| >= 2 ==> |OrEmpty(LastReport(reports))| < |Flatten(reports)|
  {
    if |reports| >= 1 {
      var n := |reports| - 1;
      assert reports == reports[..n] + [reports[n]];
      FlattenSnoc(reports[..n], reports[n]);
      if n >= 1 {
        assert reports[..n][0] == reports[0];
        assert reports[0] in reports;
      }
    }
  }

  lemma {:induction false} ThinkingsVersusReported(st: Norm, chunks: seq<string>)
    requires ValidNorm(st)
    ensures var outs := Calls(st, chunks).1;
            && |Thinkings(outs)| <= |Reported(outs)|
            && (CompletesTwoAtOnce(outs) ==> |Thinkings(outs)| < |Reported(outs)|)
            && (!CompletesTwoAtOnce(outs) ==> Thinkings(outs) == Reported(outs))
    decreases |chunks|
  {
    hide Run, ValidNorm;
    if chunks != [] {
      var (mid, first) := Run(st, chunks[0]);
      RunValid(st, chunks[0]);
      var rest := Calls(mid, chunks[1..]).1;
      ThinkingsVersusReported(mid, chunks[1..]);
      LastReportVersusAll(first.reports);
      var outs := [first] + rest;
      assert outs[1..] == rest && outs[0] == first;
      assert CompletesTwoAtOnce(outs) <==> |first.reports| >= 2 || CompletesTwoAtOnce(rest) by {
        if CompletesTwoAtOnce(rest) {
          var i :| 0 <= i < |rest| && |rest[i].reports| >= 2;
          assert outs[i + 1] == rest[i];
        }
        if i :| 0 <= i < |outs| && |outs[i].reports| >= 2 {
          assert i == 0 || rest[i - 1] == outs[i];
        }
      }
    }
  }

  /** A call that completes two blocks loses the first; otherwise everything is delivered. */
  lemma KeptUnlessTwoAtOnce(chunks: seq<string>)
    ensures StreamedThinking(chunks) == ThoughtText(Tokens(Flatten(chunks), false))
       <==> !CompletesTwoAtOnce(Calls(START, chunks).1)
  {
    hide Run, Tokens, CompletesTwoAtOnce;
    CallsAreOneRun(START, chunks);
    MachineReadsTokens(Text, "", Flatten(chunks));
    StartIsValid();
    ThinkingsVersusReported(START, chunks);
  }

  lemma StartIsValid()
    ensures ValidNorm(START)
  {
  }

  /** The calls a stream consumer makes on one normalizer. */
  method NormalizeStream(chunks: seq<string>) returns (text: string)
    ensures text == PlainText(Tokens(Flatten(chunks), false))
  {
    var normalizer := new ThinkingStreamNormalizer();
    text := "";
    ghost var outs := [];
    for i := 0 to |chunks|
      invariant fresh(normalizer) && normalizer.Valid()
      invariant Calls(START, chunks[..i]) == (normalizer.Model(), outs)
      invariant text == Texts(outs)
    {
      ghost var out := Run(normalizer.Model(), chunks[i]).1;
      CallsSnoc(START, chunks, i);
      var _, piece := normalizer.ProcessChunk(chunks[i]);
      TextsSnoc(outs, out);
      outs := outs + [out];
      if piece.Some? {
        text := text + piece.value;
      }
    }
    assert chunks[..|chunks|] == chunks;
    ghost var buffer := normalizer.buffer;
    var _, last := normalizer.Flush();
    if last.Some? {
      text := text + last.value;
    }
    assert text == Texts(outs) + buffer;
    TextIsChunkInvariant(chunks);
  }

  lemma {:induction false} CallsSnoc(st: Norm, chunks: seq<string>, i: nat)
    requires i < |chunks|
    ensures var (mid, outs) := Calls(st, chunks[..i]);
            Calls(st, chunks[..i + 1]) == (Run(mid, chunks[i]).0, outs + [Run(mid, chunks[i]).1])
    decreases i
  {
    hide Run;
    var (next, first) := Run(st, chunks[0]);
    assert chunks[..i + 1][0] == chunks[0] && chunks[..i + 1][1..] == chunks[1..][..i];
    if i == 0 {
      assert [] + [first] == [first] + [];
    } else {
      CallsSnoc(next, chunks[1..], i - 1);
      assert chunks[..i][1..] == chunks[1..][..i - 1];
      var (mid, outs) := Calls(next, chunks[1..][..i - 1]);
      assert ([first] + outs) + [Run(mid, chunks[i]).1] == [first] + (outs + [Run(mid, chunks[i]).1]);
    }
  }

  lemma {:induction false} TextsSnoc(outs: seq<Output>, out: Output)
    ensures Texts(outs + [out]) == Texts(outs) + out.text
  {
    if outs != [] {
      TextsSnoc(outs[1..], out);
      assert (outs + [out])[1..] == outs[1..] + [out];
    }
  }
}
