/** The failover chain: try providers in order, skipping the ones known to fail, and report to the hooks. */
module Failover {
  import opened Prelude

  datatype Entry = Entry(
    providerId: string, model: string, thinkingFormat: Option<string>, capabilityFormat: Option<string>)

  /** What the classifier says of an error is part of the error here. */
  datatype Error = Error(message: string, eligible: bool)

  datatype Answer<T> = Success(value: T) | Failure(error: Error)

  /** Provider calls and hook calls in the order they happen, by position in the chain. */
  datatype Event = Called(at: nat) | Exhausted(at: nat, message: string, nextRef: Option<string>) | Succeeded(at: nat)

  datatype Output<T> = Output(
    value: T, usedProviderId: string, usedModel: string, degraded: bool, thinkingFormat: Option<string>)

  /** `Threw(None)` is the undefined thrown when every entry is skipped. */
  datatype Result<T> = Ok(output: Output<T>) | EmptyChain | Threw(error: Option<Error>)

  /**
    The surroundings of one request. `skip` is what the failure hook answers for an entry after the events so far;
    a missing hook never skips. `answer` is what the provider call at a position gives.
   */
  datatype Env<!T> = Env(
    chain: seq<Entry>, skip: (nat, seq<Event>) -> bool, answer: nat -> Answer<T>, inputFormat: Option<string>)

  function Format(inputFormat: Option<string>, entry: Entry): Option<string>
  {
    if inputFormat.Some? then inputFormat
    else if entry.thinkingFormat.Some? then entry.thinkingFormat
    else entry.capabilityFormat
  }

  function Build<T>(env: Env<T>, i: nat, value: T): Output<T>
    requires i < |env.chain|
  {
    Output(value, env.chain[i].providerId, env.chain[i].model, i > 0, Format(env.inputFormat, env.chain[i]))
  }

  /** How the next hop is named to the exhausted hook. */
  function NextRef<T>(env: Env<T>, i: nat): Option<string>
  {
    if i + 1 < |env.chain| then Some(env.chain[i + 1].providerId + "/" + env.chain[i + 1].model) else None
  }

  /** The rest of the request from position `i` on. */
  function Iterate<T>(env: Env<T>, i: nat, log: seq<Event>, lastErr: Option<Error>): (Result<T>, seq<Event>)
    requires i <= |env.chain|
    decreases |env.chain| - i
  {
    if i == |env.chain| then (Threw(lastErr), log)
    else if env.skip(i, log) then Iterate(env, i + 1, log, lastErr)
    else
      match env.answer(i)
      case Success(v) => (Ok(Build(env, i, v)), log + [Called(i), Succeeded(i)])
      case Failure(e) =>
        if !e.eligible then (Threw(Some(e)), log + [Called(i)])
        else if i + 1 < |env.chain| then
          Iterate(env, i + 1, log + [Called(i), Exhausted(i, e.message, NextRef(env, i))], Some(e))
        else (Threw(Some(e)), log + [Called(i), Exhausted(i, e.message, None)])
  }

  function Outcome<T>(env: Env<T>): (Result<T>, seq<Event>)
  {
    if env.chain == [] then (EmptyChain, []) else Iterate(env, 0, [], None)
  }

  method IterateFailoverChain<T>(env: Env<T>) returns (result: Result<T>, log: seq<Event>)
    ensures (result, log) == Outcome(env)
  {
    log := [];
    if |env.chain| == 0 {
      return EmptyChain, log;
    }
    var lastErr: Option<Error> := None;
    var i := 0;
    while i < |env.chain|
      invariant 0 <= i <= |env.chain|
      invariant Iterate(env, i, log, lastErr) == Outcome(env)
    {
      var entry := env.chain[i];
      if env.skip(i, log) {
        i := i + 1;
        continue;
      }
      var before := log;
      log := log + [Called(i)];
      match env.answer(i) {
        case Success(v) =>
          log := log + [Succeeded(i)];
          assert log == before + [Called(i), Succeeded(i)];
          return Ok(Output(v, entry.providerId, entry.model, i > 0, Format(env.inputFormat, entry))), log;
        case Failure(e) =>
          lastErr := Some(e);
          var more := i < |env.chain| - 1;
          if more && e.eligible {
            var next := env.chain[i + 1];
            log := log + [Exhausted(i, e.message, Some(next.providerId + "/" + next.model))];
            assert log == before + [Called(i), Exhausted(i, e.message, NextRef(env, i))];
            i := i + 1;
            continue;
          }
          if e.eligible {
            log := log + [Exhausted(i, e.message, None)];
            assert log == before + [Called(i), Exhausted(i, e.message, None)];
          }
          return Threw(lastErr), log;
      }
    }
    return Threw(lastErr), log;
  }

  // ----- What a finished request looks like -----

  predicate EligibleFailure<T>(env: Env<T>, i: nat)
  {
    env.answer(i).Failure? && env.answer(i).error.eligible
  }

  /** The events of one attempt that failed and let the request go on. */
  function Attempt<T>(env: Env<T>, i: nat): seq<Event>
    requires EligibleFailure(env, i)
  {
    [Called(i), Exhausted(i, env.answer(i).error.message, NextRef(env, i))]
  }

  /** The attempts at these positions all failed with eligible errors; these are their events. */
  function Attempts<T>(env: Env<T>, tried: seq<nat>): seq<Event>
    requires forall k :: 0 <= k < |tried| ==> EligibleFailure(env, tried[k])
  {
    if tried == [] then []
    else Attempts(env, tried[..|tried| - 1]) + Attempt(env, tried[|tried| - 1])
  }

  /** Positions in chain order, below `end`. */
  ghost predicate Positions(tried: seq<nat>, end: nat)
  {
    (forall k :: 0 <= k < |tried| ==> tried[k] < end) && forall k, l :: 0 <= k < l < |tried| ==> tried[k] < tried[l]
  }

  /** Every position below `end` that is not tried was skipped, after the attempts at the positions in front of it. */
  ghost predicate RestSkipped<T>(env: Env<T>, tried: seq<nat>, end: nat)
    requires forall k :: 0 <= k < |tried| ==> EligibleFailure(env, tried[k])
  {
    forall i :: 0 <= i < end && i !in tried ==> SkippedAt(env, tried, i)
  }

  ghost predicate SkippedAt<T>(env: Env<T>, tried: seq<nat>, i: nat)
    requires forall k :: 0 <= k < |tried| ==> EligibleFailure(env, tried[k])
  {
    exists n: nat :: n <= |tried| && (forall k :: 0 <= k < |tried| ==> (tried[k] < i <==> k < n)) &&
      env.skip(i, Attempts(env, tried[..n]))
  }

  /** A position that was called had not been skipped. */
  ghost predicate NotSkipped<T>(env: Env<T>, tried: seq<nat>)
    requires forall k :: 0 <= k < |tried| ==> EligibleFailure(env, tried[k])
  {
    forall k :: 0 <= k < |tried| ==> !env.skip(tried[k], Attempts(env, tried[..k]))
  }

  /** The first `end` positions are dealt with: some tried in vain, the others skipped. */
  ghost predicate Passed<T>(env: Env<T>, tried: seq<nat>, end: nat)
  {
    end <= |env.chain| && Positions(tried, end) &&
    (forall k :: 0 <= k < |tried| ==> EligibleFailure(env, tried[k])) &&
    RestSkipped(env, tried, end) && NotSkipped(env, tried)
  }

  /**
    A finished request. Either position `stop` was not skipped and ended it, by success or by an error that is not
    eligible, or the whole chain was gone through and the error of the last attempt, if any, is thrown.
   */
  ghost predicate Finished<T>(env: Env<T>, tried: seq<nat>, stop: nat, result: Result<T>, log: seq<Event>)
  {
    stop <= |env.chain| && Passed(env, tried, stop) &&
    var attempts := Attempts(env, tried);
    if stop == |env.chain| then
      log == attempts && result == Threw(if tried == [] then None else Some(env.answer(tried[|tried| - 1]).error))
    else
      !env.skip(stop, attempts) && !EligibleFailure(env, stop) &&
      match env.answer(stop)
      case Success(v) => log == attempts + [Called(stop), Succeeded(stop)] && result == Ok(Build(env, stop, v))
      case Failure(e) => log == attempts + [Called(stop)] && result == Threw(Some(e))
  }

  lemma SkipExtends<T>(env: Env<T>, tried: seq<nat>, i: nat)
    requires Passed(env, tried, i) && i < |env.chain| && env.skip(i, Attempts(env, tried))
    ensures Passed(env, tried, i + 1)
  {
    hide Attempts, EligibleFailure;
    assert tried[..|tried|] == tried;
    assert SkippedAt(env, tried, i);
  }

  lemma AttemptExtends<T>(env: Env<T>, tried: seq<nat>, i: nat)
    requires Passed(env, tried, i) && i < |env.chain| && EligibleFailure(env, i)
    requires !env.skip(i, Attempts(env, tried))
    ensures Passed(env, tried + [i], i + 1)
    ensures Attempts(env, tried + [i]) == Attempts(env, tried) + Attempt(env, i)
  {
    hide EligibleFailure, Attempt, Attempts, RestSkipped, NotSkipped;
    var more := tried + [i];
    assert more[..|more| - 1] == tried;
    AttemptsSnoc(env, tried, i);
    RestStaysSkipped(env, tried, i);
    assert NotSkipped(env, more) by { NoneSkipped(env, tried, i); }
  }

  lemma AttemptsSnoc<T>(env: Env<T>, tried: seq<nat>, i: nat)
    requires (forall k :: 0 <= k < |tried| ==> EligibleFailure(env, tried[k])) && EligibleFailure(env, i)
    ensures Attempts(env, tried + [i]) == Attempts(env, tried) + Attempt(env, i)
  {
    hide EligibleFailure, Attempt;
    assert (tried + [i])[..|tried|] == tried;
  }

  lemma NoneSkipped<T>(env: Env<T>, tried: seq<nat>, i: nat)
    requires (forall k :: 0 <= k < |tried| ==> EligibleFailure(env, tried[k])) && EligibleFailure(env, i)
    requires NotSkipped(env, tried) && !env.skip(i, Attempts(env, tried))
    ensures NotSkipped(env, tried + [i])
  {
    hide EligibleFailure, Attempts;
    var more := tried + [i];
    forall k | 0 <= k < |more| ensures !env.skip(more[k], Attempts(env, more[..k])) {
      assert more[..k] == tried[..k];
      assert tried[..|tried|] == tried;
    }
  }

  lemma RestStaysSkipped<T>(env: Env<T>, tried: seq<nat>, i: nat)
    requires (forall k :: 0 <= k < |tried| ==> EligibleFailure(env, tried[k])) && EligibleFailure(env, i)
    requires RestSkipped(env, tried, i)
    ensures RestSkipped(env, tried + [i], i + 1)
  {
    hide EligibleFailure, Attempts;
    var more := tried + [i];
    forall j | 0 <= j < i + 1 && j !in more ensures SkippedAt(env, more, j) {
      assert more[|tried|] == i;
      assert forall k :: 0 <= k < |tried| ==> more[k] == tried[k];
      assert SkippedAt(env, tried, j);
      var n: nat :| n <= |tried| && (forall k :: 0 <= k < |tried| ==> (tried[k] < j <==> k < n)) &&
        env.skip(j, Attempts(env, tried[..n]));
      assert more[..n] == tried[..n];
    }
  }

  lemma {:induction false} IterateFinishes<T>(
      env: Env<T>, i: nat, tried: seq<nat>, lastErr: Option<Error>) returns (all: seq<nat>, stop: nat)
    requires Passed(env, tried, i)
    requires lastErr == if tried == [] then None else Some(env.answer(tried[|tried| - 1]).error)
    ensures
      var (result, log) := Iterate(env, i, Attempts(env, tried), lastErr);
      Finished(env, all, stop, result, log)
    decreases |env.chain| - i
  {
    hide Attempts, RestSkipped, Positions, NotSkipped;
    if i == |env.chain| {
      return tried, i;
    }
    if env.skip(i, Attempts(env, tried)) {
      SkipExtends(env, tried, i);
      all, stop := IterateFinishes(env, i + 1, tried, lastErr);
    } else if EligibleFailure(env, i) {
      AttemptExtends(env, tried, i);
      all, stop := IterateFinishes(env, i + 1, tried + [i], Some(env.answer(i).error));
      assert i + 1 == |env.chain| ==>
        Iterate(env, i + 1, Attempts(env, tried + [i]), Some(env.answer(i).error))
        == (Threw(Some(env.answer(i).error)), Attempts(env, tried + [i]));
    } else {
      return tried, i;
    }
  }

  /** Main result: every request over a non-empty chain is a finished request, for all hooks and all providers. */
  lemma RequestFinishes<T>(env: Env<T>) returns (tried: seq<nat>, stop: nat)
    requires env.chain != []
    ensures Finished(env, tried, stop, Outcome(env).0, Outcome(env).1)
  {
    tried, stop := IterateFinishes(env, 0, [], None);
  }

  // ----- Consequences -----

  lemma {:induction false} AttemptEvents<T>(env: Env<T>, tried: seq<nat>)
    requires forall k :: 0 <= k < |tried| ==> EligibleFailure(env, tried[k])
    ensures |Attempts(env, tried)| == 2 * |tried|
    ensures forall k :: 0 <= k < |tried| ==>
      Attempts(env, tried)[2 * k] == Called(tried[k]) &&
      Attempts(env, tried)[2 * k + 1] == Exhausted(tried[k], env.answer(tried[k]).error.message, NextRef(env, tried[k]))
    decreases |tried|
  {
    hide NextRef;
    if tried != [] {
      AttemptEvents(env, tried[..|tried| - 1]);
    }
  }

  /** A success names provider and model of the entry that answered, and says whether that was not the first. */
  lemma SuccessTells<T>(env: Env<T>)
    ensures
      var (result, log) := Outcome(env);
      result.Ok? ==>
        log != [] && log[|log| - 1].Succeeded? &&
        var i, out := log[|log| - 1].at, result.output;
        i < |env.chain| && env.answer(i) == Success(out.value) &&
        out.usedProviderId == env.chain[i].providerId && out.usedModel == env.chain[i].model &&
        (out.degraded <==> i != 0) &&
        (env.inputFormat.Some? ==> out.thinkingFormat == env.inputFormat) &&
        (env.inputFormat.None? && env.chain[i].thinkingFormat.Some? ==>
           out.thinkingFormat == env.chain[i].thinkingFormat) &&
        (env.inputFormat.None? && env.chain[i].thinkingFormat.None? ==>
           out.thinkingFormat == env.chain[i].capabilityFormat)
  {
    hide Outcome, Passed;
    if env.chain == [] {
      NoChain(env);
    } else {
      var tried, stop := RequestFinishes(env);
      PassedAreEligible(env, tried, stop);
    }
  }

  lemma NoChain<T>(env: Env<T>)
    requires env.chain == []
    ensures Outcome(env) == (EmptyChain, [])
  {
  }

  /** The exhausted hook names the next entry of the chain, or none behind the last. */
  lemma NextIsNamed<T>(env: Env<T>, i: nat)
    ensures i < |env.chain| - 1 ==>
      NextRef(env, i) == Some(env.chain[i + 1].providerId + "/" + env.chain[i + 1].model)
    ensures i >= |env.chain| - 1 ==> NextRef(env, i) == None
  {
  }

  /** The exhausted hook fires for exactly the eligible failures; success is reported once, at the very end. */
  lemma HooksFire<T>(env: Env<T>, i: nat)
    requires env.chain != []
    ensures
      var (result, log) := Outcome(env);
      ((exists m, next :: Exhausted(i, m, next) in log) <==> Called(i) in log && EligibleFailure(env, i)) &&
      (Succeeded(i) in log <==> Called(i) in log && env.answer(i).Success?) &&
      (result.Ok? <==> log != [] && log[|log| - 1].Succeeded?) &&
      (forall p :: 0 <= p < |log| && log[p].Succeeded? ==> p == |log| - 1)
  {
    hide Outcome, Finished;
    var tried, stop := RequestFinishes(env);
    ExhaustedIffEligible(env, i, tried, stop, Outcome(env).0, Outcome(env).1);
    SuccessOnlyAtEnd(env, i, tried, stop, Outcome(env).0, Outcome(env).1);
  }

  lemma ExhaustedIffEligible<T>(
      env: Env<T>, i: nat, tried: seq<nat>, stop: nat, result: Result<T>, log: seq<Event>)
    requires Finished(env, tried, stop, result, log)
    ensures (exists m, next :: Exhausted(i, m, next) in log) <==> Called(i) in log && EligibleFailure(env, i)
  {
    hide Finished, NextRef, EligibleFailure;
    WhoIsEligible(env, tried, stop, result, log);
    EventsByKind(env, tried, stop, result, log);
    if m, next :| Exhausted(i, m, next) in log {
      var p :| 0 <= p < |log| && log[p] == Exhausted(i, m, next);
      assert p % 2 == 1 && tried[p / 2] == i && log[p - 1] == Called(tried[(p - 1) / 2]);
    }
    if Called(i) in log && EligibleFailure(env, i) {
      var p :| 0 <= p < |log| && log[p] == Called(i);
      assert p != 2 * |tried|;
      assert log[p + 1] == Exhausted(i, log[p + 1].message, log[p + 1].nextRef);
    }
  }

  lemma SuccessOnlyAtEnd<T>(
      env: Env<T>, i: nat, tried: seq<nat>, stop: nat, result: Result<T>, log: seq<Event>)
    requires Finished(env, tried, stop, result, log)
    ensures Succeeded(i) in log <==> Called(i) in log && env.answer(i).Success?
    ensures result.Ok? <==> log != [] && log[|log| - 1].Succeeded?
    ensures forall p :: 0 <= p < |log| && log[p].Succeeded? ==> p == |log| - 1
  {
    hide Finished, NextRef, EligibleFailure;
    WhoIsEligible(env, tried, stop, result, log);
    EventsByKind(env, tried, stop, result, log);
    if Called(i) in log && env.answer(i).Success? {
      var p :| 0 <= p < |log| && log[p] == Called(i);
      EligibleFails(env, i);
      assert p == 2 * |tried| && i == stop;
      assert log[p + 1] == Succeeded(i);
    }
    if Succeeded(i) in log {
      var p :| 0 <= p < |log| && log[p] == Succeeded(i);
      assert p == 2 * |tried| + 1 && log[p - 1] == Called(i);
    }
  }

  lemma EligibleFails<T>(env: Env<T>, i: nat)
    ensures EligibleFailure(env, i) ==> !env.answer(i).Success?
  {
  }

  lemma WhoIsEligible<T>(env: Env<T>, tried: seq<nat>, stop: nat, result: Result<T>, log: seq<Event>)
    requires Finished(env, tried, stop, result, log)
    ensures forall k :: 0 <= k < |tried| ==> EligibleFailure(env, tried[k])
    ensures stop < |env.chain| ==> !EligibleFailure(env, stop)
  {
    PassedAreEligible(env, tried, stop);
  }

  lemma PassedAreEligible<T>(env: Env<T>, tried: seq<nat>, end: nat)
    requires Passed(env, tried, end)
    ensures forall k :: 0 <= k < |tried| ==> EligibleFailure(env, tried[k])
  {
  }

  /** Where each kind of event stands in a finished request. */
  lemma EventsByKind<T>(env: Env<T>, tried: seq<nat>, stop: nat, result: Result<T>, log: seq<Event>)
    requires Finished(env, tried, stop, result, log)
    ensures forall p :: 0 <= p < |log| ==>
      if p < 2 * |tried| then
        (p % 2 == 0 ==> log[p] == Called(tried[p / 2])) &&
        (p % 2 == 1 ==> log[p].Exhausted? && log[p].at == tried[p / 2])
      else if p == 2 * |tried| then stop < |env.chain| && log[p] == Called(stop)
      else p == 2 * |tried| + 1 && log[p] == Succeeded(stop) && env.answer(stop).Success?
    ensures |log| >= 2 * |tried| && (stop < |env.chain| <==> |log| > 2 * |tried|)
    ensures result.Ok? <==> |log| == 2 * |tried| + 2
    ensures stop < |env.chain| && env.answer(stop).Success? ==> |log| == 2 * |tried| + 2
  {
    hide RestSkipped, Positions, NextRef, NotSkipped;
    PassedAreEligible(env, tried, stop);
    AttemptEvents(env, tried);
    forall p | 0 <= p < 2 * |tried|
      ensures log[p] == Attempts(env, tried)[p]
      ensures p % 2 == 0 ==> log[p] == Called(tried[p / 2])
      ensures p % 2 == 1 ==> log[p].Exhausted? && log[p].at == tried[p / 2]
    {
      var k := p / 2;
      assert p == 2 * k || p == 2 * k + 1;
      assert Attempts(env, tried)[2 * k] == Called(tried[k]);
      assert Attempts(env, tried)[2 * k + 1].Exhausted? && Attempts(env, tried)[2 * k + 1].at == tried[k];
    }
  }

  /** Hooks that remember: an entry whose provider was reported exhausted in this request is skipped. */
  ghost predicate Remembers<T>(env: Env<T>)
  {
    forall i, log :: 0 <= i < |env.chain| && Reported(env, log, env.chain[i].providerId) ==> env.skip(i, log)
  }

  ghost predicate Reported<T>(env: Env<T>, log: seq<Event>, providerId: string)
  {
    exists p :: 0 <= p < |log| && log[p].Exhausted? && log[p].at < |env.chain| &&
      env.chain[log[p].at].providerId == providerId
  }

  /** The log in front of a tried position reports all earlier ones. */
  lemma TriedAfter<T>(env: Env<T>, tried: seq<nat>, end: nat, k: nat)
    requires Passed(env, tried, end) && k <= |tried|
    ensures forall l :: 0 <= l < k ==> Reported(env, Attempts(env, tried[..k]), env.chain[tried[l]].providerId)
  {
    hide RestSkipped, EligibleFailure;
    AttemptEvents(env, tried[..k]);
    forall l | 0 <= l < k ensures Reported(env, Attempts(env, tried[..k]), env.chain[tried[l]].providerId) {
      assert tried[..k][l] == tried[l];
      assert Attempts(env, tried[..k])[2 * l + 1].at == tried[l];
    }
  }

  /** With hooks that remember, no two calls of one request go to the same provider. */
  lemma NoProviderIsCalledTwice<T>(env: Env<T>, p: nat, q: nat)
    requires env.chain != [] && Remembers(env)
    requires p < q < |Outcome(env).1| && Outcome(env).1[p].Called? && Outcome(env).1[q].Called?
    ensures Outcome(env).1[p].at < Outcome(env).1[q].at < |env.chain|
    ensures env.chain[Outcome(env).1[p].at].providerId != env.chain[Outcome(env).1[q].at].providerId
  {
    hide Outcome, RestSkipped, NextRef, EligibleFailure, Attempts, Reported;
    var tried, stop := RequestFinishes(env);
    var (result, log) := Outcome(env);
    EventsByKind(env, tried, stop, result, log);
    assert log[p] == Called(tried[p / 2]);
    TriedAfter(env, tried, stop, q / 2);
    assert Reported(env, Attempts(env, tried[..q / 2]), env.chain[tried[p / 2]].providerId);
    if q < 2 * |tried| {
      assert log[q] == Called(tried[q / 2]);
      assert !env.skip(tried[q / 2], Attempts(env, tried[..q / 2]));
    } else {
      assert log[q] == Called(stop) && tried[..q / 2] == tried;
    }
  }
}
