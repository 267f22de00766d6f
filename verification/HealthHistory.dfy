/** What a service's health state means: a closed form over the check results of its current registration. */
module HealthHistory {
  import opened Prelude
  import opened HealthPoller

  // ----- Closed form over the results of one registration -----

  function TrailingFailures(results: seq<bool>): nat
  {
    if results == [] || results[|results| - 1] then 0 else 1 + TrailingFailures(results[..|results| - 1])
  }

  /** A threshold below one acts like one: the first failure counts. */
  function FailuresAllowed(d: Declaration): int
  {
    if Threshold(d) < 1 then 0 else Threshold(d) - 1
  }

  /** Unknown until the first success; then unhealthy exactly while too many failures trail. */
  function StateAfter(d: Declaration, results: seq<bool>): State
  {
    if true !in results then Unknown
    else if TrailingFailures(results) <= FailuresAllowed(d) then Healthy
    else Unhealthy
  }

  function IntervalAfter(d: Declaration, results: seq<bool>): int
  {
    if StateAfter(d, results) == Unhealthy then BackedOff(BaseInterval(d)) else BaseInterval(d)
  }

  function ServiceAfter(d: Declaration, results: seq<bool>): ServiceState
  {
    ServiceState(d, TrailingFailures(results), StateAfter(d, results), IntervalAfter(d, results),
      IntervalAfter(d, results))
  }

  function Change(before: State, after: State): seq<Event>
  {
    if before == after then [] else if after == Healthy then [Up] else [Down]
  }

  /** The events of a registration: one for every change of the closed form. */
  function EventsAfter(d: Declaration, results: seq<bool>): seq<Event>
  {
    if results == [] then []
    else
      var before := results[..|results| - 1];
      EventsAfter(d, before) + Change(StateAfter(d, before), StateAfter(d, results))
  }

  lemma SnocResults(results: seq<bool>, r: bool)
    ensures (results + [r])[..|results + [r]| - 1] == results
    ensures TrailingFailures(results + [r]) == if r then 0 else 1 + TrailingFailures(results)
    ensures true in results + [r] <==> r || true in results
  {
    assert (results + [r])[..|results + [r]| - 1] == results;
  }

  /** The incremental reaction computes the closed form. */
  lemma ReactionFollowsClosedForm(d: Declaration, results: seq<bool>, r: bool)
    ensures Reaction(ServiceAfter(d, results), r)
         == (ServiceAfter(d, results + [r]), Change(StateAfter(d, results), StateAfter(d, results + [r])))
    ensures EventsAfter(d, results + [r])
         == EventsAfter(d, results) + Change(StateAfter(d, results), StateAfter(d, results + [r]))
  {
    SnocResults(results, r);
  }

  /** A service goes down exactly when the failures since its last success reach the threshold. */
  lemma DownExactlyAtThreshold(d: Declaration, results: seq<bool>, r: bool)
    ensures Change(StateAfter(d, results), StateAfter(d, results + [r])) == [Down]
       <==> !r && true in results && TrailingFailures(results + [r]) == FailuresAllowed(d) + 1
    ensures Change(StateAfter(d, results), StateAfter(d, results + [r])) == [Up]
       <==> r && StateAfter(d, results) != Healthy
  {
    SnocResults(results, r);
  }

  /** Events alternate, starting with `Up`, and their number tells the state. */
  lemma {:induction false} EventsAlternate(d: Declaration, results: seq<bool>)
    ensures
      var events := EventsAfter(d, results);
      (forall i :: 0 <= i < |events| ==> events[i] == if i % 2 == 0 then Up else Down) &&
      (StateAfter(d, results) == Unknown <==> events == []) &&
      (StateAfter(d, results) == Healthy <==> |events| % 2 == 1)
    decreases |results|
  {
    hide StateAfter, EventsAfter, Change;
    if results == [] {
      NothingAfter(d);
    } else {
      var n := |results| - 1;
      EventsAlternate(d, results[..n]);
      TakeOneMore(results, n);
      assert results[..n + 1] == results;
      ReactionFollowsClosedForm(d, results[..n], results[n]);
      ChangesBetween(d, results[..n], results[n]);
    }
  }

  lemma NothingAfter(d: Declaration)
    ensures StateAfter(d, []) == Unknown && EventsAfter(d, []) == []
  {
  }

  /** The possible changes of state: none, up unless up already, and down from up only. */
  lemma ChangesBetween(d: Declaration, results: seq<bool>, r: bool)
    ensures
      var before, after := StateAfter(d, results), StateAfter(d, results + [r]);
      (before == after && Change(before, after) == []) ||
      (before != Healthy && after == Healthy && Change(before, after) == [Up]) ||
      (before == Healthy && after == Unhealthy && Change(before, after) == [Down])
  {
    SnocResults(results, r);
  }

  /** While unhealthy a service is polled at twice its period, capped at five minutes; else at its period. */
  lemma PeriodIs(d: Declaration, results: seq<bool>)
    ensures
      var base := if d.healthIntervalMs.Some? then d.healthIntervalMs.value else 30_000;
      var period := IntervalAfter(d, results);
      (StateAfter(d, results) != Unhealthy ==> period == base) &&
      (StateAfter(d, results) == Unhealthy ==>
         period <= 300_000 && (period == base + base || (period == 300_000 && base + base >= 300_000)))
  {
  }

  /** Backing off never polls an unhealthy service more often, unless it is polled rarely to begin with. */
  lemma BackoffSlowsDownIff(d: Declaration, results: seq<bool>)
    requires StateAfter(d, results) == Unhealthy
    ensures IntervalAfter(d, results) >= BaseInterval(d) <==> 0 <= BaseInterval(d) <= MAX_BACKOFF_MS
  {
  }

  // ----- The asynchronous system -----

  /** A check under way: the service and the generation captured when it started. */
  datatype Flight = Flight(id: string, generation: Option<nat>)

  datatype System = System(poller: Poller, flights: seq<Flight>)

  datatype Step =
    | Add(d: Declaration)
    | Remove(id: string)
    | Update(d: Declaration)
    | StopAll
    | Tick(id: string)
    | Arrive(flight: nat, healthy: bool)

  function Start(p: Poller, id: string, flights: seq<Flight>): seq<Flight>
  {
    if id in p.services
    then flights + [Flight(id, if id in p.generations then Some(p.generations[id]) else None)]
    else flights
  }

  /** One step of the system, and the events it emits with the service they are about. */
  function Next(s: System, step: Step): (System, seq<(string, Event)>)
  {
    match step
    case Add(d) => var p := Added(s.poller, d); (System(p, Start(p, d.id, s.flights)), [])
    case Update(d) => var p := Added(Removed(s.poller, d.id), d); (System(p, Start(p, d.id, s.flights)), [])
    case Remove(id) => (s.(poller := Removed(s.poller, id)), [])
    case StopAll => (s.(poller := Stopped(s.poller)), [])
    case Tick(id) => (s.(flights := Start(s.poller, id, s.flights)), [])
    case Arrive(k, healthy) =>
      if k >= |s.flights| then (s, [])
      else
        var f := s.flights[k];
        var (p, events) := Handled(s.poller, f.id, healthy, f.generation);
        (s.(poller := p), Tagged(f.id, events))
  }

  function Tagged(id: string, events: seq<Event>): seq<(string, Event)>
  {
    seq(|events|, i requires 0 <= i < |events| => (id, events[i]))
  }

  // ----- Specification without generations -----

  /** A registration: what was declared, the checks started under it, their results so far and the events emitted. */
  datatype Life = Life(d: Declaration, checks: set<nat>, results: seq<bool>, events: seq<Event>)

  type Lives = map<string, Life>

  function Born(lives: Lives, d: Declaration, check: nat): Lives
  {
    lives[d.id := Life(d, {check}, [], [])]
  }

  function EventsFor(id: string, events: seq<(string, Event)>): seq<Event>
  {
    if events == [] then []
    else (if events[0].0 == id then [events[0].1] else []) + EventsFor(id, events[1..])
  }

  /** The registrations after a step: only results of checks of the current registration are recorded. */
  function Lived(lives: Lives, flights: seq<Flight>, step: Step, emitted: seq<(string, Event)>): Lives
  {
    match step
    case Add(d) => Born(lives, d, |flights|)
    case Update(d) => Born(lives, d, |flights|)
    case Remove(id) => lives - {id}
    case StopAll => map[]
    case Tick(id) =>
      if id in lives then lives[id := lives[id].(checks := lives[id].checks + {|flights|})] else lives
    case Arrive(k, healthy) =>
      if k < |flights| && flights[k].id in lives && k in lives[flights[k].id].checks then
        var life := lives[flights[k].id];
        lives[flights[k].id := life.(results := life.results + [healthy],
                                     events := life.events + EventsFor(flights[k].id, emitted))]
      else lives
  }

  /** Generations tell apart exactly the checks of the current registration, and every state is its closed form. */
  ghost predicate Refines(s: System, lives: Lives)
  {
    s.poller.services.Keys == lives.Keys <= s.poller.generations.Keys &&
    (forall id :: id in lives ==> LifeRefined(s.poller.services[id], id, lives[id])) &&
    (forall id, k :: id in lives && k in lives[id].checks ==> k < |s.flights|) &&
    (forall k :: 0 <= k < |s.flights| ==> FlightKnown(s, lives, k))
  }

  ghost predicate LifeRefined(state: ServiceState, id: string, life: Life)
  {
    life.d.id == id && state == ServiceAfter(life.d, life.results) && life.events == EventsAfter(life.d, life.results)
  }

  ghost predicate FlightKnown(s: System, lives: Lives, k: nat)
    requires k < |s.flights|
  {
    var f := s.flights[k];
    f.generation.Some? && f.id in s.poller.generations && f.generation.value <= s.poller.generations[f.id] &&
    (f.id in lives ==> (k in lives[f.id].checks <==> f.generation.value == s.poller.generations[f.id])) &&
    forall id :: id in lives && k in lives[id].checks ==> id == f.id
  }

  // ----- The code refines the specification -----

  lemma NothingHandledYet(d: Declaration)
    ensures ServiceAfter(d, []) == ServiceState(d, 0, Unknown, BaseInterval(d), BaseInterval(d)) &&
      EventsAfter(d, []) == []
  {
  }

  lemma RegistrationRefines(s: System, lives: Lives, d: Declaration, again: bool)
    requires Refines(s, lives)
    ensures
      var step := if again then Update(d) else Add(d);
      Refines(Next(s, step).0, Lived(lives, s.flights, step, []))
  {
    hide ServiceAfter, EventsAfter, FlightKnown;
    var before := if again then Removed(s.poller, d.id) else s.poller;
    var p := Added(before, d);
    var after := System(p, Start(p, d.id, s.flights));
    var born := Born(lives, d, |s.flights|);
    assert p.services.Keys == born.Keys;
    NothingHandledYet(d);
    forall k | 0 <= k < |after.flights| ensures FlightKnown(after, born, k) {
      RegistrationKnows(s, lives, d, again, k);
    }
  }

  lemma RegistrationKnows(s: System, lives: Lives, d: Declaration, again: bool, k: nat)
    requires Refines(s, lives) && k <= |s.flights|
    ensures
      var p := Added(if again then Removed(s.poller, d.id) else s.poller, d);
      var after := System(p, Start(p, d.id, s.flights));
      k < |after.flights| && FlightKnown(after, Born(lives, d, |s.flights|), k)
  {
    hide ServiceAfter, EventsAfter;
    if k < |s.flights| {
      assert FlightKnown(s, lives, k);
    }
  }

  lemma RemovalRefines(s: System, lives: Lives, id: string)
    requires Refines(s, lives)
    ensures Refines(s.(poller := Removed(s.poller, id)), lives - {id})
  {
    var after := s.(poller := Removed(s.poller, id));
    forall k | 0 <= k < |s.flights| ensures FlightKnown(after, lives - {id}, k) {
      assert FlightKnown(s, lives, k);
    }
  }

  lemma StoppingRefines(s: System, lives: Lives)
    requires Refines(s, lives)
    ensures Refines(s.(poller := Stopped(s.poller)), map[])
  {
    var after := s.(poller := Stopped(s.poller));
    forall k | 0 <= k < |s.flights| ensures FlightKnown(after, map[], k) {
      assert FlightKnown(s, lives, k);
    }
  }

  lemma TickRefines(s: System, lives: Lives, id: string)
    requires Refines(s, lives)
    ensures Refines(Next(s, Tick(id)).0, Lived(lives, s.flights, Tick(id), []))
  {
    hide ServiceAfter, EventsAfter;
    var after := Next(s, Tick(id)).0;
    var lived := Lived(lives, s.flights, Tick(id), []);
    forall k | 0 <= k < |after.flights| ensures FlightKnown(after, lived, k) {
      if k < |s.flights| {
        assert FlightKnown(s, lives, k);
      }
    }
  }

  /** A result counts iff its check was started under the current registration; otherwise nothing changes. */
  lemma OnlyCurrentChecksCount(s: System, lives: Lives, k: nat, healthy: bool)
    requires Refines(s, lives) && k < |s.flights|
    ensures
      var id := s.flights[k].id;
      var counts := id in lives && k in lives[id].checks;
      Handled(s.poller, id, healthy, s.flights[k].generation) ==
      if counts then
        (s.poller.(services := s.poller.services[id := ServiceAfter(lives[id].d, lives[id].results + [healthy])]),
         Change(StateAfter(lives[id].d, lives[id].results), StateAfter(lives[id].d, lives[id].results + [healthy])))
      else (s.poller, [])
  {
    hide StateAfter, TrailingFailures;
    assert FlightKnown(s, lives, k);
    var id := s.flights[k].id;
    if id in lives {
      assert LifeRefined(s.poller.services[id], id, lives[id]);
      ReactionFollowsClosedForm(lives[id].d, lives[id].results, healthy);
    }
  }

  lemma {:induction false} TaggedAreFor(id: string, events: seq<Event>)
    ensures EventsFor(id, Tagged(id, events)) == events
  {
    if events != [] {
      TaggedAreFor(id, events[1..]);
      assert Tagged(id, events)[1..] == Tagged(id, events[1..]);
    }
  }

  lemma ArrivalRefines(s: System, lives: Lives, k: nat, healthy: bool)
    requires Refines(s, lives)
    ensures
      var (after, emitted) := Next(s, Arrive(k, healthy));
      Refines(after, Lived(lives, s.flights, Arrive(k, healthy), emitted))
  {
    hide Handled, ServiceAfter, EventsAfter, StateAfter, Change;
    if k < |s.flights| {
      OnlyCurrentChecksCount(s, lives, k, healthy);
      var id := s.flights[k].id;
      var (after, emitted) := Next(s, Arrive(k, healthy));
      var lived := Lived(lives, s.flights, Arrive(k, healthy), emitted);
      if id in lives && k in lives[id].checks {
        var life := lives[id];
        assert LifeRefined(s.poller.services[id], id, life);
        ReactionFollowsClosedForm(life.d, life.results, healthy);
        TaggedAreFor(id, Handled(s.poller, id, healthy, s.flights[k].generation).1);
        assert LifeRefined(after.poller.services[id], id, lived[id]);
      }
      forall j | 0 <= j < |s.flights| ensures FlightKnown(after, lived, j) {
        assert FlightKnown(s, lives, j);
      }
    }
  }

  lemma StepRefines(s: System, lives: Lives, step: Step)
    requires Refines(s, lives)
    ensures Refines(Next(s, step).0, Lived(lives, s.flights, step, Next(s, step).1))
  {
    hide Refines, Handled;
    match step
    case Add(d) => RegistrationRefines(s, lives, d, false);
    case Update(d) => RegistrationRefines(s, lives, d, true);
    case Remove(id) => RemovalRefines(s, lives, id);
    case StopAll => StoppingRefines(s, lives);
    case Tick(id) => TickRefines(s, lives, id);
    case Arrive(k, healthy) => ArrivalRefines(s, lives, k, healthy);
  }

  // ----- Whole runs -----

  /** System and registrations after a run from the empty poller. */
  function Run(steps: seq<Step>): (System, Lives)
  {
    if steps == [] then (System(Poller(map[], map[]), []), map[])
    else
      var (s, lives) := Run(steps[..|steps| - 1]);
      var (after, emitted) := Next(s, steps[|steps| - 1]);
      (after, Lived(lives, s.flights, steps[|steps| - 1], emitted))
  }

  /** Main result: over every run, the poller holds for each service the closed form of its current registration. */
  lemma {:induction false} EveryRunRefines(steps: seq<Step>)
    ensures Refines(Run(steps).0, Run(steps).1)
    decreases |steps|
  {
    if steps != [] {
      hide Refines, Next, Lived;
      var n := |steps| - 1;
      EveryRunRefines(steps[..n]);
      StepRefines(Run(steps[..n]).0, Run(steps[..n]).1, steps[n]);
    } else {
      hide Next, Lived;
    }
  }

  /** In every reachable state the events of a registration alternate and its timer runs with the right period. */
  lemma ReachableServices(steps: seq<Step>, id: string)
    requires id in Run(steps).1
    ensures id in Run(steps).0.poller.services
    ensures
      var state, life := Run(steps).0.poller.services[id], Run(steps).1[id];
      (forall i :: 0 <= i < |life.events| ==> life.events[i] == if i % 2 == 0 then Up else Down) &&
      (state.currentState == Healthy <==> |life.events| % 2 == 1) &&
      state.timerMs == state.currentIntervalMs
        == (if state.currentState == Unhealthy then BackedOff(BaseInterval(life.d)) else BaseInterval(life.d))
  {
    hide Run, StateAfter, TrailingFailures, EventsAfter;
    EveryRunRefines(steps);
    var (s, lives) := Run(steps);
    assert LifeRefined(s.poller.services[id], id, lives[id]);
    EventsAlternate(lives[id].d, lives[id].results);
  }
}
