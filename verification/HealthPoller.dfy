/** Health polling of external services: registration, and the handling of asynchronous check results. */
module HealthPoller {
  import opened Prelude

  datatype Declaration = Declaration(id: string, healthIntervalMs: Option<int>, unhealthyThreshold: Option<int>)

  datatype State = Unknown | Healthy | Unhealthy

  /** `timerMs` is the period of the running interval timer. */
  datatype ServiceState = ServiceState(
    declaration: Declaration, consecutiveFailures: nat, currentState: State, currentIntervalMs: int, timerMs: int)

  datatype Event = Up | Down

  const DEFAULT_HEALTH_INTERVAL_MS: int := 30000
  const DEFAULT_UNHEALTHY_THRESHOLD: int := 3
  const MAX_BACKOFF_MS: int := 300000

  function BaseInterval(d: Declaration): int
  {
    if d.healthIntervalMs.Some? then d.healthIntervalMs.value else DEFAULT_HEALTH_INTERVAL_MS
  }

  function Threshold(d: Declaration): int
  {
    if d.unhealthyThreshold.Some? then d.unhealthyThreshold.value else DEFAULT_UNHEALTHY_THRESHOLD
  }

  function BackedOff(interval: int): int
  {
    if interval * 2 < MAX_BACKOFF_MS then interval * 2 else MAX_BACKOFF_MS
  }

  // ----- The poller as a value -----

  datatype Poller = Poller(services: map<string, ServiceState>, generations: map<string, nat>)

  function Bumped(generations: map<string, nat>, id: string): map<string, nat>
  {
    generations[id := 1 + if id in generations then generations[id] else 0]
  }

  function Removed(p: Poller, id: string): Poller
  {
    if id in p.services then Poller(p.services - {id}, Bumped(p.generations, id)) else p
  }

  function Added(p: Poller, d: Declaration): Poller
  {
    var q := Removed(p, d.id);
    Poller(q.services[d.id := ServiceState(d, 0, Unknown, BaseInterval(d), BaseInterval(d))],
           Bumped(q.generations, d.id))
  }

  function Stopped(p: Poller): Poller
  {
    Poller(map[], map id | id in p.generations.Keys + p.services.Keys ::
      (if id in p.generations then p.generations[id] else 0) + (if id in p.services then 1 else 0))
  }

  /** One service's reaction to a check that counts. */
  function Reaction(s: ServiceState, healthy: bool): (ServiceState, seq<Event>)
  {
    if healthy then
      if s.currentState == Healthy then (s.(consecutiveFailures := 0), [])
      else
        var base := BaseInterval(s.declaration);
        (ServiceState(s.declaration, 0, Healthy, base, base), [Up])
    else
      var failed := s.(consecutiveFailures := s.consecutiveFailures + 1);
      if failed.consecutiveFailures >= Threshold(s.declaration) && s.currentState == Healthy then
        var backedOff := BackedOff(s.currentIntervalMs);
        if backedOff == s.currentIntervalMs then (failed.(currentState := Unhealthy), [Down])
        else (failed.(currentState := Unhealthy, currentIntervalMs := backedOff, timerMs := backedOff), [Down])
      else (failed, [])
  }

  predicate Stale(p: Poller, id: string, generation: Option<nat>)
  {
    generation.Some? && (if id in p.generations then Some(p.generations[id]) else None) != generation
  }

  function Handled(p: Poller, id: string, healthy: bool, generation: Option<nat>): (Poller, seq<Event>)
  {
    if id !in p.services || Stale(p, id, generation) then (p, [])
    else
      var (after, events) := Reaction(p.services[id], healthy);
      (p.(services := p.services[id := after]), events)
  }

  // ----- The poller as an object -----

  class ExternalServiceHealthPoller {
    var services: map<string, ServiceState>
    var healthCheckGenerations: map<string, nat>

    ghost function Value(): Poller
      reads this
    {
      Poller(services, healthCheckGenerations)
    }

    constructor ()
      ensures Value() == Poller(map[], map[])
    {
      services, healthCheckGenerations := map[], map[];
    }

    method Remove(serviceId: string)
      modifies this
      ensures Value() == Removed(old(Value()), serviceId)
    {
      if serviceId in services {
        var generation := if serviceId in healthCheckGenerations then healthCheckGenerations[serviceId] else 0;
        healthCheckGenerations := healthCheckGenerations[serviceId := generation + 1];
        services := services - {serviceId};
      }
    }

    /** The first check starts at once; its result carries the generation returned here. */
    method Add(d: Declaration) returns (flight: Option<nat>)
      modifies this
      ensures Value() == Added(old(Value()), d)
      ensures flight == Some(healthCheckGenerations[d.id])
    {
      if d.id in services {
        Remove(d.id);
      }
      services := services[d.id := ServiceState(d, 0, Unknown, BaseInterval(d), BaseInterval(d))];
      var generation := if d.id in healthCheckGenerations then healthCheckGenerations[d.id] else 0;
      healthCheckGenerations := healthCheckGenerations[d.id := generation + 1];
      flight := RunHealthCheck(d.id);
    }

    method Update(d: Declaration) returns (flight: Option<nat>)
      modifies this
      ensures Value() == Added(old(Value()), d)
      ensures flight == Some(healthCheckGenerations[d.id])
    {
      Remove(d.id);
      flight := Add(d);
    }

    method StopAll()
      modifies this
      ensures Value() == Stopped(old(Value()))
    {
      var left := services.Keys;
      while left != {}
        invariant left == services.Keys <= old(services).Keys
        invariant healthCheckGenerations.Keys == old(healthCheckGenerations).Keys + (old(services).Keys - left)
        invariant forall id :: id in healthCheckGenerations ==>
          healthCheckGenerations[id]
            == (if id in old(healthCheckGenerations) then old(healthCheckGenerations)[id] else 0)
                                      + (if id in old(services) && id !in left then 1 else 0)
        decreases left
      {
        var id :| id in left;
        Remove(id);
        left := left - {id};
      }
      assert services == map[];
    }

    /** Until its first await a check reads the state and captures the generation. */
    method RunHealthCheck(serviceId: string) returns (flight: Option<nat>)
      ensures flight == if serviceId in services && serviceId in healthCheckGenerations
                        then Some(healthCheckGenerations[serviceId]) else None
    {
      if serviceId !in services || serviceId !in healthCheckGenerations {
        return None;
      }
      return Some(healthCheckGenerations[serviceId]);
    }

    method HandleHealthResult(serviceId: string, isHealthy: bool, generation: Option<nat>) returns (events: seq<Event>)
      modifies this
      ensures (Value(), events) == Handled(old(Value()), serviceId, isHealthy, generation)
    {
      events := [];
      if serviceId !in services || Stale(Poller(services, healthCheckGenerations), serviceId, generation) {
        return;
      }
      var state := services[serviceId];
      if isHealthy {
        state := state.(consecutiveFailures := 0);
        if state.currentState != Healthy {
          var interval := BaseInterval(state.declaration);
          state := state.(currentState := Healthy, currentIntervalMs := interval, timerMs := interval);
          events := [Up];
        }
      } else {
        state := state.(consecutiveFailures := state.consecutiveFailures + 1);
        if state.consecutiveFailures >= Threshold(state.declaration) && state.currentState == Healthy {
          state := state.(currentState := Unhealthy);
          events := [Down];
          var newInterval := BackedOff(state.currentIntervalMs);
          if newInterval != state.currentIntervalMs {
            state := state.(currentIntervalMs := newInterval, timerMs := newInterval);
          }
        }
      }
      services := services[serviceId := state];
    }
  }
}
