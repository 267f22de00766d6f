/**
  The lifecycle handlers of services, cut at the awaits: what a handler does before its manifest is fetched and what it
  does with the manifest are separate steps, and anything can happen in between.
 */
module ServiceLifecycle {
  import opened Prelude
  import opened ServiceWorld
  import opened ServiceStores

  datatype Declaration = Declaration(title: string, url: string, capabilities: seq<string>)

  datatype Step =
    | ProcessStarts(id: string, d: Declaration)
    | ManifestArrives(id: string, m: Manifest)
    | CheckResumes(id: string, m: Manifest, capabilities: seq<string>)
    | ProcessStops(id: string)
    | TurnsHealthy(id: string)
    | HealthyResumes(id: string)
    | TurnsUnhealthy(id: string)
    | OperatorApproves(id: string)
    | OperatorRevokes(id: string)
    | ExternalHealthy(id: string, d: Declaration)
    | ExternalUnhealthy(id: string)
    | UndeclaredRemoved(declared: set<string>)

  function FingerprintOf(fp: Fingerprint, e: Entry, m: Manifest, capabilities: seq<string>): string
  {
    fp(m, capabilities, e.tier, e.url)
  }

  /** Compare the manifest with the approval on record; only an approval with this very fingerprint exposes tools. */
  function Checked(w: World, id: string, m: Manifest, capabilities: seq<string>, fp: Fingerprint): World
  {
    if id !in w.services then w
    else if id !in w.approvals then StatusSet(Upserted(w, id, Pending, None), id, Pending)
    else
      match w.approvals[id].status
      case Revoked => StatusSet(w, id, Revoked)
      case Approved =>
        if w.approvals[id].fingerprint == Some(FingerprintOf(fp, w.services[id], m, capabilities))
        then ToolsRegistered(StatusSet(w, id, Approved), id, m)
        else StatusSet(w, id, PendingReapproval)
      case _ => w
  }

  function ApprovedByOperator(w: World, id: string, fp: Fingerprint): World
  {
    if id !in w.services then Upserted(w, id, Approved, Some(""))
    else
      var e := w.services[id];
      if e.manifest.None? then StatusSet(Upserted(w, id, Approved, Some("")), id, Approved)
      else
        var fingerprint := FingerprintOf(fp, e, e.manifest.value, e.capabilities);
        ToolsRegistered(StatusSet(Upserted(w, id, Approved, Some(fingerprint)), id, Approved), id, e.manifest.value)
  }

  function ExternalRegistered(w: World, id: string, d: Declaration): World
  {
    Registered(Deregistered(w, id), id, FreshEntry(External, d.title, d.url, d.capabilities))
  }

  /** The external services that are no longer declared. */
  function Undeclared(w: World, declared: set<string>): set<string>
  {
    set id | id in w.services && w.services[id].tier == External && id !in declared
  }

  function WithoutServices(w: World, ids: set<string>): World
  {
    w.(services := w.services - ids,
       toolMap := map name | name in w.toolMap && w.toolMap[name].serviceId !in ids :: w.toolMap[name])
  }

  function Next(w: World, step: Step, fp: Fingerprint): World
  {
    match step
    case ProcessStarts(id, d) => Registered(w, id, FreshEntry(Managed, d.title, d.url, d.capabilities))
    case ManifestArrives(id, m) => ManifestStored(w, id, m)
    case CheckResumes(id, m, capabilities) => Checked(w, id, m, capabilities, fp)
    case ProcessStops(id) => Deregistered(ToolsDropped(w, id), id)
    case TurnsHealthy(id) =>
      if id !in w.services then w
      else if w.services[id].manifest.None? then HealthSet(w, id, true)
      else Checked(w, id, w.services[id].manifest.value, w.services[id].capabilities, fp)
    case HealthyResumes(id) => HealthSet(w, id, true)
    case TurnsUnhealthy(id) => if id in w.services then HealthSet(ToolsDropped(w, id), id, false) else w
    case OperatorApproves(id) => ApprovedByOperator(w, id, fp)
    case OperatorRevokes(id) => StatusSet(ApprovalRevoked(ToolsDropped(w, id), id), id, Revoked)
    case ExternalHealthy(id, d) => ExternalRegistered(w, id, d)
    case ExternalUnhealthy(id) => HealthSet(ToolsDropped(w, id), id, false)
    case UndeclaredRemoved(declared) => WithoutServices(w, Undeclared(w, declared))
  }

  class ServiceLifecycleManager {
    const registry: ServiceRegistry
    const toolRegistry: ServiceToolRegistry
    const approvalStore: ServiceApprovalStore
    const fingerprint: Fingerprint

    ghost predicate Valid()
    {
      toolRegistry.serviceRegistry == registry
    }

    ghost function Value(): World
      reads registry, toolRegistry, approvalStore
    {
      World(registry.services, toolRegistry.toolMap, approvalStore.rows)
    }

    constructor (registry: ServiceRegistry, toolRegistry: ServiceToolRegistry, approvalStore: ServiceApprovalStore,
                 fingerprint: Fingerprint)
      requires toolRegistry.serviceRegistry == registry
      ensures Valid() && this.registry == registry && this.toolRegistry == toolRegistry
      ensures this.approvalStore == approvalStore && this.fingerprint == fingerprint
    {
      this.registry, this.toolRegistry, this.approvalStore := registry, toolRegistry, approvalStore;
      this.fingerprint := fingerprint;
    }

    /** The registry's removal together with the tool registry's listener. */
    method Deregister(id: string)
      requires Valid()
      modifies registry, toolRegistry
      ensures Value() == Deregistered(old(Value()), id)
    {
      var emitted := registry.Deregister(id);
      if emitted {
        toolRegistry.DeregisterServiceTools(id);
      } else {
        assert registry.services == old(registry.services);
      }
    }

    /** Up to the await; without success the handler has thrown and nothing is fetched. */
    method OnProcessStarted(id: string, d: Declaration) returns (fetching: bool)
      requires Valid()
      modifies registry
      ensures Value() == Next(old(Value()), ProcessStarts(id, d), fingerprint)
      ensures fetching <==> id !in old(registry.services)
    {
      fetching := registry.Register(id, FreshEntry(Managed, d.title, d.url, d.capabilities));
    }

    method CheckApprovalAndRegisterTools(id: string, m: Manifest, capabilities: seq<string>)
      requires Valid()
      modifies registry, toolRegistry, approvalStore
      ensures Value() == Checked(old(Value()), id, m, capabilities, fingerprint)
    {
      if id !in registry.services {
        return;
      }
      var entry := registry.services[id];
      var currentFingerprint := fingerprint(m, capabilities, entry.tier, entry.url);
      if id !in approvalStore.rows {
        approvalStore.Upsert(id, Pending, None);
        registry.SetApprovalStatus(id, Pending);
        return;
      }
      var approval := approvalStore.rows[id];
      if approval.status == Revoked {
        registry.SetApprovalStatus(id, Revoked);
      } else if approval.status == Approved {
        if approval.fingerprint == Some(currentFingerprint) {
          registry.SetApprovalStatus(id, Approved);
          var registered := toolRegistry.RegisterServiceTools(id, m);
        } else {
          registry.SetApprovalStatus(id, PendingReapproval);
        }
      }
    }

    /** A fetched manifest is stored on whatever entry the id has by then. */
    method ManifestFetched(id: string, m: Manifest)
      requires Valid()
      modifies registry
      ensures Value() == Next(old(Value()), ManifestArrives(id, m), fingerprint)
    {
      registry.StoreManifest(id, m);
    }

    method OnProcessStopped(id: string)
      requires Valid()
      modifies registry, toolRegistry
      ensures Value() == Next(old(Value()), ProcessStops(id), fingerprint)
    {
      toolRegistry.DeregisterServiceTools(id);
      Deregister(id);
    }

    /** Up to the await, if there is one; `resumes` says that the service is marked healthy only later. */
    method OnProcessHealthChanged(id: string, healthy: bool) returns (resumes: bool)
      requires Valid()
      modifies registry, toolRegistry, approvalStore
      ensures Value() == Next(old(Value()), if healthy then TurnsHealthy(id) else TurnsUnhealthy(id), fingerprint)
      ensures resumes <==> healthy && id in old(registry.services) && old(registry.services)[id].manifest.Some?
    {
      resumes := false;
      if id !in registry.services {
        return;
      }
      var entry := registry.services[id];
      if healthy {
        if entry.manifest.Some? {
          CheckApprovalAndRegisterTools(id, entry.manifest.value, entry.capabilities);
          return true;
        }
        registry.MarkHealthy(id);
      } else {
        toolRegistry.DeregisterServiceTools(id);
        registry.MarkUnhealthy(id);
      }
    }

    /** What is left of a health change after its await. */
    method HealthChangeResumes(id: string)
      requires Valid()
      modifies registry
      ensures Value() == Next(old(Value()), HealthyResumes(id), fingerprint)
    {
      registry.MarkHealthy(id);
    }

    method OnServiceApproved(id: string)
      requires Valid()
      modifies registry, toolRegistry, approvalStore
      ensures Value() == Next(old(Value()), OperatorApproves(id), fingerprint)
    {
      if id !in registry.services {
        approvalStore.Approve(id, "");
        return;
      }
      var entry := registry.services[id];
      if entry.manifest.None? {
        approvalStore.Approve(id, "");
        registry.SetApprovalStatus(id, Approved);
        return;
      }
      approvalStore.Approve(id, fingerprint(entry.manifest.value, entry.capabilities, entry.tier, entry.url));
      registry.SetApprovalStatus(id, Approved);
      var registered := toolRegistry.RegisterServiceTools(id, entry.manifest.value);
    }

    method OnServiceRevoked(id: string)
      requires Valid()
      modifies registry, toolRegistry, approvalStore
      ensures Value() == Next(old(Value()), OperatorRevokes(id), fingerprint)
    {
      toolRegistry.DeregisterServiceTools(id);
      approvalStore.Revoke(id);
      if id in registry.services {
        registry.SetApprovalStatus(id, Revoked);
      }
    }

    /** Up to the await. */
    method OnExternalServiceHealthy(id: string, d: Declaration)
      requires Valid()
      modifies registry, toolRegistry
      ensures Value() == Next(old(Value()), ExternalHealthy(id, d), fingerprint)
    {
      if id in registry.services {
        toolRegistry.DeregisterServiceTools(id);
        Deregister(id);
        DroppingTwice(old(Value()), id);
      }
      var ok := registry.Register(id, FreshEntry(External, d.title, d.url, d.capabilities));
    }

    method OnExternalServiceUnhealthy(id: string)
      requires Valid()
      modifies registry, toolRegistry
      ensures Value() == Next(old(Value()), ExternalUnhealthy(id), fingerprint)
    {
      toolRegistry.DeregisterServiceTools(id);
      registry.MarkUnhealthy(id);
    }

    /** First part of a reconciliation: external services that are no longer declared go. */
    method RemoveUndeclared(declared: set<string>)
      requires Valid()
      modifies registry, toolRegistry
      ensures Value() == Next(old(Value()), UndeclaredRemoved(declared), fingerprint)
    {
      hide WithoutServices, Deregistered, ToolsDropped;
      ghost var before := Value();
      var services := registry.services;
      var gone := set id | id in services && services[id].tier == External && id !in declared;
      var left := gone;
      WithoutNothing(before);
      assert gone - left == {};
      while left != {}
        invariant left <= gone == Undeclared(before, declared)
        invariant Value() == WithoutServices(before, gone - left)
        decreases left
      {
        var id :| id in left;
        WithoutOneMore(before, gone - left, id);
        assert gone - (left - {id}) == (gone - left) + {id};
        left := left - {id};
        OnProcessStopped(id);
      }
      assert gone - left == gone;
    }

    /** Second part, for one declaration: add it, replace it when its configuration changed, else leave it alone. */
    method ReconcileOne(id: string, d: Declaration) returns (fetching: bool)
      requires Valid()
      modifies registry, toolRegistry
      ensures fetching <==> id !in old(registry.services) || Changed(old(registry.services)[id], d)
      ensures Value() == if fetching then Next(old(Value()), ExternalHealthy(id, d), fingerprint) else old(Value())
    {
      if id !in registry.services {
        OnExternalServiceHealthy(id, d);
        return true;
      }
      if Changed(registry.services[id], d) {
        toolRegistry.DeregisterServiceTools(id);
        Deregister(id);
        DroppingTwice(old(Value()), id);
        OnExternalServiceHealthy(id, d);
        return true;
      }
      return false;
    }
  }

  predicate Changed(e: Entry, d: Declaration)
  {
    e.title != d.title || e.url != d.url || e.capabilities != d.capabilities
  }

  /** Dropping the tools before the removal that drops them anyway changes nothing. */
  lemma DroppingTwice(w: World, id: string)
    ensures Deregistered(ToolsDropped(w, id), id)
         == if id in w.services then Deregistered(w, id) else ToolsDropped(w, id)
  {
    if id in w.services {
      var a, b := Deregistered(ToolsDropped(w, id), id), Deregistered(w, id);
      assert a.services == b.services;
      assert a.toolMap == b.toolMap;
    }
  }

  lemma WithoutNothing(w: World)
    ensures WithoutServices(w, {}) == w
  {
  }

  lemma WithoutOneMore(w: World, ids: set<string>, id: string)
    requires id in w.services && id !in ids
    ensures Deregistered(ToolsDropped(WithoutServices(w, ids), id), id) == WithoutServices(w, ids + {id})
  {
    var a, b := Deregistered(ToolsDropped(WithoutServices(w, ids), id), id), WithoutServices(w, ids + {id});
    assert a.services == b.services;
    assert a.toolMap == b.toolMap;
  }
}
