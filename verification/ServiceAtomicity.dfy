/** What holds in addition when every handler runs to its end before the next one starts, and how overlap breaks it. */
module ServiceAtomicity {
  import opened Prelude
  import opened ServiceWorld
  import opened ServiceLifecycle
  import opened ServiceInvariants

  /** A handler with what its manifest fetch returns. */
  datatype Handler =
    | Started(id: string, d: Declaration, fetched: Option<Manifest>)
    | Stopped(id: string)
    | HealthUp(id: string)
    | HealthDown(id: string)
    | ApprovedBy(id: string)
    | RevokedBy(id: string)
    | ExternalUp(id: string, d: Declaration, fetched: Option<Manifest>)
    | ExternalDown(id: string)
    | Reconciled(declared: set<string>)

  function AfterFetch(id: string, d: Declaration, fetched: Option<Manifest>): seq<Step>
  {
    match fetched
    case None => []
    case Some(m) => [ManifestArrives(id, m), CheckResumes(id, m, d.capabilities)]
  }

  /** The steps of a handler that nothing interrupts. */
  function StepsOf(w: World, h: Handler): seq<Step>
  {
    match h
    case Started(id, d, fetched) =>
      if id in w.services then [] else [ProcessStarts(id, d)] + AfterFetch(id, d, fetched)
    case Stopped(id) => [ProcessStops(id)]
    case HealthUp(id) =>
      if id in w.services && w.services[id].manifest.Some? then [TurnsHealthy(id), HealthyResumes(id)]
      else [TurnsHealthy(id)]
    case HealthDown(id) => [TurnsUnhealthy(id)]
    case ApprovedBy(id) => [OperatorApproves(id)]
    case RevokedBy(id) => [OperatorRevokes(id)]
    case ExternalUp(id, d, fetched) => [ExternalHealthy(id, d)] + AfterFetch(id, d, fetched)
    case ExternalDown(id) => [ExternalUnhealthy(id)]
    case Reconciled(declared) => [UndeclaredRemoved(declared)]
  }

  function Handle(w: World, h: Handler, fp: Fingerprint): World
  {
    Run(w, StepsOf(w, h), fp)
  }

  // ----- Exposed tools agree with the approved manifest -----

  /** The tool is one of the service's manifest, and that manifest is the approved one. */
  ghost predicate Agrees(w: World, name: string, fp: Fingerprint)
    requires name in w.toolMap
  {
    var id := w.toolMap[name].serviceId;
    id in w.services && id in w.approvals && Vouched(w.services[id], w.approvals[id], name, w.toolMap[name].decl, fp)
  }

  ghost predicate Vouched(e: Entry, a: Approval, name: string, decl: string, fp: Fingerprint)
  {
    e.manifest.Some? && Tool(name, decl) in e.manifest.value.tools &&
    e.approvalStatus == Approved && a.status == Approved &&
    a.fingerprint == Some(FingerprintOf(fp, e, e.manifest.value, e.capabilities))
  }

  ghost predicate AllAgree(w: World, fp: Fingerprint)
  {
    forall name :: name in w.toolMap ==> Agrees(w, name, fp)
  }

  lemma {:induction false} WithToolsDeclared(toolMap: map<string, HttpTool>, id: string, tools: seq<Tool>, name: string)
    requires name in NamesOf(tools)
    ensures name in WithTools(toolMap, id, tools) && WithTools(toolMap, id, tools)[name].serviceId == id
    ensures Tool(name, WithTools(toolMap, id, tools)[name].decl) in tools
    decreases |tools|
  {
    var n := |tools| - 1;
    assert NamesOf(tools) == NamesOf(tools[..n]) + [tools[n].name];
    assert tools == tools[..n] + [tools[n]];
    if tools[n].name != name {
      WithToolsDeclared(toolMap, id, tools[..n], name);
    } else {
      assert Tool(name, tools[n].decl) == tools[n];
    }
  }

  /** Exposing the tools of the manifest on record, once it is the approved one. */
  lemma ExposingKeepsAgreement(w: World, id: string, m: Manifest, fp: Fingerprint)
    requires id in w.services && w.services[id].manifest == Some(m)
    requires forall name :: name in w.toolMap && w.toolMap[name].serviceId != id ==> Agrees(w, name, fp)
    requires forall name :: name in w.toolMap && w.toolMap[name].serviceId == id ==>
      Tool(name, w.toolMap[name].decl) in m.tools
    requires id in w.approvals && w.approvals[id]
      == Approval(Approved, Some(FingerprintOf(fp, w.services[id], m, w.services[id].capabilities)))
    ensures AllAgree(ToolsRegistered(StatusSet(w, id, Approved), id, m), fp)
  {
    hide WithTools, NamesOf;
    var after := ToolsRegistered(StatusSet(w, id, Approved), id, m);
    WithToolsOwners(w.toolMap, id, m.tools);
    forall name | name in after.toolMap ensures Agrees(after, name, fp) {
      if name in NamesOf(m.tools) {
        WithToolsDeclared(w.toolMap, id, m.tools, name);
      } else {
        assert after.toolMap[name] == w.toolMap[name];
        if w.toolMap[name].serviceId != id {
          assert Agrees(w, name, fp);
        }
      }
    }
  }

  /** A check of the manifest on record with the entry's own capabilities. */
  lemma CheckKeepsAgreement(w: World, id: string, fp: Fingerprint)
    requires AllAgree(w, fp) && id in w.services && w.services[id].manifest.Some?
    ensures AllAgree(Checked(w, id, w.services[id].manifest.value, w.services[id].capabilities, fp), fp)
  {
    hide ToolsRegistered;
    var m, capabilities := w.services[id].manifest.value, w.services[id].capabilities;
    assert forall name :: name in w.toolMap ==> Agrees(w, name, fp);
    if id in w.approvals && w.approvals[id].status == Approved &&
       w.approvals[id].fingerprint == Some(FingerprintOf(fp, w.services[id], m, capabilities)) {
      ExposingKeepsAgreement(w, id, m, fp);
    } else {
      assert forall name :: name in w.toolMap ==> w.toolMap[name].serviceId != id;
      var after := Checked(w, id, m, capabilities, fp);
      assert after.toolMap == w.toolMap;
      forall name | name in after.toolMap ensures Agrees(after, name, fp) {
        assert Agrees(w, name, fp);
      }
    }
  }

  lemma ApprovalKeepsAgreement(w: World, id: string, fp: Fingerprint)
    requires AllAgree(w, fp)
    ensures AllAgree(ApprovedByOperator(w, id, fp), fp)
  {
    hide ToolsRegistered;
    assert forall name :: name in w.toolMap ==> Agrees(w, name, fp);
    if id in w.services && w.services[id].manifest.Some? {
      var e := w.services[id];
      var fingerprint := FingerprintOf(fp, e, e.manifest.value, e.capabilities);
      var recorded := Upserted(w, id, Approved, Some(fingerprint));
      forall name | name in recorded.toolMap && recorded.toolMap[name].serviceId != id
        ensures Agrees(recorded, name, fp)
      {
        assert Agrees(w, name, fp);
      }
      ExposingKeepsAgreement(recorded, id, e.manifest.value, fp);
    } else {
      assert forall name :: name in w.toolMap ==> w.toolMap[name].serviceId != id;
      var after := ApprovedByOperator(w, id, fp);
      assert after.toolMap == w.toolMap;
      forall name | name in after.toolMap ensures Agrees(after, name, fp) {
        assert Agrees(w, name, fp);
      }
    }
  }

  /** Removing tools, or changing what concerns only services without tools, keeps the rest in agreement. */
  lemma FewerToolsAgree(before: World, after: World, fp: Fingerprint)
    requires AllAgree(before, fp)
    requires OnlyTaken(before, after)
    ensures AllAgree(after, fp)
  {
    forall name | name in after.toolMap ensures Agrees(after, name, fp) {
      assert Agrees(before, name, fp);
    }
  }

  /** The parts of a service's records that agreement looks at are the same. */
  ghost predicate SameStanding(before: World, after: World, id: string)
  {
    id in before.services && id in before.approvals && id in after.services && id in after.approvals &&
    after.approvals[id] == before.approvals[id] &&
    after.services[id].(registeredTools := [], healthy := true)
      == before.services[id].(registeredTools := [], healthy := true)
  }

  lemma AgreeingStand(w: World, fp: Fingerprint)
    requires AllAgree(w, fp)
    ensures Standing(w)
  {
    assert forall name :: name in w.toolMap ==> Agrees(w, name, fp);
  }

  /** The synchronous steps other than checks and approvals only take tools away. */
  lemma RemovingStepAgrees(w: World, step: Step, fp: Fingerprint)
    requires AllAgree(w, fp)
    requires step.ProcessStarts? || step.ProcessStops? || step.TurnsUnhealthy? || step.OperatorRevokes? ||
             step.ExternalHealthy? || step.ExternalUnhealthy? || step.UndeclaredRemoved? || step.HealthyResumes?
    ensures AllAgree(Next(w, step, fp), fp)
  {
    hide AllAgree, SameStanding;
    AgreeingStand(w, fp);
    OnlyTakesAway(w, step, fp);
    FewerToolsAgree(w, Next(w, step, fp), fp);
  }

  /** Tools are only taken away, and what is left stands as before. */
  ghost predicate OnlyTaken(w: World, after: World)
  {
    forall name :: name in after.toolMap ==>
      name in w.toolMap && after.toolMap[name] == w.toolMap[name] &&
      SameStanding(w, after, after.toolMap[name].serviceId)
  }

  ghost predicate Standing(w: World)
  {
    forall name :: name in w.toolMap ==>
      w.toolMap[name].serviceId in w.services && w.toolMap[name].serviceId in w.approvals
  }

  lemma OnlyTakesAway(w: World, step: Step, fp: Fingerprint)
    requires Standing(w)
    requires step.ProcessStarts? || step.ProcessStops? || step.TurnsUnhealthy? || step.OperatorRevokes? ||
             step.ExternalHealthy? || step.ExternalUnhealthy? || step.UndeclaredRemoved? || step.HealthyResumes?
    ensures OnlyTaken(w, Next(w, step, fp))
  {
    hide Deregistered, ToolsDropped, OnlyTaken, Standing, HealthSet, StatusSet, ApprovalRevoked, WithoutServices;
    match step
    case ProcessStarts(id, d) => RegisteredTakesNothing(w, id, FreshEntry(Managed, d.title, d.url, d.capabilities));
    case ProcessStops(id) => StopTakesAway(w, id);
    case ExternalHealthy(id, d) => ExternalTakesAway(w, id, d);
    case TurnsUnhealthy(id) => DownTakesAway(w, id);
    case ExternalUnhealthy(id) => DownTakesAway(w, id);
    case OperatorRevokes(id) => RevokingTakesAway(w, id);
    case HealthyResumes(id) => MarkingTakesNothing(w, id);
    case UndeclaredRemoved(declared) => RemovalTakesAway(w, Undeclared(w, declared));
  }

  lemma RegisteredTakesNothing(w: World, id: string, e: Entry)
    requires Standing(w)
    ensures OnlyTaken(w, Registered(w, id, e)) && OnlyTaken(w, w)
  {
  }

  lemma MarkingTakesNothing(w: World, id: string)
    requires Standing(w)
    ensures OnlyTaken(w, HealthSet(w, id, true)) && OnlyTaken(w, w)
  {
  }

  lemma RemovalTakesAway(w: World, ids: set<string>)
    requires Standing(w)
    ensures OnlyTaken(w, WithoutServices(w, ids))
  {
  }

  lemma DownTakesAway(w: World, id: string)
    requires Standing(w)
    ensures OnlyTaken(w, HealthSet(ToolsDropped(w, id), id, false)) && OnlyTaken(w, w)
  {
    hide ToolsDropped;
    DroppedStands(w, id);
  }

  lemma RevokingTakesAway(w: World, id: string)
    requires Standing(w)
    ensures OnlyTaken(w, StatusSet(ApprovalRevoked(ToolsDropped(w, id), id), id, Revoked))
  {
    hide ToolsDropped;
    DroppedStands(w, id);
  }

  lemma ExternalTakesAway(w: World, id: string, d: Declaration)
    requires Standing(w)
    ensures OnlyTaken(w, ExternalRegistered(w, id, d))
  {
    hide Deregistered;
    DeregisteredIsRemoved(w, id);
  }

  lemma StopTakesAway(w: World, id: string)
    requires Standing(w)
    ensures OnlyTaken(w, Deregistered(ToolsDropped(w, id), id))
  {
    hide Deregistered, ToolsDropped;
    DroppingTwice(w, id);
    DeregisteredIsRemoved(w, id);
    DroppedStands(w, id);
  }

  lemma DroppedStands(w: World, id: string)
    ensures
      var after := ToolsDropped(w, id);
      after.services.Keys == w.services.Keys && after.toolMap == WithoutTools(w.toolMap, id) &&
      after.approvals == w.approvals &&
      forall other :: other in w.services && other != id ==> after.services[other] == w.services[other]
  {
    DroppedView(w, id);
  }

  /** A manifest stored on an entry that exposes nothing, and its check: what follows a fetch. */
  lemma FetchKeepsAgreement(w: World, id: string, m: Manifest, fp: Fingerprint)
    requires AllAgree(w, fp) && id in w.services && forall name :: name in w.toolMap ==> w.toolMap[name].serviceId != id
    ensures AllAgree(Checked(ManifestStored(w, id, m), id, m, w.services[id].capabilities, fp), fp)
  {
    hide AllAgree, Checked, FingerprintOf;
    var stored := ManifestStored(w, id, m);
    AgreeingStand(w, fp);
    FewerToolsAgree(w, stored, fp);
    CheckKeepsAgreement(stored, id, fp);
  }

  lemma RunSteps(w: World, a: Step, b: Step, c: Step, fp: Fingerprint)
    ensures Run(w, [], fp) == w && Run(w, [a], fp) == Next(w, a, fp)
    ensures Run(w, [a, b], fp) == Next(Next(w, a, fp), b, fp)
    ensures Run(w, [a, b, c], fp) == Next(Next(Next(w, a, fp), b, fp), c, fp)
  {
    hide Next;
    assert [a, b, c][1..] == [b, c] && [b, c][1..] == [c] && [a, b][1..] == [b] && [b][1..] == [] && [a][1..] == [];
    assert [c][1..] == [];
    var x := Next(w, a, fp);
    assert Run(x, [b], fp) == Run(Next(x, b, fp), [], fp);
    assert Run(Next(x, b, fp), [c], fp) == Run(Next(Next(x, b, fp), c, fp), [], fp);
  }

  lemma FreshServiceHasNoTools(w: World, id: string, tier: Tier, d: Declaration, fp: Fingerprint)
    requires AllAgree(w, fp)
    ensures
      var after := Registered(Deregistered(w, id), id, FreshEntry(tier, d.title, d.url, d.capabilities));
      id in after.services && after.services[id].capabilities == d.capabilities &&
      forall name :: name in after.toolMap ==> after.toolMap[name].serviceId != id
  {
    AgreeingStand(w, fp);
  }

  lemma UpKeepsAgreement(w: World, start: Step, id: string, d: Declaration, fetched: Option<Manifest>, fp: Fingerprint)
    requires AllAgree(w, fp)
    requires start == ExternalHealthy(id, d) || (start == ProcessStarts(id, d) && id !in w.services)
    ensures AllAgree(Run(w, [start] + AfterFetch(id, d, fetched), fp), fp)
  {
    hide AllAgree, Checked, ManifestStored, Run;
    var up := Next(w, start, fp);
    RemovingStepAgrees(w, start, fp);
    FreshServiceHasNoTools(w, id, External, d, fp);
    FreshServiceHasNoTools(w, id, Managed, d, fp);
    match fetched
    case None =>
      assert [start] + [] == [start];
      RunSteps(w, start, start, start, fp);
    case Some(m) =>
      var arrives, resumes := ManifestArrives(id, m), CheckResumes(id, m, d.capabilities);
      assert [start] + [arrives, resumes] == [start, arrives, resumes];
      RunSteps(w, start, arrives, resumes, fp);
      FetchKeepsAgreement(up, id, m, fp);
  }

  lemma HandlerKeepsAgreement(w: World, h: Handler, fp: Fingerprint)
    requires AllAgree(w, fp)
    ensures AllAgree(Handle(w, h, fp), fp)
  {
    hide AllAgree, Next, Run;
    match h
    case Started(id, d, fetched) =>
      if id in w.services {
        RunSteps(w, ProcessStarts(id, d), ProcessStarts(id, d), ProcessStarts(id, d), fp);
      } else {
        UpKeepsAgreement(w, ProcessStarts(id, d), id, d, fetched, fp);
      }
    case ExternalUp(id, d, fetched) => UpKeepsAgreement(w, ExternalHealthy(id, d), id, d, fetched, fp);
    case HealthUp(id) => HealthUpKeepsAgreement(w, id, fp);
    case ApprovedBy(id) =>
      OneStep(w, OperatorApproves(id), fp);
      NextApproves(w, id, fp);
      ApprovalKeepsAgreement(w, id, fp);
    case Stopped(id) => OneRemovingStep(w, ProcessStops(id), fp);
    case HealthDown(id) => OneRemovingStep(w, TurnsUnhealthy(id), fp);
    case RevokedBy(id) => OneRemovingStep(w, OperatorRevokes(id), fp);
    case ExternalDown(id) => OneRemovingStep(w, ExternalUnhealthy(id), fp);
    case Reconciled(declared) => OneRemovingStep(w, UndeclaredRemoved(declared), fp);
  }

  lemma OneStep(w: World, step: Step, fp: Fingerprint)
    ensures Run(w, [], fp) == w && Run(w, [step], fp) == Next(w, step, fp)
  {
    hide Next;
    RunSteps(w, step, step, step, fp);
  }

  lemma NextApproves(w: World, id: string, fp: Fingerprint)
    ensures Next(w, OperatorApproves(id), fp) == ApprovedByOperator(w, id, fp)
  {
  }

  lemma OneRemovingStep(w: World, step: Step, fp: Fingerprint)
    requires AllAgree(w, fp)
    requires step.ProcessStops? || step.TurnsUnhealthy? || step.OperatorRevokes? || step.ExternalUnhealthy? ||
             step.UndeclaredRemoved? || step.HealthyResumes?
    ensures AllAgree(Run(w, [step], fp), fp)
  {
    hide AllAgree, Next, Run;
    OneStep(w, step, fp);
    RemovingStepAgrees(w, step, fp);
  }

  lemma HealthUpKeepsAgreement(w: World, id: string, fp: Fingerprint)
    requires AllAgree(w, fp)
    ensures AllAgree(Handle(w, HealthUp(id), fp), fp)
  {
    hide AllAgree, Checked, Run;
    RunSteps(w, TurnsHealthy(id), HealthyResumes(id), HealthyResumes(id), fp);
    if id in w.services && w.services[id].manifest.Some? {
      CheckKeepsAgreement(w, id, fp);
      RemovingStepAgrees(Next(w, TurnsHealthy(id), fp), HealthyResumes(id), fp);
    } else if id in w.services {
      RemovingStepAgrees(w, HealthyResumes(id), fp);
    }
  }

  function RunHandlers(w: World, handlers: seq<Handler>, fp: Fingerprint): World
    decreases |handlers|
  {
    if handlers == [] then w else RunHandlers(Handle(w, handlers[0], fp), handlers[1..], fp)
  }

  lemma {:induction false} HandlersKeepAgreement(w: World, handlers: seq<Handler>, fp: Fingerprint)
    requires AllAgree(w, fp)
    ensures AllAgree(RunHandlers(w, handlers, fp), fp)
    decreases |handlers|
  {
    hide AllAgree, Handle;
    if handlers != [] {
      HandlerKeepsAgreement(w, handlers[0], fp);
      HandlersKeepAgreement(Handle(w, handlers[0], fp), handlers[1..], fp);
    }
  }

  /** Main result: with uninterrupted handlers every exposed tool is one of the manifest that was approved. */
  lemma ExposedToolsMatchApproval(approvals: map<string, Approval>, handlers: seq<Handler>, fp: Fingerprint)
    ensures AllAgree(RunHandlers(Startup(approvals), handlers, fp), fp)
  {
    HandlersKeepAgreement(Startup(approvals), handlers, fp);
  }
}
