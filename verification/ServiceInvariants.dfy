/** What every interleaving of the lifecycle steps keeps: tools only of approved services, and matching tool lists. */
module ServiceInvariants {
  import opened Prelude
  import opened ServiceWorld
  import opened ServiceLifecycle

  // ----- Tools belong to approved services -----

  /** Every tool belongs to a registered service whose stored approval says approved. */
  ghost predicate ToolsApproved(w: World)
  {
    forall name :: name in w.toolMap ==> MayExpose(w, w.toolMap[name].serviceId)
  }

  ghost predicate MayExpose(w: World, id: string)
  {
    id in w.services && id in w.approvals && w.approvals[id].status == Approved
  }

  /** Registering sets exactly the names of the tools, all to the service. */
  lemma {:induction false} WithToolsOwners(toolMap: map<string, HttpTool>, id: string, tools: seq<Tool>)
    ensures
      var after := WithTools(toolMap, id, tools);
      (forall name :: name in NamesOf(tools) ==> name in after && after[name].serviceId == id) &&
      (forall name :: name !in NamesOf(tools) ==>
         (name in after <==> name in toolMap) && (name in toolMap ==> after[name] == toolMap[name]))
    decreases |tools|
  {
    if tools != [] {
      var n := |tools| - 1;
      WithToolsOwners(toolMap, id, tools[..n]);
      assert NamesOf(tools) == NamesOf(tools[..n]) + [tools[n].name];
    }
  }

  lemma RegisteringKeepsApproved(w: World, id: string, m: Manifest)
    requires ToolsApproved(w) && MayExpose(w, id)
    ensures ToolsApproved(ToolsRegistered(w, id, m))
  {
    hide WithTools;
    WithToolsOwners(w.toolMap, id, m.tools);
  }

  lemma CheckKeepsApproved(w: World, id: string, m: Manifest, capabilities: seq<string>, fp: Fingerprint)
    requires ToolsApproved(w)
    ensures ToolsApproved(Checked(w, id, m, capabilities, fp))
  {
    hide ToolsRegistered;
    if id in w.services && id in w.approvals && w.approvals[id].status == Approved {
      RegisteringKeepsApproved(StatusSet(w, id, Approved), id, m);
    }
  }

  lemma StepKeepsApproved(w: World, step: Step, fp: Fingerprint)
    requires ToolsApproved(w)
    ensures ToolsApproved(Next(w, step, fp))
  {
    hide ToolsRegistered, Checked, ApprovedByOperator;
    match step
    case CheckResumes(id, m, capabilities) => CheckKeepsApproved(w, id, m, capabilities, fp);
    case TurnsHealthy(id) =>
      if id in w.services && w.services[id].manifest.Some? {
        CheckKeepsApproved(w, id, w.services[id].manifest.value, w.services[id].capabilities, fp);
      }
    case OperatorApproves(id) => ApprovingKeepsApproved(w, id, fp);
    case _ => OtherStepKeepsApproved(w, step, fp);
  }

  lemma ApprovingKeepsApproved(w: World, id: string, fp: Fingerprint)
    requires ToolsApproved(w)
    ensures ToolsApproved(ApprovedByOperator(w, id, fp))
  {
    hide ToolsRegistered;
    if id in w.services && w.services[id].manifest.Some? {
      var e := w.services[id];
      var fingerprint := FingerprintOf(fp, e, e.manifest.value, e.capabilities);
      RegisteringKeepsApproved(StatusSet(Upserted(w, id, Approved, Some(fingerprint)), id, Approved), id,
        e.manifest.value);
    }
  }

  /** The steps that expose nothing. */
  lemma OtherStepKeepsApproved(w: World, step: Step, fp: Fingerprint)
    requires ToolsApproved(w) && !step.CheckResumes? && !step.TurnsHealthy? && !step.OperatorApproves?
    ensures ToolsApproved(Next(w, step, fp))
  {
    hide ToolsRegistered, Checked, ApprovedByOperator;
  }

  function Run(w: World, steps: seq<Step>, fp: Fingerprint): World
    decreases |steps|
  {
    if steps == [] then w else Run(Next(w, steps[0], fp), steps[1..], fp)
  }

  /** Nothing is running and no tool is exposed; approvals of earlier runs are on record. */
  function Startup(approvals: map<string, Approval>): World
  {
    World(map[], map[], approvals)
  }

  lemma {:induction false} RunKeepsApproved(w: World, steps: seq<Step>, fp: Fingerprint)
    requires ToolsApproved(w)
    ensures ToolsApproved(Run(w, steps, fp))
    decreases |steps|
  {
    hide ToolsApproved, Next;
    if steps != [] {
      StepKeepsApproved(w, steps[0], fp);
      RunKeepsApproved(Next(w, steps[0], fp), steps[1..], fp);
    }
  }

  /** Main result: over every interleaving, each exposed tool belongs to a registered, approved service. */
  lemma ExposedToolsAreApproved(approvals: map<string, Approval>, steps: seq<Step>, fp: Fingerprint)
    ensures ToolsApproved(Run(Startup(approvals), steps, fp))
  {
    RunKeepsApproved(Startup(approvals), steps, fp);
  }

  // ----- Revocation lasts -----

  predicate HasTools(w: World, id: string)
  {
    exists name :: name in w.toolMap && w.toolMap[name].serviceId == id
  }

  lemma RevokedStaysRevoked(w: World, step: Step, id: string, fp: Fingerprint)
    requires id in w.approvals && w.approvals[id].status == Revoked
    requires step != OperatorApproves(id)
    ensures id in Next(w, step, fp).approvals && Next(w, step, fp).approvals[id].status == Revoked
  {
    hide ToolsRegistered;
    match step
    case CheckResumes(other, m, capabilities) => ChecksKeepRevocation(w, other, m, capabilities, id, fp);
    case TurnsHealthy(other) =>
      if other in w.services && w.services[other].manifest.Some? {
        ChecksKeepRevocation(w, other, w.services[other].manifest.value, w.services[other].capabilities, id, fp);
      }
    case OperatorApproves(other) => ApprovalOfOthers(w, other, id, fp);
    case _ =>
  }

  lemma ChecksKeepRevocation(
      w: World, other: string, m: Manifest, capabilities: seq<string>, id: string, fp: Fingerprint)
    requires id in w.approvals && w.approvals[id].status == Revoked
    ensures id in Checked(w, other, m, capabilities, fp).approvals
    ensures Checked(w, other, m, capabilities, fp).approvals[id].status == Revoked
  {
  }

  lemma ApprovalOfOthers(w: World, other: string, id: string, fp: Fingerprint)
    requires other != id && id in w.approvals
    ensures id in ApprovedByOperator(w, other, fp).approvals
    ensures ApprovedByOperator(w, other, fp).approvals[id] == w.approvals[id]
  {
  }

  lemma {:induction false} RunKeepsRevocation(w: World, steps: seq<Step>, id: string, fp: Fingerprint)
    requires id in w.approvals && w.approvals[id].status == Revoked
    requires OperatorApproves(id) !in steps
    ensures id in Run(w, steps, fp).approvals && Run(w, steps, fp).approvals[id].status == Revoked
    decreases |steps|
  {
    hide Next;
    if steps != [] {
      RevokedStaysRevoked(w, steps[0], id, fp);
      RunKeepsRevocation(Next(w, steps[0], fp), steps[1..], id, fp);
    }
  }

  /**
    Main result: from a revocation on, whatever manifests arrive late and whatever restarts, the service exposes no
    tool until an operator approves it again.
   */
  lemma RevokedExposeNothing(w: World, steps: seq<Step>, id: string, fp: Fingerprint)
    requires ToolsApproved(w) && OperatorApproves(id) !in steps
    ensures !HasTools(Run(w, [OperatorRevokes(id)] + steps, fp), id)
  {
    hide Next, Run;
    var revoked := Next(w, OperatorRevokes(id), fp);
    assert ([OperatorRevokes(id)] + steps)[1..] == steps;
    RunCons(w, OperatorRevokes(id), steps, fp);
    StepKeepsApproved(w, OperatorRevokes(id), fp);
    RevocationIsStored(w, id, fp);
    RunKeepsApproved(revoked, steps, fp);
    RunKeepsRevocation(revoked, steps, id, fp);
  }

  lemma RunCons(w: World, step: Step, steps: seq<Step>, fp: Fingerprint)
    ensures Run(w, [step] + steps, fp) == Run(Next(w, step, fp), steps, fp)
  {
    hide Next;
    assert ([step] + steps)[1..] == steps;
  }

  lemma RevocationIsStored(w: World, id: string, fp: Fingerprint)
    ensures id in Next(w, OperatorRevokes(id), fp).approvals
    ensures Next(w, OperatorRevokes(id), fp).approvals[id].status == Revoked
  {
  }

  // ----- Tool lists of the entries -----

  /** Every exposed tool is on its service's list. */
  ghost predicate ToolsListed(w: World)
  {
    forall name :: name in w.toolMap ==>
      w.toolMap[name].serviceId in w.services && name in w.services[w.toolMap[name].serviceId].registeredTools
  }

  /** Every listed tool is exposed by the service that lists it. */
  ghost predicate ListsExact(w: World)
  {
    forall id, name :: id in w.services && name in w.services[id].registeredTools ==>
      name in w.toolMap && w.toolMap[name].serviceId == id
  }

  /** A division of the tool names between services; `owner` says whose name it is. */
  type Owner = string -> string

  ghost predicate Owns(owner: Owner, id: string, m: Manifest)
  {
    forall i :: 0 <= i < |m.tools| ==> owner(m.tools[i].name) == id
  }

  /** Manifests that services present keep to their own names. */
  ghost predicate Respects(step: Step, owner: Owner)
  {
    match step
    case ManifestArrives(id, m) => Owns(owner, id, m)
    case CheckResumes(id, m, _) => Owns(owner, id, m)
    case _ => true
  }

  ghost predicate Divided(w: World, owner: Owner)
  {
    (forall name :: name in w.toolMap ==> w.toolMap[name].serviceId == owner(name)) &&
    (forall id :: id in w.services && w.services[id].manifest.Some? ==> Owns(owner, id, w.services[id].manifest.value))
  }

  /** What is kept about names: listed as exposed, exposed as listed, each name with its owner. */
  ghost predicate InStep(w: World, owner: Owner)
  {
    ToolsListed(w) && ListsExact(w) && Divided(w, owner)
  }

  /** Which names a registration moves, and which lists it extends. */
  lemma RegisteredView(w: World, id: string, m: Manifest)
    requires id in w.services
    ensures
      var after := ToolsRegistered(w, id, m);
      after.toolMap == WithTools(w.toolMap, id, m.tools) && after.services.Keys == w.services.Keys &&
      after.services[id].registeredTools == w.services[id].registeredTools + NamesOf(m.tools) &&
      after.services[id].manifest == w.services[id].manifest &&
      forall other :: other in w.services && other != id ==> after.services[other] == w.services[other]
  {
    hide WithTools, NamesOf;
  }

  lemma RegisteringKeepsStep(w: World, id: string, m: Manifest, owner: Owner)
    requires InStep(w, owner) && id in w.services && Owns(owner, id, m)
    ensures InStep(ToolsRegistered(w, id, m), owner)
  {
    RegisteringKeepsDivided(w, id, m, owner);
    RegisteringKeepsListed(w, id, m);
    RegisteringKeepsExact(w, id, m, owner);
  }

  lemma RegisteringKeepsDivided(w: World, id: string, m: Manifest, owner: Owner)
    requires Divided(w, owner) && id in w.services && Owns(owner, id, m)
    ensures Divided(ToolsRegistered(w, id, m), owner)
  {
    hide WithTools, Owns, NamesOf, ToolsRegistered;
    WithToolsOwners(w.toolMap, id, m.tools);
    OwnedNames(id, m, owner);
    RegisteredView(w, id, m);
  }

  lemma RegisteringKeepsListed(w: World, id: string, m: Manifest)
    requires ToolsListed(w) && id in w.services
    ensures ToolsListed(ToolsRegistered(w, id, m))
  {
    hide WithTools, NamesOf, ToolsRegistered;
    WithToolsOwners(w.toolMap, id, m.tools);
    RegisteredView(w, id, m);
  }

  lemma RegisteringKeepsExact(w: World, id: string, m: Manifest, owner: Owner)
    requires ListsExact(w) && Divided(w, owner) && id in w.services && Owns(owner, id, m)
    ensures ListsExact(ToolsRegistered(w, id, m))
  {
    hide WithTools, Owns, NamesOf, ToolsRegistered;
    WithToolsOwners(w.toolMap, id, m.tools);
    OwnedNames(id, m, owner);
    RegisteredView(w, id, m);
    var after := ToolsRegistered(w, id, m);
    forall other, name | other in after.services && name in after.services[other].registeredTools
      ensures name in after.toolMap && after.toolMap[name].serviceId == other
    {
      if !(other == id && name in NamesOf(m.tools)) {
        assert name in w.services[other].registeredTools;
        assert owner(name) == other;
      }
    }
  }

  lemma OwnedNames(id: string, m: Manifest, owner: Owner)
    requires Owns(owner, id, m)
    ensures forall name :: name in NamesOf(m.tools) ==> owner(name) == id
  {
  }

  lemma DroppedView(w: World, id: string)
    ensures
      var after := ToolsDropped(w, id);
      after.toolMap == WithoutTools(w.toolMap, id) && after.services.Keys == w.services.Keys &&
      (forall other :: other in w.services && other != id ==> after.services[other] == w.services[other]) &&
      (id in w.services ==>
         after.services[id].registeredTools == [] && after.services[id].manifest == w.services[id].manifest)
  {
    hide WithoutTools;
  }

  lemma DroppingKeepsStep(w: World, id: string, owner: Owner)
    requires InStep(w, owner)
    ensures InStep(ToolsDropped(w, id), owner)
  {
    hide Owns, ToolsDropped;
    DroppingKeepsLists(w, id);
    DroppedView(w, id);
  }

  lemma DroppingKeepsLists(w: World, id: string)
    requires ToolsListed(w) && ListsExact(w)
    ensures ToolsListed(ToolsDropped(w, id)) && ListsExact(ToolsDropped(w, id))
  {
    hide ToolsDropped;
    DroppedView(w, id);
    var after := ToolsDropped(w, id);
    forall other, name | other in after.services && name in after.services[other].registeredTools
      ensures name in after.toolMap && after.toolMap[name].serviceId == other
    {
      assert name in w.services[other].registeredTools;
    }
  }

  lemma DeregisteredIsRemoved(w: World, id: string)
    ensures Deregistered(w, id) == if id in w.services then WithoutServices(w, {id}) else w
  {
    if id in w.services {
      assert Deregistered(w, id).services == w.services - {id};
      assert Deregistered(w, id).toolMap == WithoutServices(w, {id}).toolMap;
    }
  }

  lemma DeregisteringKeepsStep(w: World, id: string, owner: Owner)
    requires InStep(w, owner)
    ensures InStep(Deregistered(w, id), owner)
  {
    hide InStep, Deregistered, WithoutServices;
    DeregisteredIsRemoved(w, id);
    RemovalKeepsStep(w, {id}, owner);
  }

  /** Two worlds that differ in nothing that concerns tool names. */
  ghost predicate SameTools(a: World, b: World)
  {
    a.toolMap == b.toolMap && a.services.Keys == b.services.Keys &&
    forall id :: id in a.services ==>
      a.services[id].registeredTools == b.services[id].registeredTools &&
      a.services[id].manifest == b.services[id].manifest
  }

  lemma SameToolsSameStep(a: World, b: World, owner: Owner)
    requires SameTools(a, b) && InStep(a, owner)
    ensures InStep(b, owner)
  {
    hide Owns;
  }

  lemma EditingSameTools(w: World, id: string, status: Status, healthy: bool, approvals: map<string, Approval>)
    ensures SameTools(w, w.(approvals := approvals)) && SameTools(w, HealthSet(w, id, healthy))
    ensures SameTools(w, StatusSet(w, id, status)) && SameTools(w, StatusSet(w.(approvals := approvals), id, status))
  {
    hide SameTools;
    assert SameTools(w, w.(approvals := approvals)) by { SameServicesSameTools(w, w.(approvals := approvals)); }
    HealthSameTools(w, id, healthy);
    StatusSameTools(w, id, status);
    SameServicesSameTools(StatusSet(w, id, status), StatusSet(w.(approvals := approvals), id, status));
    SameToolsChain(w, StatusSet(w, id, status), StatusSet(w.(approvals := approvals), id, status));
  }

  lemma SameServicesSameTools(a: World, b: World)
    requires a.toolMap == b.toolMap && a.services == b.services
    ensures SameTools(a, b)
  {
  }

  lemma HealthSameTools(w: World, id: string, healthy: bool)
    ensures SameTools(w, HealthSet(w, id, healthy))
  {
  }

  lemma StatusSameTools(w: World, id: string, status: Status)
    ensures SameTools(w, StatusSet(w, id, status))
  {
  }

  lemma SameToolsChain(a: World, b: World, c: World)
    requires SameTools(a, b) && SameTools(b, c)
    ensures SameTools(a, c)
  {
  }

  /** Changing the status or health of an entry, and the approvals. */
  lemma EditingKeepsStep(
      w: World, id: string, status: Status, healthy: bool, approvals: map<string, Approval>, owner: Owner)
    requires InStep(w, owner)
    ensures InStep(w.(approvals := approvals), owner) && InStep(HealthSet(w, id, healthy), owner)
    ensures InStep(StatusSet(w, id, status), owner) && InStep(StatusSet(w.(approvals := approvals), id, status), owner)
  {
    hide InStep, SameTools, StatusSet, HealthSet;
    EditingSameTools(w, id, status, healthy, approvals);
    SameToolsSameStep(w, w.(approvals := approvals), owner);
    SameToolsSameStep(w, HealthSet(w, id, healthy), owner);
    SameToolsSameStep(w, StatusSet(w, id, status), owner);
    SameToolsSameStep(w, StatusSet(w.(approvals := approvals), id, status), owner);
  }

  lemma CheckKeepsStep(w: World, id: string, m: Manifest, capabilities: seq<string>, fp: Fingerprint, owner: Owner)
    requires InStep(w, owner) && Owns(owner, id, m)
    ensures InStep(Checked(w, id, m, capabilities, fp), owner)
  {
    hide ToolsRegistered, InStep, Owns;
    EditingKeepsStep(w, id, Approved, true, w.approvals, owner);
    EditingKeepsStep(w, id, Revoked, true, w.approvals, owner);
    EditingKeepsStep(w, id, PendingReapproval, true, w.approvals, owner);
    EditingKeepsStep(w, id, Pending, true, w.approvals[id := Approval(Pending, None)], owner);
    if id in w.services {
      RegisteringKeepsStep(StatusSet(w, id, Approved), id, m, owner);
    }
  }

  lemma ApprovingKeepsStep(w: World, id: string, fp: Fingerprint, owner: Owner)
    requires InStep(w, owner)
    ensures InStep(ApprovedByOperator(w, id, fp), owner)
  {
    hide ToolsRegistered;
    if id in w.services && w.services[id].manifest.Some? {
      var e := w.services[id];
      var approvals := w.approvals[id :=
        Approval(Approved, Some(FingerprintOf(fp, e, e.manifest.value, e.capabilities)))];
      EditingKeepsStep(w, id, Approved, true, approvals, owner);
      RegisteringKeepsStep(StatusSet(w.(approvals := approvals), id, Approved), id, e.manifest.value, owner);
    } else {
      EditingKeepsStep(w, id, Approved, true, w.approvals[id := Approval(Approved, Some(""))], owner);
    }
  }

  lemma ArrivalKeepsStep(w: World, id: string, m: Manifest, owner: Owner)
    requires InStep(w, owner) && Owns(owner, id, m)
    ensures InStep(ManifestStored(w, id, m), owner)
  {
  }

  lemma RegistrationKeepsStep(w: World, id: string, tier: Tier, d: Declaration, owner: Owner)
    requires InStep(w, owner)
    ensures InStep(Registered(w, id, FreshEntry(tier, d.title, d.url, d.capabilities)), owner)
  {
  }

  lemma RemovalKeepsStep(w: World, ids: set<string>, owner: Owner)
    requires InStep(w, owner)
    ensures InStep(WithoutServices(w, ids), owner)
  {
  }

  lemma StepKeepsStep(w: World, step: Step, fp: Fingerprint, owner: Owner)
    requires InStep(w, owner) && Respects(step, owner)
    ensures InStep(Next(w, step, fp), owner)
  {
    hide InStep, Checked, ApprovedByOperator, ToolsDropped, Deregistered, StatusSet, HealthSet, ManifestStored,
         Registered, WithoutServices;
    match step
    case ProcessStarts(id, d) => RegistrationKeepsStep(w, id, Managed, d, owner);
    case ManifestArrives(id, m) => ArrivalKeepsStep(w, id, m, owner);
    case CheckResumes(id, m, capabilities) => CheckKeepsStep(w, id, m, capabilities, fp, owner);
    case ProcessStops(id) =>
      DroppingKeepsStep(w, id, owner);
      DeregisteringKeepsStep(ToolsDropped(w, id), id, owner);
    case TurnsHealthy(id) =>
      EditingKeepsStep(w, id, Pending, true, w.approvals, owner);
      if id in w.services && w.services[id].manifest.Some? {
        StoredManifestIsOwned(w, id, owner);
        CheckKeepsStep(w, id, w.services[id].manifest.value, w.services[id].capabilities, fp, owner);
      }
    case HealthyResumes(id) => EditingKeepsStep(w, id, Pending, true, w.approvals, owner);
    case TurnsUnhealthy(id) =>
      DroppingKeepsStep(w, id, owner);
      EditingKeepsStep(ToolsDropped(w, id), id, Pending, false, w.approvals, owner);
    case OperatorApproves(id) => ApprovingKeepsStep(w, id, fp, owner);
    case OperatorRevokes(id) =>
      DroppingKeepsStep(w, id, owner);
      var dropped := ToolsDropped(w, id);
      EditingKeepsStep(dropped, id, Revoked, true, ApprovalRevoked(dropped, id).approvals, owner);
    case ExternalHealthy(id, d) =>
      DeregisteringKeepsStep(w, id, owner);
      RegistrationKeepsStep(Deregistered(w, id), id, External, d, owner);
    case ExternalUnhealthy(id) =>
      DroppingKeepsStep(w, id, owner);
      EditingKeepsStep(ToolsDropped(w, id), id, Pending, false, w.approvals, owner);
    case UndeclaredRemoved(declared) => RemovalKeepsStep(w, Undeclared(w, declared), owner);
  }

  lemma StoredManifestIsOwned(w: World, id: string, owner: Owner)
    requires InStep(w, owner) && id in w.services && w.services[id].manifest.Some?
    ensures Owns(owner, id, w.services[id].manifest.value)
  {
  }

  lemma {:induction false} RunKeepsStep(w: World, steps: seq<Step>, fp: Fingerprint, owner: Owner)
    requires InStep(w, owner) && forall step :: step in steps ==> Respects(step, owner)
    ensures InStep(Run(w, steps, fp), owner)
    decreases |steps|
  {
    hide InStep, Next, Respects;
    if steps != [] {
      assert steps[0] in steps;
      StepKeepsStep(w, steps[0], fp, owner);
      RunKeepsStep(Next(w, steps[0], fp), steps[1..], fp, owner);
    }
  }

  /** Main result: when services keep to their own names, every entry lists exactly the tools exposed for it. */
  lemma ListedToolsAreExposedTools(
      approvals: map<string, Approval>, steps: seq<Step>, fp: Fingerprint, owner: Owner, id: string)
    requires forall step :: step in steps ==> Respects(step, owner)
    requires id in Run(Startup(approvals), steps, fp).services
    ensures
      var w := Run(Startup(approvals), steps, fp);
      forall name :: name in w.services[id].registeredTools <==> name in w.toolMap && w.toolMap[name].serviceId == id
  {
    hide Run, Next, Respects;
    RunKeepsStep(Startup(approvals), steps, fp, owner);
  }

  /**
    Without a division of names: registering keeps the lists exact iff no other service lists one of the names. A name
    that is taken over stays on the list of the service that lost it.
   */
  lemma RegisteringKeepsListsExactIff(w: World, id: string, m: Manifest)
    requires ToolsListed(w) && ListsExact(w) && id in w.services
    ensures ListsExact(ToolsRegistered(w, id, m)) <==> !TakesOver(w, id, m)
  {
    hide WithTools, NamesOf;
    WithToolsOwners(w.toolMap, id, m.tools);
    var after := ToolsRegistered(w, id, m);
    assert after.services[id].registeredTools == w.services[id].registeredTools + NamesOf(m.tools);
    assert forall other :: other in w.services && other != id ==> after.services[other] == w.services[other];
    if TakesOver(w, id, m) {
      var other, name :| other in w.services && other != id && name in w.services[other].registeredTools &&
        name in NamesOf(m.tools);
      assert name in after.services[other].registeredTools && after.toolMap[name].serviceId == id;
    } else {
      forall other, name | other in after.services && name in after.services[other].registeredTools
        ensures name in after.toolMap && after.toolMap[name].serviceId == other
      {
        if !(other == id && name in NamesOf(m.tools)) {
          assert name in w.services[other].registeredTools;
        }
      }
    }
  }

  ghost predicate TakesOver(w: World, id: string, m: Manifest)
  {
    exists other, name :: other in w.services && other != id && name in w.services[other].registeredTools &&
      name in NamesOf(m.tools)
  }
}
