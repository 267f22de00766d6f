/** What each step of the service lifecycle brings about, and what it leaves alone. */
module ServiceEffects {
  import opened Prelude
  import opened ServiceWorld
  import opened ServiceLifecycle
  import opened ServiceInvariants
  import opened ServiceApprovals

  // ----- What is left alone -----

  /** The service, its record and the tools it exposes are the same, but for tool names that another one takes over. */
  ghost predicate Untouched(w: World, after: World, other: string)
  {
    (other in after.services <==> other in w.services) &&
    (other in w.services ==> after.services[other] == w.services[other]) &&
    (other in after.approvals <==> other in w.approvals) &&
    (other in w.approvals ==> after.approvals[other] == w.approvals[other]) &&
    forall name :: name in after.toolMap && after.toolMap[name].serviceId == other ==>
      name in w.toolMap && after.toolMap[name] == w.toolMap[name]
  }

  lemma RegisteringLeaves(w: World, id: string, m: Manifest, other: string)
    requires other != id
    ensures Untouched(w, ToolsRegistered(w, id, m), other)
  {
    hide WithTools, NamesOf;
    WithToolsOwners(w.toolMap, id, m.tools);
  }

  lemma CheckLeaves(w: World, id: string, m: Manifest, capabilities: seq<string>, fp: Fingerprint, other: string)
    requires other != id
    ensures Untouched(w, Checked(w, id, m, capabilities, fp), other)
  {
    hide ToolsRegistered, FingerprintOf;
    if id in w.services && IsApproved(w, id) {
      RegisteringLeaves(StatusSet(w, id, Approved), id, m, other);
    }
  }

  lemma ApprovingLeaves(w: World, id: string, fp: Fingerprint, other: string)
    requires other != id
    ensures Untouched(w, ApprovedByOperator(w, id, fp), other)
  {
    hide ToolsRegistered, FingerprintOf;
    if id in w.services && w.services[id].manifest.Some? {
      var e := w.services[id];
      var marked := StatusSet(
        Upserted(w, id, Approved, Some(FingerprintOf(fp, e, e.manifest.value, e.capabilities))), id, Approved);
      RegisteringLeaves(marked, id, e.manifest.value, other);
    }
  }

  lemma RestLeaves(w: World, step: Step, fp: Fingerprint, other: string)
    requires !step.UndeclaredRemoved? && !step.CheckResumes? && !step.TurnsHealthy? && !step.OperatorApproves?
    requires step.id != other
    ensures Untouched(w, Next(w, step, fp), other)
  {
    hide ToolsRegistered, Checked, ApprovedByOperator;
  }

  /** A step about one service leaves every other one alone. */
  lemma StepLeavesOthers(w: World, step: Step, fp: Fingerprint, other: string)
    requires !step.UndeclaredRemoved? && step.id != other
    ensures Untouched(w, Next(w, step, fp), other)
  {
    hide Untouched, Checked, ApprovedByOperator;
    match step
    case CheckResumes(id, m, capabilities) => CheckLeaves(w, id, m, capabilities, fp, other);
    case TurnsHealthy(id) =>
      if id in w.services && w.services[id].manifest.Some? {
        CheckLeaves(w, id, w.services[id].manifest.value, w.services[id].capabilities, fp, other);
      } else {
        MarkingLeaves(w, id, other);
      }
    case OperatorApproves(id) => ApprovingLeaves(w, id, fp, other);
    case _ => RestLeaves(w, step, fp, other);
  }

  lemma MarkingLeaves(w: World, id: string, other: string)
    requires other != id
    ensures Untouched(w, HealthSet(w, id, true), other) && Untouched(w, w, other)
  {
  }

  // ----- What is brought about -----

  /** All tools of the manifest are exposed for the service, of several with one name the last. */
  ghost predicate Exposes(w: World, id: string, m: Manifest)
  {
    forall i :: 0 <= i < |m.tools| && (forall j :: i < j < |m.tools| ==> m.tools[j].name != m.tools[i].name) ==>
      m.tools[i].name in w.toolMap && w.toolMap[m.tools[i].name] == HttpTool(id, m.tools[i].decl)
  }

  lemma {:induction false} RegisteredAreExposed(toolMap: map<string, HttpTool>, id: string, tools: seq<Tool>, i: nat)
    requires i < |tools| && forall j :: i < j < |tools| ==> tools[j].name != tools[i].name
    ensures
      var after := WithTools(toolMap, id, tools);
      tools[i].name in after && after[tools[i].name] == HttpTool(id, tools[i].decl)
    decreases |tools|
  {
    var n := |tools| - 1;
    if i < n {
      RegisteredAreExposed(toolMap, id, tools[..n], i);
    }
  }

  lemma RegisteringExposes(w: World, id: string, m: Manifest)
    ensures Exposes(ToolsRegistered(w, id, m), id, m)
    ensures id in w.services ==>
      var before, after := w.services[id], ToolsRegistered(w, id, m).services[id];
      after == before.(registeredTools := before.registeredTools + NamesOf(m.tools))
  {
    hide WithTools, NamesOf;
    forall i | 0 <= i < |m.tools| && (forall j :: i < j < |m.tools| ==> m.tools[j].name != m.tools[i].name)
      ensures
        var after := WithTools(w.toolMap, id, m.tools);
        m.tools[i].name in after && after[m.tools[i].name] == HttpTool(id, m.tools[i].decl)
    {
      RegisteredAreExposed(w.toolMap, id, m.tools, i);
    }
  }

  /** A check exposes the tools of the manifest iff its service is approved with this very fingerprint. */
  lemma CheckExposes(w: World, id: string, m: Manifest, capabilities: seq<string>, fp: Fingerprint)
    requires id in w.services
    ensures
      var after := Next(w, CheckResumes(id, m, capabilities), fp);
      if IsApproved(w, id) &&
         w.approvals[id].fingerprint == Some(fp(m, capabilities, w.services[id].tier, w.services[id].url))
      then Exposes(after, id, m) else after.toolMap == w.toolMap
  {
    hide ToolsRegistered;
    RegisteringExposes(StatusSet(w, id, Approved), id, m);
  }

  /** Approving puts the approval on record with the fingerprint of the manifest, and exposes its tools at once. */
  lemma ApprovingExposes(w: World, id: string, fp: Fingerprint)
    ensures
      var after := Next(w, OperatorApproves(id), fp);
      id in after.approvals && after.approvals[id].status == Approved &&
      (id in w.services ==> id in after.services && after.services[id].approvalStatus == Approved) &&
      (if id in w.services && w.services[id].manifest.Some? then
         var e := w.services[id];
         after.approvals[id].fingerprint == Some(fp(e.manifest.value, e.capabilities, e.tier, e.url)) &&
         Exposes(after, id, e.manifest.value)
       else after.approvals[id].fingerprint == Some("") && after.toolMap == w.toolMap)
  {
    hide ToolsRegistered;
    if id in w.services && w.services[id].manifest.Some? {
      var e := w.services[id];
      var marked := StatusSet(
        Upserted(w, id, Approved, Some(fp(e.manifest.value, e.capabilities, e.tier, e.url))), id, Approved);
      RegisteringExposes(marked, id, e.manifest.value);
      SameApprovals(marked, id, e.manifest.value);
      RegisteredStatus(marked, id, e.manifest.value);
    }
  }

  /** Revoking puts the revocation on record, keeping a fingerprint, and drops all tools of the service. */
  lemma RevokingDrops(w: World, id: string, fp: Fingerprint)
    ensures
      var after := Next(w, OperatorRevokes(id), fp);
      id in after.approvals && after.approvals[id].status == Revoked &&
      after.approvals[id].fingerprint == (if id in w.approvals then w.approvals[id].fingerprint else None) &&
      !HasTools(after, id) &&
      (id in w.services ==>
         id in after.services && after.services[id].approvalStatus == Revoked &&
         after.services[id].registeredTools == [])
  {
  }

  /** A service that goes down is marked and loses its tools; one that comes back is marked. */
  lemma HealthIsMarked(w: World, id: string, fp: Fingerprint)
    requires id in w.services
    ensures
      var down := Next(w, TurnsUnhealthy(id), fp);
      !HasTools(down, id) &&
      id in down.services && down.services[id] == w.services[id].(healthy := false, registeredTools := [])
    ensures
      var down := Next(w, ExternalUnhealthy(id), fp);
      !HasTools(down, id) &&
      id in down.services && down.services[id] == w.services[id].(healthy := false, registeredTools := [])
    ensures
      var up := Next(w, HealthyResumes(id), fp);
      up.toolMap == w.toolMap && id in up.services && up.services[id] == w.services[id].(healthy := true)
    ensures
      w.services[id].manifest.None? ==> Next(w, TurnsHealthy(id), fp) == Next(w, HealthyResumes(id), fp)
    ensures
      w.services[id].manifest.Some? ==>
        Next(w, TurnsHealthy(id), fp) ==
          Next(w, CheckResumes(id, w.services[id].manifest.value, w.services[id].capabilities), fp)
  {
  }

  /** Starting and stopping, and the manifest that arrives. */
  lemma EntriesComeAndGo(w: World, id: string, d: Declaration, m: Manifest, fp: Fingerprint)
    ensures
      var started := Next(w, ProcessStarts(id, d), fp);
      if id in w.services then started == w
      else
        started.toolMap == w.toolMap && id in started.services && started.services[id] ==
          Entry(Managed, d.title, d.url, d.capabilities, true, None, [], Pending)
    ensures
      var up := Next(w, ExternalHealthy(id, d), fp);
      (id in w.services ==> !HasTools(up, id)) && id in up.services && up.services[id] ==
        Entry(External, d.title, d.url, d.capabilities, true, None, [], Pending)
    ensures
      var stopped := Next(w, ProcessStops(id), fp);
      id !in stopped.services && !HasTools(stopped, id)
    ensures
      var stored := Next(w, ManifestArrives(id, m), fp);
      stored.toolMap == w.toolMap && stored.approvals == w.approvals &&
      (id in w.services ==> id in stored.services && stored.services[id] == w.services[id].(manifest := Some(m)))
  {
  }
}
