/** Which single step of an interleaved run breaks health or fingerprint agreement, exactly. */
module ServiceSteps {
  import opened Prelude
  import opened ServiceWorld
  import opened ServiceLifecycle
  import opened ServiceInvariants
  import opened ServiceAtomicity
  import opened ServiceOverlap

  /** The guard under which a check exposes tools: approved, with this very fingerprint. */
  predicate ChecksOut(w: World, id: string, m: Manifest, capabilities: seq<string>, fp: Fingerprint)
  {
    id in w.services && id in w.approvals && w.approvals[id].status == Approved &&
    w.approvals[id].fingerprint == Some(FingerprintOf(fp, w.services[id], m, capabilities))
  }

  // ----- Health -----

  /** A step that exposes tools of a service that is down: a check that comes out well, or an approval. */
  predicate StepExposesUnhealthy(w: World, step: Step, fp: Fingerprint)
  {
    match step
    case CheckResumes(id, m, capabilities) =>
      ChecksOut(w, id, m, capabilities, fp) && !w.services[id].healthy && m.tools != []
    case TurnsHealthy(id) =>
      id in w.services && !w.services[id].healthy && w.services[id].manifest.Some? &&
      w.services[id].manifest.value.tools != [] &&
      ChecksOut(w, id, w.services[id].manifest.value, w.services[id].capabilities, fp)
    case OperatorApproves(id) => ExposesUnhealthy(w, ApprovedBy(id))
    case _ => false
  }

  lemma CheckKeepsHealthIff(w: World, id: string, m: Manifest, capabilities: seq<string>, fp: Fingerprint)
    requires ToolsHealthy(w)
    ensures ToolsHealthy(Checked(w, id, m, capabilities, fp))
       <==> !(ChecksOut(w, id, m, capabilities, fp) && !w.services[id].healthy && m.tools != [])
  {
    hide ToolsRegistered;
    if ChecksOut(w, id, m, capabilities, fp) {
      RegisteredHealth(StatusSet(w, id, Approved), id, m);
    } else {
      assert Checked(w, id, m, capabilities, fp).toolMap == w.toolMap;
    }
  }

  /** Main result on health: an interleaved step keeps tools off unhealthy services iff it is none of those. */
  lemma StepKeepsHealthIff(w: World, step: Step, fp: Fingerprint)
    requires ToolsHealthy(w)
    ensures ToolsHealthy(Next(w, step, fp)) <==> !StepExposesUnhealthy(w, step, fp)
  {
    hide ToolsHealthy, Checked, ApprovedByOperator, ChecksOut;
    match step
    case CheckResumes(id, m, capabilities) => CheckKeepsHealthIff(w, id, m, capabilities, fp);
    case TurnsHealthy(id) =>
      if id in w.services && w.services[id].manifest.Some? {
        CheckKeepsHealthIff(w, id, w.services[id].manifest.value, w.services[id].capabilities, fp);
      } else if id in w.services {
        MarkingKeepsHealth(w, id);
      }
    case OperatorApproves(id) => ApprovalHealth(w, id, fp);
    case _ => SteppingDownKeepsHealth(w, step, fp);
  }

  // ----- Agreement with the approved manifest -----

  /** The manifest is the approved one of the entry and declares this tool. */
  predicate Declares(w: World, id: string, m: Manifest, tool: Tool, fp: Fingerprint)
  {
    tool in m.tools && ChecksOut(w, id, m, if id in w.services then w.services[id].capabilities else [], fp)
  }

  /** An arriving manifest can replace the one on record: it covers whatever the service exposes. */
  ghost predicate Covers(w: World, id: string, m: Manifest, fp: Fingerprint)
  {
    forall name :: name in w.toolMap && w.toolMap[name].serviceId == id ==>
      Declares(w, id, m, Tool(name, w.toolMap[name].decl), fp)
  }

  /** The tools a manifest exposes: of several with one name the last. */
  function Exposed(m: Manifest): map<string, HttpTool>
  {
    WithTools(map[], "", m.tools)
  }

  /** The manifest on record vouches for what this one exposes. */
  ghost predicate RecordVouches(w: World, id: string, m: Manifest, fp: Fingerprint)
  {
    forall name :: name in Exposed(m) ==>
      id in w.services && w.services[id].manifest.Some? &&
      Declares(w, id, w.services[id].manifest.value, Tool(name, Exposed(m)[name].decl), fp)
  }

  /**
    The two kinds of step that can break agreement: a manifest that does not cover the tools exposed, and the check of
    a manifest on an approved service, when it fails beside exposed tools or exposes what the record does not vouch for.
   */
  ghost predicate BreaksAgreement(w: World, step: Step, fp: Fingerprint)
  {
    match step
    case ManifestArrives(id, m) => id in w.services && !Covers(w, id, m, fp)
    case CheckResumes(id, m, capabilities) =>
      id in w.services && id in w.approvals && w.approvals[id].status == Approved &&
      if ChecksOut(w, id, m, capabilities, fp) then !RecordVouches(w, id, m, fp) else HasTools(w, id)
    case _ => false
  }

  lemma ArrivalKeepsAgreementIff(w: World, id: string, m: Manifest, fp: Fingerprint)
    requires AllAgree(w, fp)
    ensures AllAgree(ManifestStored(w, id, m), fp) <==> id !in w.services || Covers(w, id, m, fp)
  {
    var after := ManifestStored(w, id, m);
    forall name | name in w.toolMap
      ensures Agrees(after, name, fp) <==>
        w.toolMap[name].serviceId != id || id !in w.services ||
        Declares(w, id, m, Tool(name, w.toolMap[name].decl), fp)
    {
      assert Agrees(w, name, fp);
    }
  }

  lemma FailedCheckKeepsAgreementIff(w: World, id: string, m: Manifest, capabilities: seq<string>, fp: Fingerprint)
    requires AllAgree(w, fp) && id in w.services && id in w.approvals && w.approvals[id].status == Approved
    requires !ChecksOut(w, id, m, capabilities, fp)
    ensures AllAgree(Checked(w, id, m, capabilities, fp), fp) <==> !HasTools(w, id)
  {
    var after := Checked(w, id, m, capabilities, fp);
    assert after == StatusSet(w, id, PendingReapproval);
    forall name | name in w.toolMap ensures Agrees(after, name, fp) <==> w.toolMap[name].serviceId != id {
      assert Agrees(w, name, fp);
    }
  }

  lemma PassedCheckKeepsAgreementIff(w: World, id: string, m: Manifest, capabilities: seq<string>, fp: Fingerprint)
    requires AllAgree(w, fp) && ChecksOut(w, id, m, capabilities, fp)
    ensures AllAgree(Checked(w, id, m, capabilities, fp), fp) <==> RecordVouches(w, id, m, fp)
  {
    hide WithTools, NamesOf, Checked, Agrees, Declares, ChecksOut;
    var after := Checked(w, id, m, capabilities, fp);
    PassedToolMap(w, id, m, capabilities, fp);
    WithToolsOwners(w.toolMap, id, m.tools);
    WithToolsOwners(map[], "", m.tools);
    forall name | name in after.toolMap
      ensures Agrees(after, name, fp) <==>
        name in Exposed(m) ==>
          w.services[id].manifest.Some? &&
          Declares(w, id, w.services[id].manifest.value, Tool(name, Exposed(m)[name].decl), fp)
    {
      PassedToolAgreesIff(w, id, m, capabilities, fp, name);
    }
  }

  lemma PassedToolMap(w: World, id: string, m: Manifest, capabilities: seq<string>, fp: Fingerprint)
    requires ChecksOut(w, id, m, capabilities, fp)
    ensures id in w.services
    ensures Checked(w, id, m, capabilities, fp) == ToolsRegistered(StatusSet(w, id, Approved), id, m)
    ensures Checked(w, id, m, capabilities, fp).toolMap == WithTools(w.toolMap, id, m.tools)
  {
    hide WithTools, NamesOf;
  }

  lemma PassedToolAgreesIff(
      w: World, id: string, m: Manifest, capabilities: seq<string>, fp: Fingerprint, name: string)
    requires AllAgree(w, fp) && ChecksOut(w, id, m, capabilities, fp)
    requires name in Checked(w, id, m, capabilities, fp).toolMap
    ensures Agrees(Checked(w, id, m, capabilities, fp), name, fp) <==>
      name in Exposed(m) ==>
        w.services[id].manifest.Some? &&
        Declares(w, id, w.services[id].manifest.value, Tool(name, Exposed(m)[name].decl), fp)
  {
    hide WithTools, NamesOf, Checked;
    PassedToolMap(w, id, m, capabilities, fp);
    WithToolsOwners(w.toolMap, id, m.tools);
    WithToolsOwners(map[], "", m.tools);
    if name in NamesOf(m.tools) {
      SameDeclaration(w.toolMap, id, map[], "", m.tools, name);
    } else {
      assert Agrees(w, name, fp);
    }
  }

  /** What a name stands for after registering depends on the tools registered only. */
  lemma {:induction false} SameDeclaration(
      a: map<string, HttpTool>, id: string, b: map<string, HttpTool>, other: string, tools: seq<Tool>, name: string)
    requires name in NamesOf(tools)
    ensures name in WithTools(a, id, tools) && name in WithTools(b, other, tools)
    ensures WithTools(a, id, tools)[name].decl == WithTools(b, other, tools)[name].decl
    decreases |tools|
  {
    var n := |tools| - 1;
    assert NamesOf(tools) == NamesOf(tools[..n]) + [tools[n].name];
    if tools[n].name != name {
      SameDeclaration(a, id, b, other, tools[..n], name);
    }
  }

  lemma UnapprovedCheckKeepsAgreement(w: World, id: string, m: Manifest, capabilities: seq<string>, fp: Fingerprint)
    requires AllAgree(w, fp)
    requires !(id in w.services && id in w.approvals && w.approvals[id].status == Approved)
    ensures AllAgree(Checked(w, id, m, capabilities, fp), fp)
  {
    var after := Checked(w, id, m, capabilities, fp);
    assert after.toolMap == w.toolMap;
    forall name | name in w.toolMap ensures Agrees(after, name, fp) {
      assert Agrees(w, name, fp);
    }
  }

  /**
    Main result on fingerprints: an interleaved step keeps the exposed tools in agreement iff it is not of those
    kinds.
   */
  lemma StepKeepsAgreementIff(w: World, step: Step, fp: Fingerprint)
    requires AllAgree(w, fp)
    ensures AllAgree(Next(w, step, fp), fp) <==> !BreaksAgreement(w, step, fp)
  {
    hide AllAgree, Checked, ApprovedByOperator, ChecksOut, Covers, RecordVouches, ManifestStored;
    match step
    case ManifestArrives(id, m) => ArrivalKeepsAgreementIff(w, id, m, fp);
    case CheckResumes(id, m, capabilities) =>
      if !(id in w.services && id in w.approvals && w.approvals[id].status == Approved) {
        UnapprovedCheckKeepsAgreement(w, id, m, capabilities, fp);
      } else if ChecksOut(w, id, m, capabilities, fp) {
        PassedCheckKeepsAgreementIff(w, id, m, capabilities, fp);
      } else {
        FailedCheckKeepsAgreementIff(w, id, m, capabilities, fp);
      }
    case TurnsHealthy(id) =>
      if id in w.services && w.services[id].manifest.Some? {
        CheckKeepsAgreement(w, id, fp);
      } else if id in w.services {
        RemovingStepAgrees(w, HealthyResumes(id), fp);
      }
    case OperatorApproves(id) => ApprovalKeepsAgreement(w, id, fp);
    case _ => RemovingStepAgrees(w, step, fp);
  }

  // ----- Interleaved runs -----

  /** No state a run goes through exposes a tool without agreement, or one of an unhealthy service. */
  ghost predicate SoundThroughout(w: World, steps: seq<Step>, fp: Fingerprint)
    decreases |steps|
  {
    AllAgree(w, fp) && ToolsHealthy(w) && (steps != [] ==> SoundThroughout(Next(w, steps[0], fp), steps[1..], fp))
  }

  /** No step of a run breaks either, where it is taken. */
  ghost predicate NoStepBreaks(w: World, steps: seq<Step>, fp: Fingerprint)
    decreases |steps|
  {
    steps != [] ==>
      !BreaksAgreement(w, steps[0], fp) && !StepExposesUnhealthy(w, steps[0], fp) &&
      NoStepBreaks(Next(w, steps[0], fp), steps[1..], fp)
  }

  /** Main result: an interleaved run is sound in every state exactly when none of its steps is a breaking one. */
  lemma {:induction false} RunIsSoundIff(w: World, steps: seq<Step>, fp: Fingerprint)
    requires AllAgree(w, fp) && ToolsHealthy(w)
    ensures SoundThroughout(w, steps, fp) <==> NoStepBreaks(w, steps, fp)
    decreases |steps|
  {
    hide AllAgree, ToolsHealthy, Next, BreaksAgreement, StepExposesUnhealthy;
    if steps != [] {
      var next := Next(w, steps[0], fp);
      StepKeepsAgreementIff(w, steps[0], fp);
      StepKeepsHealthIff(w, steps[0], fp);
      if AllAgree(next, fp) && ToolsHealthy(next) {
        RunIsSoundIff(next, steps[1..], fp);
      } else {
        UnsoundAtOnce(next, steps[1..], fp);
      }
    }
  }

  lemma UnsoundAtOnce(w: World, steps: seq<Step>, fp: Fingerprint)
    requires !AllAgree(w, fp) || !ToolsHealthy(w)
    ensures !SoundThroughout(w, steps, fp)
  {
    hide AllAgree, ToolsHealthy, Next;
  }
}
