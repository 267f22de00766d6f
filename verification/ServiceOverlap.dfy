/** Health agreement, and runs that show what interleaving and shared names break. */
module ServiceOverlap {
  import opened Prelude
  import opened ServiceWorld
  import opened ServiceLifecycle
  import opened ServiceInvariants
  import opened ServiceAtomicity

  // ----- Tools of unhealthy services -----

  ghost predicate ToolsHealthy(w: World)
  {
    forall name :: name in w.toolMap ==> IsHealthy(w, w.toolMap[name].serviceId)
  }

  ghost predicate IsHealthy(w: World, id: string)
  {
    id in w.services && w.services[id].healthy
  }

  /** The one handler that exposes tools without looking at health: approving a service that is down. */
  predicate ExposesUnhealthy(w: World, h: Handler)
  {
    h.ApprovedBy? && h.id in w.services && !w.services[h.id].healthy &&
    w.services[h.id].manifest.Some? && w.services[h.id].manifest.value.tools != []
  }

  /** Registering makes exactly the manifest's names point to the service. */
  lemma RegisteredHealth(w: World, id: string, m: Manifest)
    requires id in w.services
    requires forall name :: name in w.toolMap && w.toolMap[name].serviceId != id ==>
      IsHealthy(w, w.toolMap[name].serviceId)
    requires forall name :: name in w.toolMap && w.toolMap[name].serviceId == id ==> w.services[id].healthy
    ensures ToolsHealthy(ToolsRegistered(w, id, m)) <==> w.services[id].healthy || m.tools == []
  {
    hide WithTools, NamesOf;
    var after := ToolsRegistered(w, id, m);
    WithToolsOwners(w.toolMap, id, m.tools);
    if m.tools == [] {
      assert NamesOf(m.tools) == [];
    } else {
      var name := NamesOf(m.tools)[0];
      assert name in NamesOf(m.tools);
      assert after.toolMap[name].serviceId == id && after.services[id].healthy == w.services[id].healthy;
    }
    forall name | name in after.toolMap && (w.services[id].healthy || m.tools == [])
      ensures IsHealthy(after, after.toolMap[name].serviceId)
    {
      if name !in NamesOf(m.tools) {
        assert after.toolMap[name] == w.toolMap[name];
      }
    }
  }

  lemma CheckedHealth(w: World, id: string, m: Manifest, capabilities: seq<string>, fp: Fingerprint)
    requires ToolsHealthy(w)
    ensures ToolsHealthy(HealthSet(Checked(w, id, m, capabilities, fp), id, true))
    ensures id in w.services && w.services[id].healthy ==> ToolsHealthy(Checked(w, id, m, capabilities, fp))
  {
    hide ToolsRegistered;
    if id in w.services && id in w.approvals && w.approvals[id].status == Approved &&
       w.approvals[id].fingerprint == Some(FingerprintOf(fp, w.services[id], m, capabilities)) {
      var marked := StatusSet(w, id, Approved);
      RegisteredHealth(HealthSet(marked, id, true), id, m);
      RegisteringThenMarking(marked, id, m);
      if w.services[id].healthy {
        RegisteredHealth(marked, id, m);
      }
    } else {
      assert Checked(w, id, m, capabilities, fp).toolMap == w.toolMap;
    }
  }

  lemma RegisteringThenMarking(w: World, id: string, m: Manifest)
    ensures HealthSet(ToolsRegistered(w, id, m), id, true) == ToolsRegistered(HealthSet(w, id, true), id, m)
  {
    hide WithTools;
    if id in w.services {
      assert HealthSet(ToolsRegistered(w, id, m), id, true).services
          == ToolsRegistered(HealthSet(w, id, true), id, m).services;
    }
  }

  lemma ApprovalHealth(w: World, id: string, fp: Fingerprint)
    requires ToolsHealthy(w)
    ensures ToolsHealthy(ApprovedByOperator(w, id, fp)) <==> !ExposesUnhealthy(w, ApprovedBy(id))
  {
    hide ToolsRegistered;
    if id in w.services && w.services[id].manifest.Some? {
      var e := w.services[id];
      var fingerprint := FingerprintOf(fp, e, e.manifest.value, e.capabilities);
      RegisteredHealth(StatusSet(Upserted(w, id, Approved, Some(fingerprint)), id, Approved), id, e.manifest.value);
    } else {
      assert ApprovedByOperator(w, id, fp).toolMap == w.toolMap;
    }
  }

  lemma MarkingKeepsHealth(w: World, id: string)
    requires ToolsHealthy(w)
    ensures ToolsHealthy(HealthSet(w, id, true))
  {
  }

  lemma DroppedHealth(w: World, id: string)
    requires ToolsHealthy(w)
    ensures ToolsHealthy(ToolsDropped(w, id)) && ToolsHealthy(HealthSet(ToolsDropped(w, id), id, false))
    ensures ToolsHealthy(StatusSet(ApprovalRevoked(ToolsDropped(w, id), id), id, Revoked))
    ensures ToolsHealthy(Deregistered(w, id))
  {
  }

  lemma RemovedHealth(w: World, ids: set<string>)
    requires ToolsHealthy(w)
    ensures ToolsHealthy(WithoutServices(w, ids))
  {
  }

  lemma RegisteredFresh(w: World, id: string, e: Entry)
    requires ToolsHealthy(w)
    ensures ToolsHealthy(Registered(w, id, e))
  {
  }

  lemma StoringHealth(w: World, id: string, m: Manifest)
    requires ToolsHealthy(w)
    ensures ToolsHealthy(ManifestStored(w, id, m))
    ensures IsHealthy(w, id) ==> IsHealthy(ManifestStored(w, id, m), id)
  {
  }

  /** Steps that expose nothing keep health agreement. */
  lemma SteppingDownKeepsHealth(w: World, step: Step, fp: Fingerprint)
    requires ToolsHealthy(w)
    requires !step.CheckResumes? && !step.TurnsHealthy? && !step.OperatorApproves?
    ensures ToolsHealthy(Next(w, step, fp))
  {
    hide ToolsHealthy, Registered, Deregistered, ToolsDropped, HealthSet, StatusSet, ApprovalRevoked, ManifestStored,
      WithoutServices, Undeclared;
    match step
    case ProcessStarts(id, d) => RegisteredFresh(w, id, FreshEntry(Managed, d.title, d.url, d.capabilities));
    case ManifestArrives(id, m) => StoringHealth(w, id, m);
    case ProcessStops(id) =>
      DroppedHealth(w, id);
      DroppedHealth(ToolsDropped(w, id), id);
    case HealthyResumes(id) => MarkingKeepsHealth(w, id);
    case ExternalHealthy(id, d) => ExternalHealth(w, id, d);
    case UndeclaredRemoved(declared) => RemovedHealth(w, Undeclared(w, declared));
    case TurnsUnhealthy(id) => DroppedHealth(w, id);
    case OperatorRevokes(id) => DroppedHealth(w, id);
    case ExternalUnhealthy(id) => DroppedHealth(w, id);
  }

  lemma ExternalHealth(w: World, id: string, d: Declaration)
    requires ToolsHealthy(w)
    ensures ToolsHealthy(ExternalRegistered(w, id, d))
  {
    hide Deregistered, ToolsHealthy, Registered;
    DroppedHealth(w, id);
    RegisteredFresh(Deregistered(w, id), id, FreshEntry(External, d.title, d.url, d.capabilities));
  }

  lemma UpHealth(w: World, start: Step, id: string, d: Declaration, fetched: Option<Manifest>, fp: Fingerprint)
    requires ToolsHealthy(w)
    requires start == ExternalHealthy(id, d) || (start == ProcessStarts(id, d) && id !in w.services)
    ensures ToolsHealthy(Run(w, [start] + AfterFetch(id, d, fetched), fp))
  {
    hide Checked, Run, Next, ToolsHealthy;
    StartHealth(w, start, id, d, fp);
    var up := Next(w, start, fp);
    match fetched
    case None =>
      assert [start] + [] == [start];
      RunSteps(w, start, start, start, fp);
    case Some(m) =>
      var arrives, resumes := ManifestArrives(id, m), CheckResumes(id, m, d.capabilities);
      assert [start] + [arrives, resumes] == [start, arrives, resumes];
      RunSteps(w, start, arrives, resumes, fp);
      StoringHealth(up, id, m);
      CheckedHealth(ManifestStored(up, id, m), id, m, d.capabilities, fp);
      ArrivalIsStoring(up, id, m, d.capabilities, fp);
      ArrivalIsStoring(ManifestStored(up, id, m), id, m, d.capabilities, fp);
  }

  lemma StartHealth(w: World, start: Step, id: string, d: Declaration, fp: Fingerprint)
    requires ToolsHealthy(w)
    requires start == ExternalHealthy(id, d) || (start == ProcessStarts(id, d) && id !in w.services)
    ensures ToolsHealthy(Next(w, start, fp)) && IsHealthy(Next(w, start, fp), id)
  {
    hide ToolsHealthy;
    SteppingDownKeepsHealth(w, start, fp);
  }

  lemma ArrivalIsStoring(w: World, id: string, m: Manifest, capabilities: seq<string>, fp: Fingerprint)
    ensures Next(w, ManifestArrives(id, m), fp) == ManifestStored(w, id, m)
    ensures Next(w, CheckResumes(id, m, capabilities), fp) == Checked(w, id, m, capabilities, fp)
  {
  }

  /**
    Main result on health: uninterrupted handlers keep tools off unhealthy services, except approving one that is
    down.
   */
  lemma HandlersKeepHealthIff(w: World, h: Handler, fp: Fingerprint)
    requires ToolsHealthy(w)
    ensures ToolsHealthy(Handle(w, h, fp)) <==> !ExposesUnhealthy(w, h)
  {
    hide Checked, Run, Next, ApprovedByOperator, ToolsHealthy;
    match h
    case Started(id, d, fetched) =>
      if id in w.services {
        OneStep(w, ProcessStarts(id, d), fp);
      } else {
        UpHealth(w, ProcessStarts(id, d), id, d, fetched, fp);
      }
    case ExternalUp(id, d, fetched) => UpHealth(w, ExternalHealthy(id, d), id, d, fetched, fp);
    case HealthUp(id) =>
      BackUpHealth(w, id, fp);
    case ApprovedBy(id) =>
      OneStep(w, OperatorApproves(id), fp);
      ApprovalHealth(w, id, fp);
      NextApproves(w, id, fp);
    case Stopped(id) => QuietStep(w, ProcessStops(id), fp);
    case HealthDown(id) => QuietStep(w, TurnsUnhealthy(id), fp);
    case RevokedBy(id) => QuietStep(w, OperatorRevokes(id), fp);
    case ExternalDown(id) => QuietStep(w, ExternalUnhealthy(id), fp);
    case Reconciled(declared) => QuietStep(w, UndeclaredRemoved(declared), fp);
  }

  lemma QuietStep(w: World, step: Step, fp: Fingerprint)
    requires ToolsHealthy(w)
    requires !step.CheckResumes? && !step.TurnsHealthy? && !step.OperatorApproves?
    ensures ToolsHealthy(Run(w, [step], fp))
  {
    hide ToolsHealthy, Next, Run;
    OneStep(w, step, fp);
    SteppingDownKeepsHealth(w, step, fp);
  }

  lemma BackUpHealth(w: World, id: string, fp: Fingerprint)
    requires ToolsHealthy(w)
    ensures ToolsHealthy(Handle(w, HealthUp(id), fp))
  {
    hide Checked, Run, HealthSet, ToolsHealthy;
    RunSteps(w, TurnsHealthy(id), HealthyResumes(id), HealthyResumes(id), fp);
    if id !in w.services {
    } else if w.services[id].manifest.None? {
      MarkingKeepsHealth(w, id);
    } else {
      CheckedHealth(w, id, w.services[id].manifest.value, w.services[id].capabilities, fp);
    }
  }

  // ----- Overlapping handlers -----

  function OneTool(decl: string): Manifest
  {
    Manifest([Tool("t", decl)], "")
  }

  function Declared(): Declaration
  {
    Declaration("s", "http://127.0.0.1:1/", [])
  }

  function ApprovedAs(m: Manifest, fp: Fingerprint): map<string, Approval>
  {
    map["s" := Approval(Approved, Some(fp(m, [], External, "http://127.0.0.1:1/")))]
  }

  /** The service as registered, before its manifest is there. */
  function Up(m: Manifest, fp: Fingerprint): World
  {
    World(map["s" := FreshEntry(External, "s", "http://127.0.0.1:1/", [])], map[], ApprovedAs(m, fp))
  }

  /** The same service after the approved manifest arrived and was checked. */
  function Exposing(m: Manifest, fp: Fingerprint): World
  {
    var e := FreshEntry(External, "s", "http://127.0.0.1:1/", []);
    World(map["s" := e.(manifest := Some(m), approvalStatus := Approved, registeredTools := NamesOf(m.tools))],
          WithTools(map[], "s", m.tools), ApprovedAs(m, fp))
  }

  lemma GoesUp(m: Manifest, fp: Fingerprint)
    ensures Next(Startup(ApprovedAs(m, fp)), ExternalHealthy("s", Declared()), fp) == Up(m, fp)
    ensures Next(Up(m, fp), ExternalHealthy("s", Declared()), fp) == Up(m, fp)
    ensures Next(Next(Up(m, fp), ManifestArrives("s", m), fp), CheckResumes("s", m, []), fp) == Exposing(m, fp)
  {
    hide WithTools;
    var a := Next(Next(Up(m, fp), ManifestArrives("s", m), fp), CheckResumes("s", m, []), fp);
    assert [] + NamesOf(m.tools) == NamesOf(m.tools);
    assert a.services["s"] == Exposing(m, fp).services["s"];
    assert a.services == Exposing(m, fp).services;
    assert Next(Up(m, fp), ExternalHealthy("s", Declared()), fp).toolMap == map[];
    assert Next(Up(m, fp), ExternalHealthy("s", Declared()), fp).services == Up(m, fp).services;
  }

  /** Two healthy handlers in flight; the first fetch returns the approved manifest, the second a changed one. */
  function TwoFetches(earlier: Manifest, later: Manifest): seq<Step>
  {
    [ExternalHealthy("s", Declared()), ExternalHealthy("s", Declared())]
    + [ManifestArrives("s", earlier), CheckResumes("s", earlier, [])]
    + [ManifestArrives("s", later), CheckResumes("s", later, [])]
  }

  /** The tools of the older manifest stay exposed beside an entry that waits for re-approval of the newer one. */
  lemma OverlappingFetchesDisagree(fp: Fingerprint)
    requires
      fp(OneTool("a"), [], External, "http://127.0.0.1:1/") != fp(OneTool("b"), [], External, "http://127.0.0.1:1/")
    ensures
      var w := Run(Startup(ApprovedAs(OneTool("a"), fp)), TwoFetches(OneTool("a"), OneTool("b")), fp);
      "s" in w.services && w.services["s"].approvalStatus == PendingReapproval &&
      w.services["s"].manifest == Some(OneTool("b")) &&
      "t" in w.toolMap && w.toolMap["t"] == HttpTool("s", "a") && !AllAgree(w, fp)
  {
    hide Next, WithTools;
    var a, b := OneTool("a"), OneTool("b");
    var up := ExternalHealthy("s", Declared());
    RunSix(Startup(ApprovedAs(a, fp)), TwoFetches(a, b), fp);
    GoesUp(a, fp);
    SecondManifest(fp);
    OldToolExposed();
    var w := Run(Startup(ApprovedAs(a, fp)), TwoFetches(a, b), fp);
    assert !Agrees(w, "t", fp);
  }

  lemma OldToolExposed()
    ensures WithTools(map[], "s", OneTool("a").tools) == map["t" := HttpTool("s", "a")]
  {
    assert OneTool("a").tools[..0] == [];
  }

  lemma SecondManifest(fp: Fingerprint)
    requires
      fp(OneTool("a"), [], External, "http://127.0.0.1:1/") != fp(OneTool("b"), [], External, "http://127.0.0.1:1/")
    ensures
      var a, b := OneTool("a"), OneTool("b");
      var w := Next(Next(Exposing(a, fp), ManifestArrives("s", b), fp), CheckResumes("s", b, []), fp);
      w.toolMap == Exposing(a, fp).toolMap && "s" in w.services &&
      w.services["s"].approvalStatus == PendingReapproval && w.services["s"].manifest == Some(b)
  {
    hide WithTools;
  }

  lemma RunSix(w: World, steps: seq<Step>, fp: Fingerprint)
    requires |steps| == 6
    ensures
      var half := Next(Next(Next(w, steps[0], fp), steps[1], fp), steps[2], fp);
      Run(w, steps, fp) == Next(Next(Next(half, steps[3], fp), steps[4], fp), steps[5], fp)
  {
    hide Next;
    var a, b := steps[..3], steps[3..];
    assert steps == a + b && a == [steps[0], steps[1], steps[2]] && b == [steps[3], steps[4], steps[5]];
    RunAppend(w, a, b, fp);
    RunSteps(w, steps[0], steps[1], steps[2], fp);
    RunSteps(Run(w, a, fp), steps[3], steps[4], steps[5], fp);
  }

  lemma {:induction false} RunAppend(w: World, a: seq<Step>, b: seq<Step>, fp: Fingerprint)
    ensures Run(w, a + b, fp) == Run(Run(w, a, fp), b, fp)
    decreases |a|
  {
    hide Next;
    if a == [] {
      assert a + b == b;
    } else {
      assert (a + b)[1..] == a[1..] + b;
      RunAppend(Next(w, a[0], fp), a[1..], b, fp);
    }
  }

  /** A check that resumes after the service went down exposes tools of an unhealthy service. */
  lemma LateCheckExposesUnhealthy(fp: Fingerprint)
    ensures
      var a := OneTool("a");
      var steps := [ManifestArrives("s", a), ExternalUnhealthy("s"), CheckResumes("s", a, [])];
      var w := Run(Up(a, fp), steps, fp);
      ToolsHealthy(Up(a, fp)) && "t" in w.toolMap && !ToolsHealthy(w)
  {
    hide WithTools, Run;
    var a := OneTool("a");
    RunSteps(Up(a, fp), ManifestArrives("s", a), ExternalUnhealthy("s"), CheckResumes("s", a, []), fp);
    OldToolExposed();
    var down := Next(Next(Up(a, fp), ManifestArrives("s", a), fp), ExternalUnhealthy("s"), fp);
    assert down.toolMap == map[];
    assert Next(down, CheckResumes("s", a, []), fp).toolMap == WithTools(map[], "s", a.tools);
  }
}
