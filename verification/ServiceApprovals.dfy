/** Who approves a service: operators and nobody else; and what reconciling with the declarations leaves. */
module ServiceApprovals {
  import opened Prelude
  import opened ServiceWorld
  import opened ServiceLifecycle
  import opened ServiceInvariants

  predicate IsApproved(w: World, id: string)
  {
    id in w.approvals && w.approvals[id].status == Approved
  }

  /** What operators last said about the service: approved, revoked, or nothing. */
  function LastWord(steps: seq<Step>, id: string): Option<bool>
  {
    if steps == [] then None
    else if steps[|steps| - 1] == OperatorApproves(id) then Some(true)
    else if steps[|steps| - 1] == OperatorRevokes(id) then Some(false)
    else LastWord(steps[..|steps| - 1], id)
  }

  lemma CheckApprovesNobody(
      w: World, other: string, m: Manifest, capabilities: seq<string>, fp: Fingerprint, id: string)
    ensures IsApproved(Checked(w, other, m, capabilities, fp), id) <==> IsApproved(w, id)
  {
    hide ToolsRegistered;
    if other in w.services && other in w.approvals && w.approvals[other].status == Approved {
      RegisteredView(StatusSet(w, other, Approved), other, m);
      SameApprovals(StatusSet(w, other, Approved), other, m);
    }
  }

  lemma SameApprovals(w: World, id: string, m: Manifest)
    ensures ToolsRegistered(w, id, m).approvals == w.approvals
  {
  }

  /** A step changes whether a service is approved only as an operator says. */
  lemma StepApproves(w: World, step: Step, fp: Fingerprint, id: string)
    ensures IsApproved(Next(w, step, fp), id) <==>
      if step == OperatorApproves(id) then true
      else if step == OperatorRevokes(id) then false
      else IsApproved(w, id)
  {
    hide ToolsRegistered, Checked, IsApproved;
    match step
    case CheckResumes(other, m, capabilities) => CheckApprovesNobody(w, other, m, capabilities, fp, id);
    case TurnsHealthy(other) =>
      if other in w.services && w.services[other].manifest.Some? {
        CheckApprovesNobody(w, other, w.services[other].manifest.value, w.services[other].capabilities, fp, id);
      } else {
        OtherRecords(w, step, fp, id);
      }
    case OperatorApproves(other) => ApprovalIsStored(w, other, fp, id);
    case OperatorRevokes(other) => RevocationIsRecorded(w, other, id);
    case _ => OtherRecords(w, step, fp, id);
  }

  lemma OtherRecords(w: World, step: Step, fp: Fingerprint, id: string)
    requires !step.CheckResumes? && !step.OperatorApproves? && !step.OperatorRevokes?
    requires step.TurnsHealthy? ==> step.id !in w.services || w.services[step.id].manifest.None?
    ensures IsApproved(Next(w, step, fp), id) <==> IsApproved(w, id)
  {
    hide ToolsRegistered, Checked;
  }

  lemma ApprovalIsStored(w: World, other: string, fp: Fingerprint, id: string)
    ensures IsApproved(ApprovedByOperator(w, other, fp), id) <==> id == other || IsApproved(w, id)
  {
    hide ToolsRegistered, FingerprintOf;
    if other in w.services && w.services[other].manifest.Some? {
      var e := w.services[other];
      var fingerprint := FingerprintOf(fp, e, e.manifest.value, e.capabilities);
      SameApprovals(StatusSet(Upserted(w, other, Approved, Some(fingerprint)), other, Approved), other,
        e.manifest.value);
    }
  }

  lemma RevocationIsRecorded(w: World, other: string, id: string)
    ensures IsApproved(StatusSet(ApprovalRevoked(ToolsDropped(w, other), other), other, Revoked), id)
       <==> id != other && IsApproved(w, id)
  {
  }

  /**
    Main result: over every interleaving, a service is approved in the end iff the last word of the operators about it
    was approval, or they said nothing and it was approved before. No check, manifest or restart approves anything.
   */
  lemma {:induction false} ApprovedIff(w: World, steps: seq<Step>, fp: Fingerprint, id: string)
    ensures IsApproved(Run(w, steps, fp), id) <==>
      var word := LastWord(steps, id);
      if word.Some? then word.value else IsApproved(w, id)
    decreases |steps|
  {
    hide Next, IsApproved;
    if steps != [] {
      var n := |steps| - 1;
      ApprovedIff(w, steps[..n], fp, id);
      RunSnoc(w, steps[..n], steps[n], fp);
      TakeOneMore(steps, n);
      assert steps[..n + 1] == steps;
      StepApproves(Run(w, steps[..n], fp), steps[n], fp, id);
    }
  }

  lemma {:induction false} RunSnoc(w: World, steps: seq<Step>, step: Step, fp: Fingerprint)
    ensures Run(w, steps + [step], fp) == Next(Run(w, steps, fp), step, fp)
    decreases |steps|
  {
    hide Next;
    if steps == [] {
      assert ([] + [step])[1..] == [];
    } else {
      assert (steps + [step])[1..] == steps[1..] + [step];
      RunSnoc(Next(w, steps[0], fp), steps[1..], step, fp);
    }
  }

  lemma {:induction false} ApprovalWasSaid(steps: seq<Step>, id: string)
    ensures LastWord(steps, id) == Some(true) ==> OperatorApproves(id) in steps
  {
    if steps != [] {
      ApprovalWasSaid(steps[..|steps| - 1], id);
    }
  }

  /** Behind every exposed tool stands an operator, in this run or before it. */
  lemma ToolsStandOnOperators(approvals: map<string, Approval>, steps: seq<Step>, fp: Fingerprint, name: string)
    requires name in Run(Startup(approvals), steps, fp).toolMap
    ensures
      var id := Run(Startup(approvals), steps, fp).toolMap[name].serviceId;
      OperatorApproves(id) in steps || (id in approvals && approvals[id].status == Approved)
  {
    hide Run;
    var w := Run(Startup(approvals), steps, fp);
    ExposedToolsAreApproved(approvals, steps, fp);
    assert MayExpose(w, w.toolMap[name].serviceId);
    ApprovedIff(Startup(approvals), steps, fp, w.toolMap[name].serviceId);
    ApprovalWasSaid(steps, w.toolMap[name].serviceId);
  }

  // ----- What an entry says about its approval -----

  /** An entry that says approved or revoked says what is on record, and pending re-approval means approved before. */
  ghost predicate Backed(status: Status, approvals: map<string, Approval>, id: string)
  {
    (status == Approved || status == PendingReapproval ==> id in approvals && approvals[id].status == Approved) &&
    (status == Revoked ==> id in approvals && approvals[id].status == Revoked)
  }

  ghost predicate Honest(w: World)
  {
    forall id :: id in w.services ==> Backed(w.services[id].approvalStatus, w.approvals, id)
  }

  /** After a check the entry says how the manifest stands to the record; a service never seen is put on record. */
  lemma CheckShowsStanding(w: World, id: string, m: Manifest, capabilities: seq<string>, fp: Fingerprint)
    requires id in w.services
    ensures
      var after := Next(w, CheckResumes(id, m, capabilities), fp);
      var e, matches := after.services[id], id in w.approvals &&
        w.approvals[id].fingerprint == Some(fp(m, capabilities, w.services[id].tier, w.services[id].url));
      after.services.Keys == w.services.Keys &&
      (IsApproved(w, id) ==> e.approvalStatus == if matches then Approved else PendingReapproval) &&
      (id in w.approvals && w.approvals[id].status == Revoked ==> e.approvalStatus == Revoked) &&
      (id !in w.approvals ==> e.approvalStatus == Pending) &&
      (id in w.approvals && w.approvals[id].status in {Pending, PendingReapproval} ==> after == w) &&
      after.approvals == if id in w.approvals then w.approvals else w.approvals[id := Approval(Pending, None)]
  {
    hide ToolsRegistered;
    if IsApproved(w, id) {
      RegisteredStatus(StatusSet(w, id, Approved), id, m);
      SameApprovals(StatusSet(w, id, Approved), id, m);
    }
  }

  lemma RegisteredStatus(w: World, id: string, m: Manifest)
    ensures ToolsRegistered(w, id, m).services.Keys == w.services.Keys
    ensures forall other :: other in w.services ==>
      ToolsRegistered(w, id, m).services[other].approvalStatus == w.services[other].approvalStatus
  {
    hide NamesOf, WithTools;
  }

  lemma StatusKeepsHonest(w: World, id: string, status: Status)
    requires forall other :: other in w.services && other != id ==>
      Backed(w.services[other].approvalStatus, w.approvals, other)
    requires Backed(status, w.approvals, id)
    ensures Honest(StatusSet(w, id, status))
  {
    hide Backed;
  }

  lemma RegisteredKeepsHonest(w: World, id: string, m: Manifest)
    requires Honest(w)
    ensures Honest(ToolsRegistered(w, id, m))
  {
    hide ToolsRegistered, Backed;
    RegisteredStatus(w, id, m);
    SameApprovals(w, id, m);
  }

  lemma CheckKeepsHonest(w: World, id: string, m: Manifest, capabilities: seq<string>, fp: Fingerprint)
    requires Honest(w)
    ensures Honest(Checked(w, id, m, capabilities, fp))
  {
    hide ToolsRegistered, StatusSet, FingerprintOf;
    if id in w.services {
      if id in w.approvals {
        if w.approvals[id].status in {Approved, Revoked} {
          StatusKeepsHonest(w, id, w.approvals[id].status);
          RegisteredKeepsHonest(StatusSet(w, id, w.approvals[id].status), id, m);
        }
        if w.approvals[id].status == Approved {
          StatusKeepsHonest(w, id, PendingReapproval);
        }
      } else {
        StatusKeepsHonest(Upserted(w, id, Pending, None), id, Pending);
      }
    }
  }

  lemma ApprovingKeepsHonest(w: World, id: string, fp: Fingerprint)
    requires Honest(w)
    ensures Honest(ApprovedByOperator(w, id, fp))
  {
    hide ToolsRegistered, FingerprintOf, StatusSet;
    if id in w.services {
      var e := w.services[id];
      StatusKeepsHonest(Upserted(w, id, Approved, Some("")), id, Approved);
      if e.manifest.Some? {
        var upserted := Upserted(w, id, Approved, Some(FingerprintOf(fp, e, e.manifest.value, e.capabilities)));
        StatusKeepsHonest(upserted, id, Approved);
        RegisteredKeepsHonest(StatusSet(upserted, id, Approved), id, e.manifest.value);
      }
    }
  }

  lemma RevokingKeepsHonest(w: World, id: string)
    requires Honest(w)
    ensures Honest(StatusSet(ApprovalRevoked(ToolsDropped(w, id), id), id, Revoked))
  {
    hide StatusSet;
    StatusKeepsHonest(ApprovalRevoked(ToolsDropped(w, id), id), id, Revoked);
  }

  lemma OtherKeepsHonest(w: World, step: Step, fp: Fingerprint)
    requires Honest(w) && !step.CheckResumes? && !step.TurnsHealthy?
    requires !step.OperatorApproves? && !step.OperatorRevokes?
    ensures Honest(Next(w, step, fp))
  {
    hide ToolsRegistered, Checked, ApprovedByOperator, Backed, WithoutTools;
    FreshIsBacked(w.approvals);
  }

  lemma FreshIsBacked(approvals: map<string, Approval>)
    ensures forall id :: Backed(Pending, approvals, id)
  {
  }

  lemma StepKeepsHonest(w: World, step: Step, fp: Fingerprint)
    requires Honest(w)
    ensures Honest(Next(w, step, fp))
  {
    hide Honest, ToolsRegistered, Checked, ApprovedByOperator, HealthSet;
    match step
    case CheckResumes(id, m, capabilities) => CheckKeepsHonest(w, id, m, capabilities, fp);
    case TurnsHealthy(id) =>
      if id in w.services && w.services[id].manifest.Some? {
        CheckKeepsHonest(w, id, w.services[id].manifest.value, w.services[id].capabilities, fp);
      } else {
        MarkingKeepsHonest(w, id);
      }
    case OperatorApproves(id) => ApprovingKeepsHonest(w, id, fp);
    case OperatorRevokes(id) => RevokingKeepsHonest(w, id);
    case _ => OtherKeepsHonest(w, step, fp);
  }

  lemma MarkingKeepsHonest(w: World, id: string)
    requires Honest(w)
    ensures Honest(HealthSet(w, id, true))
  {
  }

  /** Over every interleaving no entry claims more than the record says. */
  lemma {:induction false} EntriesAreHonest(w: World, steps: seq<Step>, fp: Fingerprint)
    requires Honest(w)
    ensures Honest(Run(w, steps, fp))
    decreases |steps|
  {
    hide Honest, Next;
    if steps != [] {
      StepKeepsHonest(w, steps[0], fp);
      EntriesAreHonest(Next(w, steps[0], fp), steps[1..], fp);
    }
  }

  // ----- Reconciling with the declarations -----

  datatype Declared = Declared(id: string, d: Declaration)

  function Reconciled(w: World, declared: Declared, fp: Fingerprint): World
  {
    var id := declared.id;
    if id !in w.services || Changed(w.services[id], declared.d) then Next(w, ExternalHealthy(id, declared.d), fp) else w
  }

  function ReconciledAll(w: World, ds: seq<Declared>, fp: Fingerprint): World
    decreases |ds|
  {
    if ds == [] then w else ReconciledAll(Reconciled(w, ds[0], fp), ds[1..], fp)
  }

  function IdsOf(ds: seq<Declared>): set<string>
  {
    set i | 0 <= i < |ds| :: ds[i].id
  }

  /** Removal of what is not declared, then each declaration in turn. */
  function Reconciliation(w: World, ds: seq<Declared>, fp: Fingerprint): World
  {
    ReconciledAll(Next(w, UndeclaredRemoved(IdsOf(ds)), fp), ds, fp)
  }

  /** The entry is configured as declared. */
  predicate Matches(e: Entry, d: Declaration)
  {
    e.title == d.title && e.url == d.url && e.capabilities == d.capabilities
  }

  /** One declaration is met; nothing else moves, and an entry that met it already stays as it is. */
  lemma ReconciledMatches(w: World, declared: Declared, fp: Fingerprint)
    ensures
      var after, id := Reconciled(w, declared, fp), declared.id;
      id in after.services && Matches(after.services[id], declared.d) &&
      (id in w.services && Matches(w.services[id], declared.d) ==> after == w) &&
      (!(id in w.services && Matches(w.services[id], declared.d)) ==>
         var e := after.services[id];
         e.tier == External && e.healthy && e.manifest == None && e.registeredTools == [] &&
         (id in w.services ==> !HasTools(after, id))) &&
      (forall other :: other != id ==> (other in after.services <==> other in w.services)) &&
      (forall other :: other != id && other in w.services ==> after.services[other] == w.services[other]) &&
      (forall name :: name in w.toolMap && w.toolMap[name].serviceId != id ==>
         name in after.toolMap && after.toolMap[name] == w.toolMap[name]) &&
      after.approvals == w.approvals
  {
    hide NamesOf;
    if declared.id in w.services {
      DeregisteredIsRemoved(w, declared.id);
    }
  }

  lemma {:induction false} ReconciledAllMatch(w: World, ds: seq<Declared>, fp: Fingerprint, k: nat)
    requires k < |ds| && forall i, j :: 0 <= i < j < |ds| ==> ds[i].id != ds[j].id
    ensures
      var after := ReconciledAll(w, ds, fp);
      ds[k].id in after.services && Matches(after.services[ds[k].id], ds[k].d) &&
      (ds[k].id in w.services && Matches(w.services[ds[k].id], ds[k].d) ==>
         after.services[ds[k].id] == w.services[ds[k].id])
    decreases |ds|
  {
    hide Reconciled;
    ReconciledMatches(w, ds[0], fp);
    var next := Reconciled(w, ds[0], fp);
    if k == 0 {
      NotMentioned(next, ds[1..], fp, ds[0].id);
    } else {
      assert ds[1..][k - 1] == ds[k] && ds[0].id != ds[k].id;
      ReconciledAllMatch(next, ds[1..], fp, k - 1);
    }
  }

  lemma {:induction false} NotMentioned(w: World, ds: seq<Declared>, fp: Fingerprint, id: string)
    requires forall i :: 0 <= i < |ds| ==> ds[i].id != id
    ensures
      var after := ReconciledAll(w, ds, fp);
      (id in after.services <==> id in w.services) && (id in w.services ==> after.services[id] == w.services[id])
    decreases |ds|
  {
    hide Reconciled;
    if ds != [] {
      ReconciledMatches(w, ds[0], fp);
      NotMentioned(Reconciled(w, ds[0], fp), ds[1..], fp, id);
    }
  }

  /**
    Main result: after reconciling with declarations of different ids, each declared service is there as declared, left
    alone if it already was; no external service is left that is not declared, and managed services stay.
   */
  lemma ReconciliationMatches(w: World, ds: seq<Declared>, fp: Fingerprint)
    requires forall i, j :: 0 <= i < j < |ds| ==> ds[i].id != ds[j].id
    ensures
      var after := Reconciliation(w, ds, fp);
      (forall k :: 0 <= k < |ds| ==>
         ds[k].id in after.services && Matches(after.services[ds[k].id], ds[k].d) &&
         (ds[k].id in w.services && Matches(w.services[ds[k].id], ds[k].d) ==>
            after.services[ds[k].id] == w.services[ds[k].id])) &&
      (forall id :: id !in IdsOf(ds) ==>
         (id in after.services <==> id in w.services && w.services[id].tier != External) &&
         (id in after.services ==> after.services[id] == w.services[id]))
  {
    hide Reconciled, ReconciledAll;
    var removed := Next(w, UndeclaredRemoved(IdsOf(ds)), fp);
    forall k | 0 <= k < |ds|
      ensures
        var after := Reconciliation(w, ds, fp);
        ds[k].id in after.services && Matches(after.services[ds[k].id], ds[k].d) &&
        (ds[k].id in w.services && Matches(w.services[ds[k].id], ds[k].d) ==>
           after.services[ds[k].id] == w.services[ds[k].id])
    {
      ReconciledAllMatch(removed, ds, fp, k);
      assert ds[k].id in IdsOf(ds);
    }
    forall id | id !in IdsOf(ds)
      ensures
        var after := Reconciliation(w, ds, fp);
        (id in after.services <==> id in w.services && w.services[id].tier != External) &&
        (id in after.services ==> after.services[id] == w.services[id])
    {
      assert forall i :: 0 <= i < |ds| ==> ds[i].id in IdsOf(ds);
      NotMentioned(removed, ds, fp, id);
    }
  }
}
