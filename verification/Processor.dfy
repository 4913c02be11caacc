/** The repair processor (repair/processor.go) and the repair store (repair/store.go) as
    code that changes rows in place. An uninterrupted call of Process is proved to be a
    fixed sequence of steps of module Repair, so what is proved of every interleaving of
    those steps holds of it. */
module Processor {
  import opened Base
  import opened PatchPolicy
  import opened Repair
  import A = Approvals
  import ApprovalStore
  import T = Tasks

  lemma BaseBranchRule(branch: string)
    ensures ContainsAny(branch, "\r\n") <==> '\r' in branch || '\n' in branch
  {
    assert "\r\n"[0] == '\r' && "\r\n"[1] == '\n';
  }

  class RepairStore {
    var rows: Rows

    constructor ()
      ensures rows == map[]
    {
      rows := map[];
    }

    /** A source key that already has a repair returns it; a task that has one is an error. */
    method Create(newId: Id, info: Info, now: Time) returns (r: Result<Row, CreateError>)
      modifies this
      ensures rows == Repair.Create(old(rows), newId, info, now)
      ensures r == Err(InvalidTrigger) <==> !ValidInfo(info)
      ensures r == Err(StorageError) <==>
        ValidInfo(info) && (forall x :: x in old(rows) ==> !OwnsKey(old(rows), x, info.sourceKey)) && KeyClash(old(rows), newId, info)
      ensures r.Ok? ==> exists x :: OwnsKey(rows, x, info.sourceKey) && r.value == rows[x] && (x in old(rows) || x == newId)
    {
      if Blank(info.sourceKey) || Blank(info.taskId) || Blank(info.repository) || Blank(info.cloneUrl) || Blank(info.installationId)
        || Blank(info.issueTitle) || Blank(info.baseBranch) || '\r' in info.baseBranch || '\n' in info.baseBranch
        || !IsHex(info.baseSha, 40) {
        BaseBranchRule(info.baseBranch);
        return Err(InvalidTrigger);
      }
      BaseBranchRule(info.baseBranch);
      if x :| x in rows && rows[x].info.sourceKey == info.sourceKey {
        assert OwnsKey(rows, x, info.sourceKey);
        return Ok(rows[x]);
      }
      if newId == "" || newId in rows || exists x :: x in rows && rows[x].info.taskId == info.taskId {
        return Err(StorageError);
      }
      rows := rows[newId := Row(newId, info, Planning, None, "", "", None, "", "", None, None, NoFailure, now)];
      assert OwnsKey(rows, newId, info.sourceKey);
      return Ok(rows[newId]);
    }

    method Update(copy: Row, now: Time) returns (ok: bool)
      modifies this
      ensures rows == Repair.Update(old(rows), copy, now) && ok == (copy.id in old(rows))
    {
      ok := copy.id in rows;
      if ok {
        rows := rows[copy.id := copy.(info := rows[copy.id].info, updatedAt := now)];
      }
    }
  }

  /** What one call learns from outside: the agent's answers (None: it gave none), the
      provider's, the identifier of a new approval and the clock. */
  datatype Work = Work(
    plan: Option<Plan>, patch: Option<Patch>, code: string, approval: Id, published: Publication,
    firstSave: Time, askedAt: Time, lastSave: Time)

  /** The system when at most one actor is at work. */
  function System(rows: Rows, requests: A.Requests, actor: Id, at: Option<Actor>, drafts: seq<Draft>): Sys {
    Sys(rows, A.Sys(requests, map[]), if at.Some? then map[actor := at.value] else map[], drafts)
  }

  // ----- one step of the only actor -----

  lemma Dispatched(h: Policy, rows: Rows, requests: A.Requests, actor: Id, drafts: seq<Draft>, repair: Id, agent: bool)
    requires repair in rows
    ensures Apply(h, System(rows, requests, actor, None, drafts), ProcessStep(actor, repair, agent))
         == System(rows, requests, actor, Dispatch(rows[repair], agent), drafts)
  {
  }

  lemma Saved(h: Policy, rows: Rows, requests: A.Requests, actor: Id, a: Actor, drafts: seq<Draft>, now: Time)
    requires a.Saving?
    ensures Apply(h, System(rows, requests, actor, Some(a), drafts), SaveStep(actor, now))
         == System(Repair.Update(rows, a.copy, now), requests, actor, AfterSave(a), drafts)
  {
    assert map[actor := a] - {actor} == map[];
  }

  lemma Drafted(h: Policy, rows: Rows, requests: A.Requests, actor: Id, copy: Row, drafts: seq<Draft>, w: Work)
    ensures var answered := PlanAnswered(h, requests, copy, w.plan, w.approval, w.askedAt, w.code);
      Apply(h, System(rows, requests, actor, Some(Drafting(copy)), drafts), DraftStep(actor, w.plan, w.approval, w.askedAt, w.code))
      == System(rows, answered.0, actor, Some(answered.1), drafts)
  {
  }

  lemma Coded(h: Policy, rows: Rows, requests: A.Requests, actor: Id, copy: Row, drafts: seq<Draft>, w: Work)
    ensures var answered := PatchAnswered(h, requests, copy, w.patch, w.approval, w.askedAt, w.code);
      Apply(h, System(rows, requests, actor, Some(Coding(copy)), drafts), CodeStep(actor, w.patch, w.approval, w.askedAt, w.code))
      == System(rows, answered.0, actor, Some(answered.1), drafts)
  {
  }

  function Append(drafts: seq<Draft>, d: Option<Draft>): seq<Draft> {
    if d.Some? then drafts + [d.value] else drafts
  }

  lemma PublishedOrNot(h: Policy, rows: Rows, requests: A.Requests, actor: Id, copy: Row, drafts: seq<Draft>, answer: Publication)
    ensures var answered := PublishAnswered(h, copy, answer);
      Apply(h, System(rows, requests, actor, Some(Publishing(copy)), drafts), PublishStep(actor, answer))
      == System(rows, requests, actor, Some(answered.1), Append(drafts, answered.0))
  {
  }

  // ----- the code -----

  ghost function Run(h: Policy, s: Sys, steps: seq<Step>): Sys {
    if steps == [] then s else Apply(h, Run(h, s, steps[..|steps| - 1]), steps[|steps| - 1])
  }

  lemma RunOneMore(h: Policy, s: Sys, steps: seq<Step>, step: Step)
    ensures Run(h, s, steps + [step]) == Apply(h, Run(h, s, steps), step)
  {
    assert (steps + [step])[..|steps|] == steps;
  }

  /** A run of steps is a behaviour, so every result about behaviours applies to it. */
  lemma {:induction false} RunIsABehaviour(h: Policy, s: Sys, steps: seq<Step>) returns (states: seq<Sys>)
    ensures Behaviour(h, states, steps) && states[0] == s && states[|steps|] == Run(h, s, steps)
    decreases |steps|
  {
    states := [s];
    if steps != [] {
      var n := |steps| - 1;
      var before := RunIsABehaviour(h, s, steps[..n]);
      states := before + [Run(h, s, steps)];
      forall i | 0 <= i < |steps| ensures states[i + 1] == Apply(h, states[i], steps[i]) {
        if i < n { assert before[i + 1] == Apply(h, before[i], steps[..n][i]); }
      }
    }
  }

  /** Validates the agent's plan and asks for its approval; the copy to be saved says how that went. */
  method AskPlan(approvals: ApprovalStore.PostgreSQLStore, h: Policy, copy: Row, w: Work) returns (saved: Row)
    modifies approvals
    ensures (approvals.requests, Saving(saved, ThenStop))
         == PlanAnswered(h, old(approvals.requests), copy, w.plan, w.approval, w.askedAt, w.code)
  {
    if w.plan.None? {
      return copy.(state := Failed, failureCode := AgentFailed(w.code));
    }
    var plan := w.plan.value;
    if !h.planOk(plan) {
      return copy.(state := Failed, failureCode := PlanInvalid);
    }
    var digest := h.plan(plan);
    if Blank(copy.info.createdBy) {
      return copy.(state := Failed, failureCode := RequesterMissing);
    }
    var input := A.CreateInput(
      A.RepairPlan, A.High, digest, copy.info.createdBy, [A.Admin, A.Maintainer], w.askedAt + 24 * 3600 * 1_000_000_000,
      A.Metadata(None, copy.id), w.askedAt);
    var request := ApprovalStore.CreateRequest(approvals, input, w.approval, w.askedAt);
    if request.Err? {
      return copy.(state := Failed, failureCode := PlanApprovalFailed);
    }
    return copy.(plan := Some(plan), planDigest := digest, planApproval := w.approval, state := AwaitingPlanApproval);
  }

  method AskPatch(approvals: ApprovalStore.PostgreSQLStore, h: Policy, copy: Row, w: Work) returns (saved: Row)
    modifies approvals
    ensures (approvals.requests, Saving(saved, ThenStop))
         == PatchAnswered(h, old(approvals.requests), copy, w.patch, w.approval, w.askedAt, w.code)
  {
    if w.patch.None? {
      return copy.(state := Failed, failureCode := AgentFailed(w.code));
    }
    var patch := w.patch.value;
    var refusal := h.patchError(patch, copy.info.baseSha);
    if refusal.Some? {
      return copy.(state := Failed, failureCode := PatchRejected(refusal.value));
    }
    var digest := h.patch(patch);
    var input := A.CreateInput(
      A.PublishPatch, A.High, digest, copy.info.createdBy, [A.Admin, A.Maintainer], w.askedAt + 24 * 3600 * 1_000_000_000,
      A.Metadata(None, copy.id), w.askedAt);
    var request := ApprovalStore.CreateRequest(approvals, input, w.approval, w.askedAt);
    if request.Err? {
      return copy.(state := Failed, failureCode := PatchApprovalFailed);
    }
    return copy.(patch := Some(patch), patchDigest := digest, patchApproval := w.approval,
                 branch := Some(copy.id), state := AwaitingPatchApproval);
  }

  /** The steps of one uninterrupted phase, from what its actor is about to do. */
  function PhaseSteps(at: Option<Actor>, actor: Id, w: Work): seq<Step> {
    match at
    case Some(Saving(_, ThenDraft)) =>
      [SaveStep(actor, w.firstSave), DraftStep(actor, w.plan, w.approval, w.askedAt, w.code), SaveStep(actor, w.lastSave)]
    case Some(Saving(_, ThenCode)) =>
      [SaveStep(actor, w.firstSave), CodeStep(actor, w.patch, w.approval, w.askedAt, w.code), SaveStep(actor, w.lastSave)]
    case Some(Saving(_, ThenStop)) => [SaveStep(actor, w.lastSave)]
    case Some(Publishing(_)) => [PublishStep(actor, w.published), SaveStep(actor, w.lastSave)]
    case _ => []
  }

  function StatusFor(state: State): T.Status {
    if state == Published then T.Succeeded
    else if state == AwaitingPlanApproval || state == AwaitingPatchApproval then T.AwaitingApproval
    else T.Failed
  }

  method GeneratePlan(repairs: RepairStore, approvals: ApprovalStore.PostgreSQLStore, h: Policy, repair: Row, w: Work,
                      ghost actor: Id, ghost drafts: seq<Draft>) returns (status: T.Status, ghost steps: seq<Step>)
    requires repair.id in repairs.rows
    modifies repairs, approvals
    ensures System(repairs.rows, approvals.requests, actor, None, drafts)
         == Run(h, System(old(repairs.rows), old(approvals.requests), actor, Some(Saving(repair.(state := Planning), ThenDraft)), drafts), steps)
    ensures steps == PhaseSteps(Some(Saving(repair.(state := Planning), ThenDraft)), actor, w)
    ensures repair.id in repairs.rows && status == StatusFor(repairs.rows[repair.id].state)
  {
    var copy := repair.(state := Planning);
    ghost var s0 := System(repairs.rows, approvals.requests, actor, Some(Saving(copy, ThenDraft)), drafts);
    Saved(h, repairs.rows, approvals.requests, actor, Saving(copy, ThenDraft), drafts, w.firstSave);
    var ok := repairs.Update(copy, w.firstSave);
    Drafted(h, repairs.rows, approvals.requests, actor, copy, drafts, w);
    var saved := AskPlan(approvals, h, copy, w);
    Saved(h, repairs.rows, approvals.requests, actor, Saving(saved, ThenStop), drafts, w.lastSave);
    ok := repairs.Update(saved, w.lastSave);
    status := if saved.state == Failed then T.Failed else T.AwaitingApproval;
    steps := [SaveStep(actor, w.firstSave), DraftStep(actor, w.plan, w.approval, w.askedAt, w.code), SaveStep(actor, w.lastSave)];
    Run3(h, s0, steps);
  }

  method GeneratePatch(repairs: RepairStore, approvals: ApprovalStore.PostgreSQLStore, h: Policy, repair: Row, w: Work,
                       ghost actor: Id, ghost drafts: seq<Draft>) returns (status: T.Status, ghost steps: seq<Step>)
    requires repair.id in repairs.rows
    modifies repairs, approvals
    ensures System(repairs.rows, approvals.requests, actor, None, drafts)
         == Run(h, System(old(repairs.rows), old(approvals.requests), actor, Some(Saving(repair.(state := Patching), ThenCode)), drafts), steps)
    ensures steps == PhaseSteps(Some(Saving(repair.(state := Patching), ThenCode)), actor, w)
    ensures repair.id in repairs.rows && status == StatusFor(repairs.rows[repair.id].state)
  {
    var copy := repair.(state := Patching);
    ghost var s0 := System(repairs.rows, approvals.requests, actor, Some(Saving(copy, ThenCode)), drafts);
    Saved(h, repairs.rows, approvals.requests, actor, Saving(copy, ThenCode), drafts, w.firstSave);
    var ok := repairs.Update(copy, w.firstSave);
    Coded(h, repairs.rows, approvals.requests, actor, copy, drafts, w);
    var saved := AskPatch(approvals, h, copy, w);
    Saved(h, repairs.rows, approvals.requests, actor, Saving(saved, ThenStop), drafts, w.lastSave);
    ok := repairs.Update(saved, w.lastSave);
    status := if saved.state == Failed then T.Failed else T.AwaitingApproval;
    steps := [SaveStep(actor, w.firstSave), CodeStep(actor, w.patch, w.approval, w.askedAt, w.code), SaveStep(actor, w.lastSave)];
    Run3(h, s0, steps);
  }

  lemma Run3(h: Policy, s: Sys, steps: seq<Step>)
    requires |steps| == 3
    ensures Run(h, s, steps) == Apply(h, Apply(h, Apply(h, s, steps[0]), steps[1]), steps[2])
  {
    assert steps[..2][..1][..0] == [];
    assert Run(h, s, steps[..2][..1]) == Apply(h, s, steps[0]);
    assert Run(h, s, steps[..2]) == Apply(h, Apply(h, s, steps[0]), steps[1]);
  }

  /** Checks the stored patch again and hands it to the provider. */
  method AskProvider(h: Policy, copy: Row, answer: Publication) returns (draft: Option<Draft>, saved: Row)
    ensures (draft, Saving(saved, ThenStop)) == PublishAnswered(h, copy, answer)
  {
    var patch := Decoded(copy);
    var refusal := h.patchError(patch, copy.info.baseSha);
    if refusal.Some? {
      return None, copy.(state := Failed, failureCode := PatchRejected(refusal.value));
    }
    if answer.NoProvider? {
      return None, copy.(state := Failed, failureCode := ProviderUnavailable);
    }
    if answer.Declined? {
      return None, copy.(state := Failed, failureCode := PublicationFailed);
    }
    var call := PublishInput(
      copy.info.repository, copy.info.installationId, copy.info.baseBranch, copy.info.baseSha, copy.branch,
      copy.info.issueTitle, patch.summary, patch.files);
    return Some(Draft(copy, patch, call)), copy.(draft := Some(answer.pr), state := Published, failureCode := NoFailure);
  }

  method Publish(repairs: RepairStore, h: Policy, repair: Row, w: Work, ghost requests: A.Requests, ghost actor: Id, ghost drafts: seq<Draft>)
    returns (status: T.Status, draft: Option<Draft>, ghost steps: seq<Step>)
    requires repair.id in repairs.rows
    modifies repairs
    ensures System(repairs.rows, requests, actor, None, Append(drafts, draft))
         == Run(h, System(old(repairs.rows), requests, actor, Some(Publishing(repair.(state := PatchApproved))), drafts), steps)
    ensures steps == PhaseSteps(Some(Publishing(repair.(state := PatchApproved))), actor, w)
    ensures repair.id in repairs.rows && status == StatusFor(repairs.rows[repair.id].state)
    ensures draft.Some? <==> status == T.Succeeded
  {
    var copy := repair.(state := PatchApproved);
    ghost var s0 := System(repairs.rows, requests, actor, Some(Publishing(copy)), drafts);
    PublishedOrNot(h, repairs.rows, requests, actor, copy, drafts, w.published);
    var saved;
    draft, saved := AskProvider(h, copy, w.published);
    Saved(h, repairs.rows, requests, actor, Saving(saved, ThenStop), Append(drafts, draft), w.lastSave);
    var ok := repairs.Update(saved, w.lastSave);
    status := if saved.state == Failed then T.Failed else T.Succeeded;
    steps := [PublishStep(actor, w.published)] + [SaveStep(actor, w.lastSave)];
    RunOneMore(h, s0, [PublishStep(actor, w.published)], SaveStep(actor, w.lastSave));
    RunOneMore(h, s0, [], PublishStep(actor, w.published));
  }

  method FailRepair(repairs: RepairStore, h: Policy, repair: Row, code: Code, w: Work, ghost requests: A.Requests, ghost actor: Id, ghost drafts: seq<Draft>)
    returns (status: T.Status, ghost steps: seq<Step>)
    requires repair.id in repairs.rows
    modifies repairs
    ensures System(repairs.rows, requests, actor, None, drafts)
         == Run(h, System(old(repairs.rows), requests, actor, Some(Fail(repair, code)), drafts), steps)
    ensures steps == PhaseSteps(Some(Fail(repair, code)), actor, w)
    ensures repair.id in repairs.rows && status == T.Failed == StatusFor(repairs.rows[repair.id].state)
  {
    ghost var s0 := System(repairs.rows, requests, actor, Some(Fail(repair, code)), drafts);
    Saved(h, repairs.rows, requests, actor, Fail(repair, code), drafts, w.lastSave);
    var ok := repairs.Update(repair.(state := Failed, failureCode := code), w.lastSave);
    status := T.Failed;
    steps := [] + [SaveStep(actor, w.lastSave)];
    RunOneMore(h, s0, [], SaveStep(actor, w.lastSave));
  }

  lemma {:induction false} RunAfterFirst(h: Policy, s: Sys, first: Step, steps: seq<Step>)
    ensures Run(h, s, [first] + steps) == Run(h, Apply(h, s, first), steps)
    decreases |steps|
  {
    var all := [first] + steps;
    if steps == [] {
      assert all[..0] == [];
    } else {
      assert all[..|all| - 1] == [first] + steps[..|steps| - 1];
      RunAfterFirst(h, s, first, steps[..|steps| - 1]);
    }
  }

  /** One call, uninterrupted: it takes the steps listed, publishes at most one draft, and the
      status it reports to the queue is the one that belongs to the state it leaves behind. */
  method Process(repairs: RepairStore, approvals: ApprovalStore.PostgreSQLStore, h: Policy, id: Id, agent: bool, w: Work,
                 ghost actor: Id, ghost drafts: seq<Draft>)
    returns (status: T.Status, draft: Option<Draft>, ghost steps: seq<Step>)
    requires id in repairs.rows ==> repairs.rows[id].id == id
    modifies repairs, approvals
    ensures System(repairs.rows, approvals.requests, actor, None, Append(drafts, draft))
         == Run(h, System(old(repairs.rows), old(approvals.requests), actor, None, drafts), steps)
    ensures id !in old(repairs.rows) ==> steps == [] && status == T.Failed && draft.None? && repairs.rows == old(repairs.rows)
    ensures id in old(repairs.rows) ==>
      steps == [ProcessStep(actor, id, agent)] + PhaseSteps(Dispatch(old(repairs.rows)[id], agent), actor, w)
    ensures id in old(repairs.rows) && Dispatch(old(repairs.rows)[id], agent).None? ==> status == T.Failed && repairs.rows == old(repairs.rows)
    ensures id in old(repairs.rows) && Dispatch(old(repairs.rows)[id], agent).Some? ==>
      id in repairs.rows && status == StatusFor(repairs.rows[id].state)
    ensures draft.Some? ==> status == T.Succeeded
  {
    draft, steps := None, [];
    if id !in repairs.rows {
      return T.Failed, None, [];
    }
    var repair := repairs.rows[id];
    ghost var s0 := System(repairs.rows, approvals.requests, actor, None, drafts);
    ghost var first := ProcessStep(actor, id, agent);
    ghost var more: seq<Step> := [];
    Dispatched(h, repairs.rows, approvals.requests, actor, drafts, id, agent);
    if !agent && (repair.state == Planning || repair.state == PlanApproved || repair.state == Patching
                  || (repair.state == Failed && repair.patchDigest == "")) {
      status, more := FailRepair(repairs, h, repair, AcUnavailable, w, approvals.requests, actor, drafts);
    } else if repair.state == Planning {
      assert repair.(state := Planning) == repair;
      status, more := GeneratePlan(repairs, approvals, h, repair, w, actor, drafts);
    } else if repair.state == PlanApproved {
      status, more := GeneratePatch(repairs, approvals, h, repair, w, actor, drafts);
    } else if repair.state == PatchApproved {
      assert repair.(state := PatchApproved) == repair;
      status, draft, more := Publish(repairs, h, repair, w, approvals.requests, actor, drafts);
    } else if repair.state == Failed {
      if repair.patchApproval != "" && repair.patchDigest != "" {
        status, draft, more := Publish(repairs, h, repair.(state := PatchApproved), w, approvals.requests, actor, drafts);
      } else if repair.planApproval != "" && repair.planDigest != "" {
        status, more := GeneratePatch(repairs, approvals, h, repair.(state := PlanApproved), w, actor, drafts);
      } else {
        status, more := GeneratePlan(repairs, approvals, h, repair, w, actor, drafts);
      }
    } else {
      status := T.Failed;
    }
    RunAfterFirst(h, s0, first, more);
    steps := [first] + more;
  }
}
